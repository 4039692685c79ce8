/** What holds of every run of the atomic-append lock. */
module LockTheorems {
  import opened LockLog
  import opened LockScan
  import opened LockScanMeaning
  import opened LockProtocol
  import opened LockInvariant
  import opened LockSteps
  import opened LockReading

  /** Every file operation of every writer, and the passing of time, keeps the invariant. */
  lemma StepKeepsInv(s: State, step: Step)
    requires Inv(s) && Punctual(s) && Enabled(s, step)
    ensures Inv(Apply(s, step))
  {
    hide Inv;
    hide Punctual;
    hide Covered;
    match step
    case Tick => TickStep(s);
    case Act(p, extent) =>
      match s.procs[p].pc
      case Idle => RegisterStep(s, p);
      case Registered => QueryExtentStep(s, p, extent);
      case Stating => QuerySizeStep(s, p);
      case Reading => ReadStep(s, p);
      case Deciding =>
        if s.procs[p].s.preceding == [] {
          ClaimStep(s, p);
        } else {
          WaitStep(s, p);
        }
      case Zeroing => ZeroStep(s, p);
      case Leaving => LeaveStep(s, p);
      case _ => InsideStep(s, p, Apply(s, step), Apply(s, step).procs[p]);
  }

  lemma InitInv(s: State)
    requires Init(s)
    ensures Inv(s)
  {
  }

  lemma {:induction false} RunInv(r: seq<State>, steps: seq<Step>, k: nat)
    requires Run(r, steps) && k < |r|
    ensures Inv(r[k])
  {
    hide Inv;
    hide Apply;
    if k == 0 {
      InitInv(r[0]);
    } else {
      RunInv(r, steps, k - 1);
      StepKeepsInv(r[k - 1], steps[k - 1]);
    }
  }

  /** The guards that keep a window or an entry inside its file exclude no reachable step. */
  lemma ReadNeverPastEnd(r: seq<State>, steps: seq<Step>, k: nat, p: nat)
    requires Run(r, steps) && k < |r| && p < |r[k].procs| && r[k].procs[p].pc.Reading?
    ensures r[k].procs[p].w < r[k].procs[p].size <= |r[k].log|
  {
    RunInv(r, steps, k);
    assert ProcOk(r[k].history, r[k].clock, p, r[k].procs[p]);
  }

  // Mutual exclusion.

  /** Two writers are never both between havelock and unlock. */
  lemma AtMostOneClaimed(s: State, p: nat, q: nat)
    requires Inv(s) && p < |s.procs| && q < |s.procs| && Claimed(s.procs[p]) && Claimed(s.procs[q])
    ensures p == q
  {
    hide Stage;
    hide Orderly;
    hide Timed;
    hide PunchedBelowLive;
    hide Owned;
    var a, b := s.procs[p], s.procs[q];
    assert ProcOk(s.history, s.clock, p, a) && ProcOk(s.history, s.clock, q, b);
    assert s.history[a.renewed].code.HaveLock? && s.history[b.renewed].code.HaveLock?;
    assert NoneLiveBelow(s.history, a.mine) && NoneLiveBelow(s.history, b.mine);
  }

  lemma HolderIsLive(h: seq<Message>, t: nat)
    requires Orderly(h) && Holds(h, t)
    ensures Live(h, t)
  {
    var i :| 0 <= i < |h| && h[i].code.HaveLock? && h[i].uniqueid == RECORD * t;
    assert Claims(h, i, t);
  }

  /** A ticket holding the lock by the log is the ticket of a writer inside. */
  lemma HolderIsClaimed(s: State, t: nat)
    requires Inv(s) && Holds(s.history, t)
    ensures t < |s.history| && s.history[t].uniqueid < |s.procs|
    ensures var a := s.procs[s.history[t].uniqueid]; Claimed(a) && a.mine == t
  {
    hide Stage;
    hide Orderly;
    hide Timed;
    hide PunchedBelowLive;
    hide InOrder;
    HolderIsLive(s.history, t);
    var q := s.history[t].uniqueid;
    assert ProcOk(s.history, s.clock, q, s.procs[q]);
  }

  /** In every run at most one writer is between havelock and unlock, and the file says so too. */
  lemma MutualExclusion(r: seq<State>, steps: seq<Step>, k: nat)
    requires Run(r, steps) && k < |r|
    ensures forall p, q :: 0 <= p < q < |r[k].procs| ==> !(Claimed(r[k].procs[p]) && Claimed(r[k].procs[q]))
    ensures forall t: nat, u: nat :: Holds(r[k].history, t) && Holds(r[k].history, u) ==> t == u
  {
    hide Inv;
    hide Run;
    var s := r[k];
    RunInv(r, steps, k);
    forall p, q | 0 <= p < q < |s.procs|
      ensures !(Claimed(s.procs[p]) && Claimed(s.procs[q]))
    {
      if Claimed(s.procs[p]) && Claimed(s.procs[q]) {
        AtMostOneClaimed(s, p, q);
      }
    }
    forall t: nat, u: nat | Holds(s.history, t) && Holds(s.history, u)
      ensures t == u
    {
      HolderIsClaimed(s, t);
      HolderIsClaimed(s, u);
      AtMostOneClaimed(s, s.history[t].uniqueid, s.history[u].uniqueid);
    }
  }

  // Order and progress.

  /** The lock is taken in ticket order, and never while a smaller ticket is live. */
  lemma FirstComeFirstServed(r: seq<State>, steps: seq<Step>, k: nat)
    requires Run(r, steps) && k < |r|
    ensures var h := r[k].history;
            && (forall i, j :: 0 <= i < j < |h| && h[i].code.HaveLock? && h[j].code.HaveLock? ==> h[i].uniqueid < h[j].uniqueid)
            && (forall t: nat, u: nat :: Holds(h, t) && Live(h, u) ==> t <= u)
  {
    RunInv(r, steps, k);
    var h := r[k].history;
    forall t: nat, u: nat | Holds(h, t) && Live(h, u)
      ensures t <= u
    {
      var i :| 0 <= i < |h| && h[i].code.HaveLock? && h[i].uniqueid == RECORD * t;
      assert NoneLiveBelow(h, h[i].uniqueid / RECORD);
    }
  }

  /** After the first scan every writer knows where its own interest landed, and only a writer
      that no live ticket precedes decides to take the lock. */
  lemma TicketIsMine(r: seq<State>, steps: seq<Step>, k: nat, p: nat)
    requires Run(r, steps) && k < |r| && p < |r[k].procs| && r[k].procs[p].pc.Deciding?
    ensures var a := r[k].procs[p];
            && a.s.my == RECORD * a.mine && a.mine < |r[k].history|
            && r[k].history[a.mine].code.Interest? && r[k].history[a.mine].uniqueid == p
            && (a.s.preceding == [] ==> NoneLiveBelow(r[k].history, a.mine))
  {
    RunInv(r, steps, k);
    assert ProcOk(r[k].history, r[k].clock, p, r[k].procs[p]);
  }

  /** Writer p waits with the smallest live ticket, and its rescan, once begun, began so. */
  ghost predicate NextInLine(s: State, p: nat) {
    && p < |s.procs|
    && var a := s.procs[p];
       !a.first && NoneLiveBelow(s.history, a.mine)
       && (a.pc.Stating? || ((a.pc.Reading? || a.pc.Deciding?) && a.quiet))
  }

  /** Own steps left before a waiting writer decides, at most. */
  function Rank(a: Proc): nat {
    if a.pc.Deciding? then 0 else if a.pc.Reading? then 1 + a.w else OFF_T
  }

  /** A step changes at most the acting writer, and appends at most one message. */
  lemma StepShape(s: State, step: Step, p: nat)
    requires Enabled(s, step) && p < |s.procs| && |s.log| == |s.history|
    ensures var s' := Apply(s, step);
            && |s'.procs| == |s.procs|
            && (!(step.Act? && step.p == p) ==> s'.procs[p] == s.procs[p])
            && (s'.history == s.history || exists m :: s'.history == s.history + [m])
  {
    hide ReadWindow;
    hide Covered;
    hide Finish;
  }

  lemma NextInLineStays(s: State, step: Step, p: nat)
    requires Inv(s) && Punctual(s) && Enabled(s, step) && NextInLine(s, p)
    requires s.procs[p].pc.Deciding? ==> !(step.Act? && step.p == p)
    ensures NextInLine(Apply(s, step), p)
    ensures var a, b := s.procs[p], Apply(s, step).procs[p];
            if step.Act? && step.p == p then Rank(b) < Rank(a) else b == a
  {
    hide Live;
    hide Orderly;
    hide Timed;
    hide Owned;
    hide InOrder;
    hide ReadWindow;
    hide ValidOnly;
    hide Possible;
    hide Covered;
    hide Punctual;
    var s' := Apply(s, step);
    StepShape(s, step, p);
    assert ProcOk(s.history, s.clock, p, s.procs[p]);
    if step.Act? && step.p == p {
      if s.procs[p].pc.Reading? {
        ReadKeepsTicket(s.history, s.log, s.clock, p, s.procs[p]);
      } else {
        assert s' == QuerySize(s, p);
      }
    } else {
      hide Apply;
      if s'.history != s.history {
        var m :| s'.history == s.history + [m];
        NoneLiveBelowAppend(s.history, m, s.procs[p].mine);
      }
    }
  }

  lemma ReadKeepsTicket(h: seq<Message>, v: seq<Message>, clock: nat, p: nat, a: Proc)
    requires Sees(h, v, clock) && ProcOk(h, clock, p, a) && a.pc.Reading?
    ensures var b := After(a, ReadWindow(a.s, v, a.w, a.size, a.temp, a.now)); b.pc.Reading? || b.pc.Deciding?
  {
    hide ReadWindow;
    hide Live;
    WindowOk(h, v, clock, p, a);
  }

  /** No waiter is stuck: once the smallest live ticket is p's, p's next rescan ends with the decision to
      take the lock, whatever the other writers do meanwhile, and each step of p brings that nearer. */
  lemma {:induction false} SmallestTicketAcquires(r: seq<State>, steps: seq<Step>, i: nat, j: nat, p: nat)
    requires Run(r, steps) && i <= j < |r| && NextInLine(r[i], p)
    requires forall k :: i <= k < j && p < |r[k].procs| && r[k].procs[p].pc.Deciding? ==> !(steps[k].Act? && steps[k].p == p)
    ensures NextInLine(r[j], p)
    ensures r[j].procs[p].pc.Deciding? ==> r[j].procs[p].s.preceding == []
    ensures Rank(r[j].procs[p]) <= Rank(r[i].procs[p])
    ensures i < j && steps[i].Act? && steps[i].p == p ==> Rank(r[j].procs[p]) < Rank(r[i].procs[p])
    decreases j - i
  {
    hide Stage;
    hide Apply;
    RunInv(r, steps, i);
    if i < j {
      NextInLineStays(r[i], steps[i], p);
      SmallestTicketAcquires(r, steps, i + 1, j, p);
    } else {
      QuietDecides(r[i], p);
    }
  }

  lemma QuietDecides(s: State, p: nat)
    requires Inv(s) && NextInLine(s, p)
    ensures s.procs[p].pc.Deciding? ==> s.procs[p].s.preceding == []
  {
    assert ProcOk(s.history, s.clock, p, s.procs[p]);
  }
}
