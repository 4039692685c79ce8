/** The figures of the atomic-append lock: ten seconds between nominations, twenty until a message is stale. */
module LockTiming {
  import opened LockLog
  import opened LockScan
  import opened LockProtocol
  import opened LockInvariant
  import opened LockTheorems

  // The timing discipline follows from how often waiters decide.

  /** Every waiter decided, or registered, less than ten seconds ago, and no holder took the lock more than twenty
      seconds ago. */
  ghost predicate Timely(s: State) {
    forall p :: 0 <= p < |s.procs| && !s.procs[p].pc.Idle? && s.procs[p].renewed < |s.history| ==>
      if Claimed(s.procs[p]) then s.clock <= s.history[s.procs[p].renewed].timestamp + 20 else s.clock < s.procs[p].decided + 10
  }

  /** A run in which it holds at every step; nothing is said of staleness. */
  ghost predicate TimelyRun(r: seq<State>, steps: seq<Step>) {
    && |r| == |steps| + 1 && Init(r[0])
    && forall i :: 0 <= i < |steps| ==>
         Timely(r[i]) && Enabled(r[i], steps[i]) && r[i + 1] == Apply(r[i], steps[i])
  }

  /** How a waiter's newest message, the time it compares with and its last decision are related. */
  predicate Renewing(h: seq<Message>, a: Proc) {
    !a.pc.Idle? && !Claimed(a) && a.renewed < |h| ==>
      if a.first then a.decided <= h[a.renewed].timestamp && (a.pc.Deciding? ==> a.now == 0)
      else a.decided < a.now + 10 && a.now <= h[a.renewed].timestamp
  }

  ghost predicate AllRenewing(s: State) {
    forall p :: 0 <= p < |s.procs| ==> Renewing(s.history, s.procs[p])
  }

  lemma TimelyIsPunctual(s: State)
    requires Timely(s) && AllRenewing(s) && Inv(s)
    ensures Punctual(s)
  {
    hide Stage, Orderly, InOrder, Owned, PunchedBelowLive, HasTicket;
    forall p | 0 <= p < |s.procs| && !s.procs[p].pc.Idle? && s.procs[p].renewed < |s.history|
      ensures !Stale(s.history[s.procs[p].renewed], s.clock)
    {
      assert Renewing(s.history, s.procs[p]);
    }
  }

  /** What the end of a scan does to its writer's times. */
  lemma FinishTimes()
    ensures forall a: Proc, scan: Scan :: var b := Finish(a, scan);
              && (b.pc.Stating? || b.pc.Deciding?) && b == a.(pc := b.pc, s := b.s, now := b.now)
              && b.now == if b.pc.Deciding? && a.first then 0 else a.now
  {
    hide ValidOnly;
  }

  lemma DecideRenews(s: State, p: nat)
    requires p < |s.procs| && s.procs[p].pc.Deciding? && |s.log| == |s.history|
    requires Renewing(s.history, s.procs[p]) && s.procs[p].renewed < |s.history|
    ensures Renewing(Decide(s, p).history, Decide(s, p).procs[p])
  {}

  /** Before it decides a waiter's times stay as they are, but for the end of a scan. */
  lemma ScanRenews(s: State, step: Step)
    requires Enabled(s, step) && step.Act?
    requires var pc := s.procs[step.p].pc; pc.Registered? || pc.Stating? || pc.Reading?
    requires Renewing(s.history, s.procs[step.p])
    ensures Apply(s, step).history == s.history && Renewing(s.history, Apply(s, step).procs[step.p])
  {
    hide ReadWindow, Covered, Finish, NoneLiveBelow, LoopAgain;
    FinishTimes();
  }

  lemma ClaimedRenews(s: State, step: Step)
    requires Enabled(s, step) && step.Act? && Claimed(s.procs[step.p])
    ensures var b := Apply(s, step).procs[step.p]; b.pc.Idle? || Claimed(b)
  {
    hide Punch, Resize, Overwrite, Entry;
  }

  lemma RegisterRenews(s: State, p: nat)
    requires p < |s.procs| && |s.log| == |s.history|
    ensures Renewing(Register(s, p).history, Register(s, p).procs[p])
  {}

  /** What a step does to its writer's times. */
  lemma OwnStep(s: State, step: Step)
    requires Enabled(s, step) && step.Act? && |s.log| == |s.history| && Renewing(s.history, s.procs[step.p])
    requires !s.procs[step.p].pc.Idle? ==> s.procs[step.p].renewed < |s.history|
    ensures Renewing(Apply(s, step).history, Apply(s, step).procs[step.p])
  {
    var pc := s.procs[step.p].pc;
    if pc.Idle? {
      hide Register, Renewing;
      RegisterRenews(s, step.p);
    } else if pc.Deciding? {
      hide Decide, Renewing;
      DecideRenews(s, step.p);
    } else if Claimed(s.procs[step.p]) {
      ClaimedRenews(s, step);
      hide Apply;
    } else {
      ScanRenews(s, step);
      hide Apply;
    }
  }

  lemma RenewingStep(s: State, step: Step)
    requires Inv(s) && Enabled(s, step) && AllRenewing(s)
    ensures AllRenewing(Apply(s, step))
  {
    var s' := Apply(s, step);
    Shape(s);
    hide Inv, Enabled, Apply, Renewing;
    forall p | 0 <= p < |s'.procs| ensures Renewing(s'.history, s'.procs[p]) {
      Shrinks(s, step);
      StepShape(s, step, p);
      assert Renewing(s.history, s.procs[p]);
      if step.Act? && step.p == p {
        OwnStep(s, step);
      } else {
        OthersRenewing(s.history, s'.history, s.procs[p]);
      }
    }
  }

  lemma Shrinks(s: State, step: Step)
    requires Enabled(s, step)
    ensures |Apply(s, step).procs| == |s.procs|
  {
    hide ReadWindow, Covered, Finish;
  }

  lemma Shape(s: State)
    requires Inv(s)
    ensures |s.log| == |s.history| && forall p :: 0 <= p < |s.procs| && !s.procs[p].pc.Idle? ==> s.procs[p].renewed < |s.history|
  {
    hide Stage;
    forall p | 0 <= p < |s.procs| && !s.procs[p].pc.Idle? ensures s.procs[p].renewed < |s.history| {
      assert ProcOk(s.history, s.clock, p, s.procs[p]);
    }
  }

  lemma OthersRenewing(h: seq<Message>, h': seq<Message>, a: Proc)
    requires Renewing(h, a) && (!a.pc.Idle? ==> a.renewed < |h|) && (h' == h || exists m :: h' == h + [m])
    ensures Renewing(h', a)
  {}

  lemma {:induction false} TimelyInv(r: seq<State>, steps: seq<Step>, k: nat)
    requires TimelyRun(r, steps) && k < |r|
    ensures Inv(r[k]) && AllRenewing(r[k])
  {
    hide Inv, Apply, Enabled, Timely, Punctual, AllRenewing;
    if k == 0 {
      InitInv(r[0]);
      NobodyRenews(r[0]);
    } else {
      var s, step := r[k - 1], steps[k - 1];
      TimelyInv(r, steps, k - 1);
      TimelyIsPunctual(s);
      StepKeepsInv(s, step);
      RenewingStep(s, step);
    }
  }

  lemma NobodyRenews(s: State)
    requires Init(s)
    ensures AllRenewing(s)
  {}

  /** Waiters who decide every ten seconds and holders who release within twenty are never late: the newest message of
      a waiter is never more than eighteen seconds old, and no writer's newest message goes stale. */
  lemma NobodyIsLate(r: seq<State>, steps: seq<Step>, k: nat)
    requires TimelyRun(r, steps) && k < |r| && Timely(r[k])
    ensures Punctual(r[k])
    ensures forall p :: 0 <= p < |r[k].procs| && !r[k].procs[p].pc.Idle? && !Claimed(r[k].procs[p]) ==>
              && r[k].procs[p].renewed < |r[k].history|
              && r[k].clock <= r[k].history[r[k].procs[p].renewed].timestamp + 18
  {
    hide TimelyRun, Inv;
    TimelyInv(r, steps, k);
    TimelyIsPunctual(r[k]);
    Shape(r[k]);
  }

  /** So what holds of every run held to the timing discipline holds of every timely one. */
  lemma TimelyRunIsRun(r: seq<State>, steps: seq<Step>)
    requires TimelyRun(r, steps)
    ensures Run(r, steps)
  {
    hide Apply, Enabled, Timely, Punctual;
    forall i | 0 <= i < |steps| ensures Punctual(r[i]) {
      NobodyIsLate(r, steps, i);
    }
  }

  // How often waiters nominate.

  predicate Nominates(m: Message, t: nat) { m.code.Nominate? && m.uniqueid == RECORD * t }

  /** The writer's ticket was last nominated when its comparison time says, if at all. */
  ghost predicate Nominated(h: seq<Message>, a: Proc) {
    !a.pc.Idle? ==> forall i :: 0 <= i < |h| && Nominates(h[i], a.mine) ==> !a.first && h[i].timestamp <= a.now
  }

  ghost predicate Apart(h: seq<Message>) {
    forall i, j :: 0 <= i < j < |h| && h[i].code.Nominate? && h[j].code.Nominate? && h[i].uniqueid == h[j].uniqueid ==>
      h[i].timestamp + 10 <= h[j].timestamp
  }

  ghost predicate Spaced(s: State) {
    Apart(s.history) && forall p :: 0 <= p < |s.procs| ==> Nominated(s.history, s.procs[p])
  }

  /** What a step appends on its writer's own behalf, and what becomes of its times. */
  lemma NominatingStep(s: State, step: Step, p: nat)
    requires Inv(s) && Enabled(s, step) && step.Act? && step.p == p
    ensures var s', a, b := Apply(s, step), s.procs[p], Apply(s, step).procs[p];
            && (s'.history == s.history || exists m :: s'.history == s.history + [m] && (m.code.Nominate? ==>
                  && !a.pc.Idle? && Nominates(m, a.mine) && m.timestamp == b.now && !b.first
                  && (a.first || a.now + 10 <= m.timestamp)))
            && (a.pc.Idle? ==> b.mine == |s.history| && b.first && exists m :: s'.history == s.history + [m] && m.code.Interest?)
            && (!a.pc.Idle? && !b.pc.Idle? ==> b.mine == a.mine && (!a.first ==> !b.first && a.now <= b.now))
  {
    hide ReadWindow, Covered, Finish, NoneLiveBelow, Punch, LoopAgain, FileOk, HasTicket, MidScan, Fresh;
    FinishTimes();
    var a := s.procs[p];
    assert ProcOk(s.history, s.clock, p, a);
    SameLengths(s);
    if a.pc.Idle? {
      var m := Message(Interest, s.clock, p);
      assert Apply(s, step).history == s.history + [m] && m.code.Interest?;
    }
    if a.pc.Deciding? && a.s.preceding != [] && s.clock >= a.now + RENOMINATE_AFTER {
      var m := Message(Nominate, s.clock, a.s.my);
      assert Apply(s, step).history == s.history + [m];
    }
  }

  lemma SameLengths(s: State)
    requires Inv(s)
    ensures |s.log| == |s.history|
  {}

  /** Different writers hold different tickets. */
  lemma OwnTickets(s: State, p: nat, q: nat)
    requires Inv(s) && p < |s.procs| && q < |s.procs| && p != q && !s.procs[p].pc.Idle? && !s.procs[q].pc.Idle?
    ensures s.procs[p].mine != s.procs[q].mine
  {
    hide Stage, FileOk;
    assert ProcOk(s.history, s.clock, p, s.procs[p]) && ProcOk(s.history, s.clock, q, s.procs[q]);
  }

  /** Nothing nominates a ticket not yet drawn. */
  lemma NotYetNominated(s: State, i: nat)
    requires Inv(s) && i < |s.history|
    ensures !Nominates(s.history[i], |s.history|)
  {
    hide Stage, HasTicket, Timed, InOrder, Owned, PunchedBelowLive;
  }

  lemma NominatedAppend(h: seq<Message>, h': seq<Message>, a: Proc, b: Proc)
    requires Nominated(h, a) && !a.pc.Idle? && (b.pc.Idle? || (b.mine == a.mine && (a.first || (!b.first && a.now <= b.now))))
    requires h' == h || exists m :: h' == h + [m] && (Nominates(m, a.mine) ==> !b.first && m.timestamp <= b.now)
    ensures Nominated(h', b)
  {}

  lemma NominatedStep(s: State, step: Step, p: nat)
    requires Inv(s) && Enabled(s, step) && step.Act? && p < |s.procs| && Nominated(s.history, s.procs[p])
    requires |s.log| == |s.history| && |Apply(s, step).procs| == |s.procs|
    ensures Nominated(Apply(s, step).history, Apply(s, step).procs[p])
  {
    assert step.p < |s.procs|;
    var s' := Apply(s, step);
    StepShape(s, step, p);
    NominatingStep(s, step, step.p);
    hide Inv, Enabled, Apply;
    if !s.procs[p].pc.Idle? {
      if !s.procs[step.p].pc.Idle? && step.p != p {
        OwnTickets(s, p, step.p);
      }
      NominatedAppend(s.history, s'.history, s.procs[p], s'.procs[p]);
    } else if step.p == p {
      forall i: nat | i < |s.history| ensures !Nominates(s.history[i], |s.history|) {
        NotYetNominated(s, i);
      }
    }
  }

  lemma ApartStep(s: State, step: Step)
    requires Inv(s) && Spaced(s) && Enabled(s, step) && step.Act?
    ensures Apart(Apply(s, step).history)
  {
    assert step.p < |s.procs|;
    hide Inv, Enabled, Apply;
    NominatingStep(s, step, step.p);
    assert Nominated(s.history, s.procs[step.p]);
  }

  lemma SpacedStep(s: State, step: Step)
    requires Inv(s) && Spaced(s) && Enabled(s, step)
    ensures Spaced(Apply(s, step))
  {
    var s' := Apply(s, step);
    Shrinks(s, step);
    SameLengths(s);
    if step.Act? {
      hide Inv, Enabled, Apply, Nominated, Apart;
      ApartStep(s, step);
      forall p | 0 <= p < |s.procs| ensures Nominated(s'.history, s'.procs[p]) {
        NominatedStep(s, step, p);
      }
    }
  }

  lemma {:induction false} RunSpaced(r: seq<State>, steps: seq<Step>, k: nat)
    requires Run(r, steps) && k < |r|
    ensures Spaced(r[k])
  {
    hide Inv, Apply, Enabled, Spaced;
    if k > 0 {
      RunSpaced(r, steps, k - 1);
      RunInv(r, steps, k - 1);
      SpacedStep(r[k - 1], steps[k - 1]);
    } else {
      NobodyNominates(r[0]);
    }
  }

  lemma NobodyNominates(s: State)
    requires Init(s)
    ensures Spaced(s)
  {}

  /** In every run, two nominations of one ticket are at least ten seconds apart. */
  lemma NominationsApart(r: seq<State>, steps: seq<Step>, k: nat, i: nat, j: nat)
    requires Run(r, steps) && k < |r| && i < j < |r[k].history|
    requires r[k].history[i].code.Nominate? && r[k].history[j].code.Nominate?
    requires r[k].history[i].uniqueid == r[k].history[j].uniqueid
    ensures r[k].history[i].timestamp + 10 <= r[k].history[j].timestamp
  {
    hide Run, Nominated;
    RunSpaced(r, steps, k);
  }

  // And exactly when.

  /** Nobody has nominated the ticket, or the comparison time is that of a nomination. */
  ghost predicate LastNominated(h: seq<Message>, a: Proc) {
    !a.pc.Idle? && (a.pc.Deciding? || !a.first) ==>
      || (a.now == 0 && forall i :: 0 <= i < |h| ==> !Nominates(h[i], a.mine))
      || exists i :: 0 <= i < |h| && Nominates(h[i], a.mine) && h[i].timestamp == a.now
  }

  ghost predicate AllLast(s: State) {
    forall p :: 0 <= p < |s.procs| ==> LastNominated(s.history, s.procs[p])
  }

  lemma LastAppend(h: seq<Message>, m: Message, a: Proc)
    requires LastNominated(h, a) && (a.pc.Idle? || !Nominates(m, a.mine))
    ensures LastNominated(h + [m], a)
  {
    if i :| 0 <= i < |h| && Nominates(h[i], a.mine) && h[i].timestamp == a.now {
      assert (h + [m])[i] == h[i];
    }
  }

  lemma DecideLast(s: State, p: nat)
    requires p < |s.procs| && s.procs[p].pc.Deciding? && LastNominated(s.history, s.procs[p]) && Found(s.procs[p])
    ensures LastNominated(Decide(s, p).history, Decide(s, p).procs[p])
  {
    var a, h, h' := s.procs[p], s.history, Decide(s, p).history;
    if i :| 0 <= i < |h| && Nominates(h[i], a.mine) && h[i].timestamp == a.now {
      assert h'[i] == h[i];
    }
    if a.s.preceding != [] && s.clock >= a.now + RENOMINATE_AFTER {
      assert Nominates(h'[|h|], a.mine) && h'[|h|].timestamp == s.clock;
    }
  }

  lemma ScanLast(s: State, step: Step)
    requires Enabled(s, step) && step.Act?
    requires var pc := s.procs[step.p].pc; pc.Registered? || pc.Stating? || pc.Reading?
    requires LastNominated(s.history, s.procs[step.p]) && Nominated(s.history, s.procs[step.p])
    ensures Apply(s, step).history == s.history && LastNominated(s.history, Apply(s, step).procs[step.p])
  {
    ScanTimes(s, step);
    hide Apply, Enabled;
  }

  lemma ScanTimes(s: State, step: Step)
    requires Enabled(s, step) && step.Act?
    requires var pc := s.procs[step.p].pc; pc.Registered? || pc.Stating? || pc.Reading?
    ensures var a, b := s.procs[step.p], Apply(s, step).procs[step.p];
            && Apply(s, step).history == s.history && b.mine == a.mine && b.first == a.first
            && b.now == if b.pc.Deciding? && a.first then 0 else a.now
  {
    hide ReadWindow, Covered, Finish, NoneLiveBelow, LoopAgain;
    FinishTimes();
  }

  lemma ClaimedLast(s: State, step: Step)
    requires Enabled(s, step) && step.Act? && Claimed(s.procs[step.p]) && LastNominated(s.history, s.procs[step.p])
    ensures LastNominated(Apply(s, step).history, Apply(s, step).procs[step.p])
  {
    ClaimedTimes(s, step);
    hide Apply, Enabled;
  }

  lemma ClaimedTimes(s: State, step: Step)
    requires Enabled(s, step) && step.Act? && Claimed(s.procs[step.p])
    ensures var a, b := s.procs[step.p], Apply(s, step).procs[step.p];
            b.pc.Idle? || (Apply(s, step).history == s.history && !b.pc.Deciding? && b.mine == a.mine && b.first == a.first && b.now == a.now)
  {
    hide Punch, Resize, Overwrite, Entry;
  }

  lemma OwnLast(s: State, step: Step)
    requires Enabled(s, step) && step.Act? && step.p < |Apply(s, step).procs| && Inv(s)
    requires LastNominated(s.history, s.procs[step.p]) && Nominated(s.history, s.procs[step.p])
    ensures LastNominated(Apply(s, step).history, Apply(s, step).procs[step.p])
  {
    var pc := s.procs[step.p].pc;
    if pc.Idle? {
      hide Inv;
    } else if pc.Deciding? {
      DecidersFound(s, step.p);
      hide Decide, LastNominated, Nominated, Inv;
      DecideLast(s, step.p);
    } else if Claimed(s.procs[step.p]) {
      hide LastNominated, Nominated, Apply, Inv;
      ClaimedLast(s, step);
    } else {
      hide LastNominated, Nominated, Apply, Inv;
      ScanLast(s, step);
    }
  }

  lemma DecidersFound(s: State, p: nat)
    requires Inv(s) && p < |s.procs| && s.procs[p].pc.Deciding?
    ensures Found(s.procs[p])
  {
    hide FileOk, HasTicket;
    assert ProcOk(s.history, s.clock, p, s.procs[p]);
  }

  lemma LastStep(s: State, step: Step)
    requires Inv(s) && Spaced(s) && AllLast(s) && Enabled(s, step)
    ensures AllLast(Apply(s, step))
  {
    var s' := Apply(s, step);
    Shrinks(s, step);
    SameLengths(s);
    assert step.Act? ==> step.p < |s.procs|;
    forall p | 0 <= p < |s.procs| ensures LastNominated(s'.history, s'.procs[p]) {
      StepShape(s, step, p);
      hide Inv, Enabled, Apply, LastNominated, Nominated, Apart;
      assert LastNominated(s.history, s.procs[p]) && Nominated(s.history, s.procs[p]);
      if step.Act? && step.p == p {
        OwnLast(s, step);
      } else if step.Act? {
        NominatingStep(s, step, step.p);
        if s'.history != s.history {
          if !s.procs[p].pc.Idle? && !s.procs[step.p].pc.Idle? {
            OwnTickets(s, p, step.p);
          }
          LastAppend(s.history, s'.history[|s.history|], s.procs[p]);
        }
      }
    }
  }

  lemma {:induction false} RunLast(r: seq<State>, steps: seq<Step>, k: nat)
    requires Run(r, steps) && k < |r|
    ensures AllLast(r[k])
  {
    hide Inv, Apply, Enabled, Spaced, AllLast;
    if k > 0 {
      RunLast(r, steps, k - 1);
      RunInv(r, steps, k - 1);
      RunSpaced(r, steps, k - 1);
      LastStep(r[k - 1], steps[k - 1]);
    } else {
      NobodyLast(r[0]);
    }
  }

  lemma NobodyLast(s: State)
    requires Init(s)
    ensures AllLast(s)
  {}

  /** Ten seconds have passed, since the epoch and since every nomination of the ticket. */
  ghost predicate Due(h: seq<Message>, t: nat, clock: nat) {
    10 <= clock && forall i :: 0 <= i < |h| && Nominates(h[i], t) ==> h[i].timestamp + 10 <= clock
  }

  /** A waiter that finds a claim preceding its own nominates itself if and only if its last nomination is ten seconds
      old, or it has never made one and the clock stands at ten or more; otherwise it appends nothing. */
  lemma NominatesWhenDue(r: seq<State>, steps: seq<Step>, k: nat)
    requires Run(r, steps) && k < |steps| && steps[k].Act? && steps[k].p < |r[k].procs|
    requires r[k].procs[steps[k].p].pc.Deciding? && r[k].procs[steps[k].p].s.preceding != []
    ensures var s, a := r[k], r[k].procs[steps[k].p];
            r[k + 1].history == if Due(s.history, a.mine, s.clock) then s.history + [Message(Nominate, s.clock, 16 * a.mine)] else s.history
  {
    RunInv(r, steps, k);
    RunSpaced(r, steps, k);
    RunLast(r, steps, k);
    RunApplies(r, steps, k);
    hide Run;
    DueExactly(r[k], steps[k].p);
  }

  lemma RunApplies(r: seq<State>, steps: seq<Step>, k: nat)
    requires Run(r, steps) && k < |steps|
    ensures Possible(r[k], steps[k]) && r[k + 1] == Apply(r[k], steps[k])
  {}

  lemma DueExactly(s: State, p: nat)
    requires Inv(s) && Spaced(s) && AllLast(s) && p < |s.procs| && s.procs[p].pc.Deciding? && s.procs[p].s.preceding != []
    ensures var a := s.procs[p];
            Decide(s, p).history == if Due(s.history, a.mine, s.clock) then s.history + [Message(Nominate, s.clock, 16 * a.mine)] else s.history
  {
    DecidersFound(s, p);
    hide Inv, Apart;
    var a, h := s.procs[p], s.history;
    assert LastNominated(h, a) && Nominated(h, a);
  }
}
