/** The log that the lock protects: no entry is ever lost or overwritten. */
module LockData {
  import opened LockLog
  import opened LockScan
  import opened LockProtocol
  import opened LockInvariant
  import opened LockTheorems

  /** The entries of the writers served, one after another. */
  function Entries(served: seq<nat>): string {
    if served == [] then "" else Entries(served[..|served| - 1]) + Entry(served[|served| - 1])
  }

  /** What the log holds while writer p is at each point of its visit. */
  ghost predicate VisitOk(s: State, p: nat, a: Proc) {
    match a.pc
    case Extending => a.where == |Entries(s.served)|
    case Writing => a.where == |Entries(s.served)| && s.data == Entries(s.served) + Blank(|Entry(p)|)
    case Leaving => s.data == Entries(s.served) + Entry(p)
    case _ => true
  }

  predicate Altering(a: Proc) { a.pc.Writing? || a.pc.Leaving? }

  ghost predicate DataOk(s: State) {
    && (forall p :: 0 <= p < |s.procs| ==> VisitOk(s, p, s.procs[p]))
    && ((forall p :: 0 <= p < |s.procs| ==> !Altering(s.procs[p])) ==> s.data == Entries(s.served))
  }

  lemma EntriesAppend(served: seq<nat>, p: nat)
    ensures Entries(served + [p]) == Entries(served) + Entry(p)
  {
    assert (served + [p])[..|served|] == served;
  }

  lemma ExtendThenWrite(data: string, entry: string)
    ensures Resize(data, |data| + |entry|) == data + Blank(|entry|)
    ensures Overwrite(data + Blank(|entry|), |data|, entry) == data + entry
  {
  }

  predicate ActsInside(s: State, step: Step) {
    step.Act? && step.p < |s.procs| && Claimed(s.procs[step.p])
  }

  /** The writer inside, at one of the steps of its visit. */
  lemma VisitStep(s: State, step: Step)
    requires Inv(s) && DataOk(s) && Enabled(s, step) && ActsInside(s, step)
    ensures DataOk(Apply(s, step))
  {
    hide Inv;
    hide Entry;
    hide Resize;
    hide Overwrite;
    hide Entries;
    hide Covered;
    var p := step.p;
    forall q | 0 <= q < |s.procs| && Claimed(s.procs[q])
      ensures q == p
    {
      AtMostOneClaimed(s, p, q);
    }
    ExtendThenWrite(Entries(s.served), Entry(p));
    EntriesAppend(s.served, p);
    var s' := Apply(s, step);
    assert forall q :: 0 <= q < |s.procs| && q != p ==> s'.procs[q] == s.procs[q] && !Claimed(s.procs[q]);
    assert VisitOk(s, p, s.procs[p]);
    assert VisitOk(s', p, s'.procs[p]);
    assert Altering(s.procs[p]) || s.data == Entries(s.served);
  }

  /** Not between the query of the log's size and the unlock. */
  predicate Before(a: Proc) { !a.pc.Extending? && !Altering(a) }

  /** Every other step leaves the log, the writers served and the writers inside alone. */
  lemma OutsideStep(s: State, step: Step)
    requires DataOk(s) && Enabled(s, step) && !ActsInside(s, step)
    ensures DataOk(Apply(s, step))
  {
    hide Entries;
    var s' := Apply(s, step);
    OutsideShape(s, step);
    hide Apply;
    forall q | 0 <= q < |s.procs|
      ensures VisitOk(s', q, s'.procs[q]) && Altering(s'.procs[q]) == Altering(s.procs[q])
    {
      assert VisitOk(s, q, s.procs[q]);
    }
  }

  lemma OutsideShape(s: State, step: Step)
    requires Enabled(s, step) && !ActsInside(s, step)
    ensures var s' := Apply(s, step);
            && s'.data == s.data && s'.served == s.served && |s'.procs| == |s.procs|
            && forall q :: 0 <= q < |s.procs| ==> s'.procs[q] == s.procs[q] || (!Claimed(s.procs[q]) && Before(s'.procs[q]))
  {
    hide ReadWindow, Finish, Punch, Covered, NoneLiveBelow, LoopAgain;
    FinishIsBefore();
  }

  lemma FinishIsBefore()
    ensures forall a: Proc, scan: Scan :: Before(Finish(a, scan))
  {
    hide ValidOnly;
  }

  /** In every run, whenever nobody is altering the log it is exactly the entries of the writers served,
      whole and in the order they released the lock. */
  lemma {:induction false} NoEntryLost(r: seq<State>, steps: seq<Step>, k: nat)
    requires Run(r, steps) && k < |r|
    ensures DataOk(r[k])
    ensures (forall p :: 0 <= p < |r[k].procs| ==> !Altering(r[k].procs[p])) ==> r[k].data == Entries(r[k].served)
  {
    hide Inv;
    hide Apply;
    hide Enabled;
    hide Entries;
    if k > 0 {
      var s, step := r[k - 1], steps[k - 1];
      RunInv(r, steps, k - 1);
      NoEntryLost(r, steps, k - 1);
      if ActsInside(s, step) {
        VisitStep(s, step);
      } else {
        OutsideStep(s, step);
      }
    } else {
      NothingServed(r[0]);
    }
  }

  lemma NothingServed(s: State)
    requires Init(s)
    ensures DataOk(s)
  {
  }

  /** Where the file is being altered, the writer altering it is the only one inside. */
  lemma WriteStaysInFile(r: seq<State>, steps: seq<Step>, k: nat, p: nat)
    requires Run(r, steps) && k < |r| && p < |r[k].procs| && r[k].procs[p].pc.Writing?
    ensures r[k].procs[p].where + |Entry(p)| == |r[k].data|
  {
    hide Run;
    NoEntryLost(r, steps, k);
    assert VisitOk(r[k], p, r[k].procs[p]);
  }

  // Who has been served, by the lock file.

  /** The writers whose tickets the first n messages unlock, one after another. */
  function UnlockedBy(h: seq<Message>, n: nat): seq<nat>
    requires n <= |h|
  {
    if n == 0 then []
    else
      var m := h[n - 1];
      UnlockedBy(h, n - 1) + if m.code.Unlock? && m.uniqueid / RECORD < n - 1 then [h[m.uniqueid / RECORD].uniqueid] else []
  }

  lemma {:induction false} UnlockedByPrefix(h: seq<Message>, m: Message, n: nat)
    requires n <= |h|
    ensures UnlockedBy(h + [m], n) == UnlockedBy(h, n)
  {
    if n > 0 {
      UnlockedByPrefix(h, m, n - 1);
    }
  }

  /** Writers come off the lock in the order of the unlock messages, and nobody rescinds. */
  ghost predicate ServedOk(s: State) {
    && s.served == UnlockedBy(s.history, |s.history|)
    && forall i :: 0 <= i < |s.history| ==> !s.history[i].code.Rescind?
  }

  lemma AppendedShape(s: State, step: Step)
    requires Enabled(s, step)
    ensures var s' := Apply(s, step);
            if step.Act? && s.procs[step.p].pc.Leaving? then s' == Leave(s, step.p)
            else s'.served == s.served
                 && (s'.history == s.history || exists m :: s'.history == s.history + [m] && !IsRelease(m))
  {
    hide ReadWindow, Covered, Finish, NoneLiveBelow, LoopAgain, Punch, Resize, Overwrite, Entry;
  }

  lemma ServedStep(s: State, step: Step)
    requires Inv(s) && Enabled(s, step) && ServedOk(s)
    ensures ServedOk(Apply(s, step))
  {
    assert step.Act? ==> step.p < |s.procs|;
    AppendedShape(s, step);
    hide Inv, Apply, Enabled, Leave, ServedOk;
    if step.Act? && s.procs[step.p].pc.Leaving? {
      LeaveServes(s, step.p);
    } else {
      NobodyLeaves(s, Apply(s, step));
    }
  }

  lemma NobodyLeaves(s: State, s': State)
    requires ServedOk(s) && s'.served == s.served
    requires s'.history == s.history || exists m :: s'.history == s.history + [m] && !IsRelease(m)
    ensures ServedOk(s')
  {
    if s'.history != s.history {
      var m :| s'.history == s.history + [m] && !IsRelease(m);
      UnlockedByPrefix(s.history, m, |s.history|);
    }
  }

  lemma LeaveServes(s: State, p: nat)
    requires Inv(s) && ServedOk(s) && p < |s.procs| && s.procs[p].pc.Leaving?
    ensures ServedOk(Leave(s, p))
  {
    hide FileOk, MidScan, Fresh;
    var a, h := s.procs[p], s.history;
    assert ProcOk(h, s.clock, p, a);
    var m := Leave(s, p).history[|h|];
    UnlockedByPrefix(h, m, |h|);
  }

  /** In every run the writers served are those whose unlocks stand in the lock file, in that order, and no message
      rescinds. */
  lemma {:induction false} ServedAsUnlocked(r: seq<State>, steps: seq<Step>, k: nat)
    requires Run(r, steps) && k < |r|
    ensures ServedOk(r[k])
  {
    hide Inv, Apply, Enabled, ServedOk;
    if k > 0 {
      ServedAsUnlocked(r, steps, k - 1);
      RunInv(r, steps, k - 1);
      ServedStep(r[k - 1], steps[k - 1]);
    } else {
      NobodyServed(r[0]);
    }
  }

  lemma NobodyServed(s: State)
    requires Init(s)
    ensures ServedOk(s)
  {}

  /** What an entry looks like. */
  lemma EntryText()
    ensures Entry(7) == "I am log writer 7!\n"
    ensures Entry(1203) == "I am log writer 1203!\n"
  {
    assert Digits(1) == "1" && Digits(12) == "12" && Digits(120) == "120" && Digits(1203) == "1203";
  }
}
