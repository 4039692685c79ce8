/** Every step of the atomic-append lock keeps the invariant. */
module LockSteps {
  import opened LockLog
  import opened LockScan
  import opened LockScanMeaning
  import opened LockProtocol
  import opened LockInvariant

  /** Appending m on behalf of writer p's own ticket, p becoming b. */
  ghost predicate OwnAppend(s: State, p: nat, m: Message, b: Proc) {
    && p < |s.procs| && Fits(s) && Appendable(s.history, s.clock, m)
    && (if m.code.Interest? then s.procs[p].pc.Idle? && m.uniqueid == p
        else !s.procs[p].pc.Idle? && m.uniqueid == RECORD * s.procs[p].mine)
    && (if IsRelease(m) then b.pc.Idle?
        else !b.pc.Idle? && b.mine == if m.code.Interest? then |s.history| else s.procs[p].mine)
  }

  lemma OwnedAppend(s: State, p: nat, m: Message, b: Proc)
    requires Inv(s) && OwnAppend(s, p, m, b)
    ensures Owned(s.history + [m], s.procs[p := b])
  {
    hide Stage;
    hide Live;
    hide Claims;
    hide Orderly;
    var h := s.history;
    forall t: nat | Live(h + [m], t)
      ensures t < |h| + 1
      ensures var q := (h + [m])[t].uniqueid; q < |s.procs| && !s.procs[p := b][q].pc.Idle? && s.procs[p := b][q].mine == t
    {
      LiveAfterAppend(h, m, t);
      LiveIsTicket(h + [m], t);
    }
  }

  lemma LiveIsTicket(h: seq<Message>, t: nat)
    requires Live(h, t)
    ensures t < |h| && h[t].code.Interest?
  {
  }

  lemma OthersAppend(s: State, p: nat, m: Message, b: Proc, q: nat)
    requires Inv(s) && OwnAppend(s, p, m, b) && q != p && q < |s.procs|
    ensures ProcOk(s.history + [m], s.clock, q, s.procs[q])
  {
    hide Stage;
    hide Live;
    hide Claims;
    hide Orderly;
    if !s.procs[q].pc.Idle? {
      assert ProcOk(s.history, s.clock, q, s.procs[q]);
      assert ProcOk(s.history, s.clock, p, s.procs[p]);
      FrameAppend(s.history, s.clock, m, q, s.procs[q]);
    }
  }

  lemma AppendStep(s: State, p: nat, m: Message, b: Proc)
    requires Inv(s) && OwnAppend(s, p, m, b)
    requires ProcOk(s.history + [m], s.clock, p, b)
    ensures Inv(Set(Append(s, m), p, b))
  {
    hide ProcOk;
    hide Owned;
    hide Orderly;
    hide Timed;
    hide InOrder;
    hide OwnAppend;
    OwnAppendParts(s, p, m, b);
    var s' := Set(Append(s, m), p, b);
    OrderlyAppend(s.history, s.clock, m);
    InOrderAppend(s.history, s.clock, m);
    PunchedAppend(s.log, s.history, s.clock, m);
    OwnedAppend(s, p, m, b);
    forall q | 0 <= q < |s'.procs|
      ensures ProcOk(s'.history, s'.clock, q, s'.procs[q])
    {
      if q != p {
        OthersAppend(s, p, m, b, q);
      }
    }
  }

  lemma OwnAppendParts(s: State, p: nat, m: Message, b: Proc)
    requires Inv(s) && OwnAppend(s, p, m, b)
    ensures Appendable(s.history, s.clock, m) && p < |s.procs| && Fits(s) && s.clock > 0
  {
  }

  /** A step of writer p that leaves the lock file and its ticket alone. */
  lemma LocalStep(s: State, p: nat, b: Proc)
    requires Inv(s) && p < |s.procs| && !s.procs[p].pc.Idle? && !b.pc.Idle? && b.mine == s.procs[p].mine
    requires ProcOk(s.history, s.clock, p, b)
    ensures Inv(Set(s, p, b))
  {
  }

  /** The live tickets below m all have a message that is not stale now. */
  lemma AllVisible(s: State, m: nat, now: nat)
    requires Inv(s) && Punctual(s) && now <= s.clock
    ensures Visible(s.history, m, now, |s.history|)
  {
    hide Stage;
    forall t: nat | t < m && Live(s.history, t)
      ensures exists e: nat :: e < |s.history| && Claims(s.history, e, t) && !Stale(s.history[e], now)
    {
      var q := s.history[t].uniqueid;
      assert ProcOk(s.history, s.clock, q, s.procs[q]);
      var e := s.procs[q].renewed;
      assert Claims(s.history, e, t) && !Stale(s.history[e], s.clock);
    }
  }

  lemma RegisterStep(s: State, p: nat)
    requires Inv(s) && Punctual(s) && Fits(s) && p < |s.procs| && s.procs[p].pc.Idle?
    ensures Inv(Register(s, p))
  {
    hide Owned;
    hide InOrder;
    hide Live;
    var h := s.history;
    var m := Message(Interest, s.clock, p);
    var b := Register(s, p).procs[p];
    AllVisible(s, |h|, s.clock);
    FrameVisible(h, m, |h|, s.clock, |h|);
    LiveAfterAppend(h, m, |h|);
    assert ProcOk(h + [m], s.clock, p, b);
    AppendStep(s, p, m, b);
  }

  lemma QueryExtentStep(s: State, p: nat, extent: nat)
    requires Inv(s) && p < |s.procs| && s.procs[p].pc.Registered?
    ensures Inv(QueryExtent(s, p, extent))
  {
    hide Visible;
    hide FileOk;
    hide Live;
    hide Claims;
    var b := QueryExtent(s, p, extent).procs[p];
    assert ProcOk(s.history, s.clock, p, s.procs[p]);
    assert ProcOk(s.history, s.clock, p, b);
    LocalStep(s, p, b);
  }

  lemma QuerySizeStep(s: State, p: nat)
    requires Inv(s) && Punctual(s) && p < |s.procs| && s.procs[p].pc.Stating? && Covered(s, p)
    ensures Inv(QuerySize(s, p))
  {
    hide Lowest;
    hide Live;
    hide Claims;
    hide Orderly;
    hide Owned;
    hide InOrder;
    hide Visible;
    hide Reached;
    hide InReach;
    hide NoneLiveBelow;
    var a := s.procs[p];
    var b := QuerySize(s, p).procs[p];
    assert ProcOk(s.history, s.clock, p, a);
    AllVisible(s, a.mine, a.now);
    ReachedFrom(s.history, s.clock, a.mine, a.now, Lowest(b.w, a.s.start), if a.first then a.mine else |s.history|);
    assert s.history[..|s.history|] == s.history;
    assert b.pc.Reading? && Top(b.w, b.size) == b.size == |s.history|;
    assert MidScan(s.history, b);
    LocalStep(s, p, b);
  }

  lemma ZeroStep(s: State, p: nat)
    requires Inv(s) && p < |s.procs| && s.procs[p].pc.Zeroing?
    ensures Inv(Zero(s, p))
  {
    hide Orderly, Owned, Timed, Visible, MidScan;
    var a := s.procs[p];
    assert ProcOk(s.history, s.clock, p, a);
    assert NoneLiveBelow(s.history, a.mine) by {
      assert s.history[a.renewed].code.HaveLock?;
    }
    var log := Punch(s.log, a.s.start / RECORD, a.s.my / RECORD);
    forall i: nat, t: nat | i < |log| && log[i] == ZERO && Live(s.history, t)
      ensures i < t
    {
      assert s.log[i] == ZERO || i < a.mine;
    }
    var s1 := s.(log := log);
    assert FileOk(s1);
    LocalStep(s1, p, a.(pc := Entering));
  }

  lemma InsideStep(s: State, p: nat, s': State, b: Proc)
    requires Inv(s) && p < |s.procs| && Claimed(s.procs[p]) && Claimed(b)
    requires b == s.procs[p].(pc := b.pc, where := b.where)
    requires s' == s.(data := s'.data, procs := s.procs[p := b])
    ensures Inv(s')
  {
    assert ProcOk(s.history, s.clock, p, s.procs[p]);
    assert ProcOk(s.history, s.clock, p, b);
    LocalStep(s, p, b);
  }

  lemma LeaveStep(s: State, p: nat)
    requires Inv(s) && Fits(s) && p < |s.procs| && s.procs[p].pc.Leaving?
    ensures Inv(Leave(s, p))
  {
    var a := s.procs[p];
    assert ProcOk(s.history, s.clock, p, a);
    var m := Message(Unlock, s.clock, a.s.my);
    AppendStep(s, p, m, a.(temp := m, pc := Idle));
  }

  lemma TickStep(s: State)
    requires Inv(s)
    ensures Inv(s.(clock := s.clock + 1))
  {
    var s' := s.(clock := s.clock + 1);
    forall p | 0 <= p < |s.procs|
      ensures ProcOk(s'.history, s'.clock, p, s'.procs[p])
    {
      assert ProcOk(s.history, s.clock, p, s.procs[p]);
    }
  }

  lemma ClaimStep(s: State, p: nat)
    requires Inv(s) && Fits(s) && p < |s.procs| && s.procs[p].pc.Deciding? && s.procs[p].s.preceding == []
    ensures Inv(Decide(s, p))
  {
    hide Orderly;
    hide Owned;
    hide InOrder;
    var a := s.procs[p];
    var h := s.history;
    assert ProcOk(h, s.clock, p, a);
    var m := Message(HaveLock, s.clock, a.s.my);
    var b := Decide(s, p).procs[p];
    LiveAfterAppend(h, m, a.mine);
    assert ProcOk(h + [m], s.clock, p, b);
    AppendStep(s, p, m, b);
  }

  lemma WaitStep(s: State, p: nat)
    requires Inv(s) && Fits(s) && p < |s.procs| && s.procs[p].pc.Deciding? && s.procs[p].s.preceding != []
    ensures Inv(Decide(s, p))
  {
    hide Orderly;
    hide Owned;
    hide InOrder;
    var a := s.procs[p];
    var h := s.history;
    assert ProcOk(h, s.clock, p, a);
    var b := Decide(s, p).procs[p];
    if s.clock >= a.now + RENOMINATE_AFTER {
      var m := Message(Nominate, s.clock, a.s.my);
      LiveAfterAppend(h, m, a.mine);
      assert ProcOk(h + [m], s.clock, p, b);
      AppendStep(s, p, m, b);
    } else {
      assert ProcOk(h, s.clock, p, b);
      LocalStep(s, p, b);
    }
  }
}
