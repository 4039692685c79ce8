/** The inductive invariant of the atomic-append lock. */
module LockInvariant {
  import opened LockLog
  import opened LockScan
  import opened LockScanMeaning
  import opened LockProtocol

  // The lock file.

  ghost predicate Timed(h: seq<Message>, clock: nat) {
    && clock > 0
    && (forall i :: 0 <= i < |h| ==> 0 < h[i].timestamp <= clock)
    && (forall i, j :: 0 <= i < j < |h| ==> h[i].timestamp <= h[j].timestamp)
  }

  /** Punched messages lie below every live ticket. */
  ghost predicate PunchedBelowLive(log: seq<Message>, h: seq<Message>) {
    && |log| == |h| && RECORD * |h| <= OFF_T / 2
    && (forall i :: 0 <= i < |h| ==> log[i] == h[i] || log[i] == ZERO)
    && (forall i: nat, t: nat :: i < |h| && log[i] == ZERO && Live(h, t) ==> i < t)
  }

  /** Lock claims come in ticket order, each when no smaller ticket was live. */
  ghost predicate InOrder(h: seq<Message>) {
    && (forall i :: 0 <= i < |h| && h[i].code.HaveLock? ==> NoneLiveBelow(h, h[i].uniqueid / RECORD))
    && (forall i, j :: 0 <= i < j < |h| && h[i].code.HaveLock? && h[j].code.HaveLock? ==> h[i].uniqueid < h[j].uniqueid)
  }

  /** Every live ticket belongs to the writer named in its interest. */
  ghost predicate Owned(h: seq<Message>, procs: seq<Proc>) {
    forall t: nat :: Live(h, t) ==>
      h[t].uniqueid < |procs| && !procs[h[t].uniqueid].pc.Idle? && procs[h[t].uniqueid].mine == t
  }

  // One writer.

  /** Every live ticket below m has a message below lim that is not stale at now. */
  ghost predicate Visible(h: seq<Message>, m: nat, now: nat, lim: nat) {
    forall t: nat :: t < m && Live(h, t) ==> exists e: nat :: e < lim && Claims(h, e, t) && !Stale(h[e], now)
  }

  /** If any ticket below m is live, one that had not been released in h0 has a message from lo up to lim that is
      not stale at now. */
  ghost predicate Reached(h: seq<Message>, h0: seq<Message>, m: nat, now: nat, lo: nat, lim: nat) {
    NoneLiveBelow(h, m) || exists t: nat, e: nat :: Reaches(h0, m, now, lo, lim, t, e)
  }

  ghost predicate Reaches(h0: seq<Message>, m: nat, now: nat, lo: nat, lim: nat, t: nat, e: nat) {
    t < m && !Released(h0, RECORD * t) && lo <= e < lim && Claims(h0, e, t) && !Stale(h0[e], now)
  }

  ghost predicate Fresh(h: seq<Message>, a: Proc) {
    && a.first && a.s.my == NONE && a.s.preceding == [] && a.s.find
    && a.mine < |h| && a.temp == h[a.mine] && a.now == h[a.mine].timestamp
    && Visible(h, a.mine, a.now, a.mine)
  }

  ghost predicate Found(a: Proc) { a.s.my == RECORD * a.mine }

  ghost predicate MidScan(h: seq<Message>, a: Proc) {
    && a.w < a.size <= |h| && a.mine < a.size && LoopAgain(a.s, a.w, a.size) && Going(a.s)
    && a.s.find && ValidOnly(a.s.preceding) == []
    && var h0 := h[..a.size];
       var top := Top(a.w, a.size);
       var lo := Lowest(a.w, a.s.start);
       if a.s.my == NONE then Fresh(h, a) && lo <= a.mine < top && Reached(h, h0, a.mine, a.now, lo, a.mine)
       else
         && Found(a) && Truthful(a.s, h0) && Visible(h, a.mine, a.now, top) && Reached(h, h0, a.mine, a.now, lo, top)
         && (if a.first then top <= a.mine else Noted(a.s, h0, top) && (a.quiet ==> NoneLiveBelow(h0, a.mine)))
  }

  ghost predicate Stage(h: seq<Message>, a: Proc) {
    match a.pc
    case Idle => true
    case Registered => Fresh(h, a)
    case Stating => if a.first then Fresh(h, a) else Found(a) && a.s.find && a.s.preceding == []
    case Reading => MidScan(h, a)
    case Deciding => Found(a) && a.s.start % RECORD == 0
                     && (a.s.preceding == [] ==> NoneLiveBelow(h, a.mine))
                     && (!a.first && a.quiet ==> a.s.preceding == [])
    case _ => Found(a) && a.s.start % RECORD == 0
  }

  ghost predicate HasTicket(h: seq<Message>, p: nat, a: Proc) {
    && a.mine <= a.renewed < |h| && h[a.mine].code.Interest? && h[a.mine].uniqueid == p
    && Live(h, a.mine) && Claims(h, a.renewed, a.mine)
    && (forall i :: a.mine < i < |h| && h[i].code.Interest? ==> h[i].uniqueid != p)
    && (if Claimed(a) then h[a.renewed].code.HaveLock?
        else forall i :: 0 <= i < |h| && h[i].code.HaveLock? ==> h[i].uniqueid != RECORD * a.mine)
  }

  ghost predicate ProcOk(h: seq<Message>, clock: nat, p: nat, a: Proc) {
    !a.pc.Idle? ==> HasTicket(h, p, a) && a.now <= clock && a.s.start % RECORD == 0 && Stage(h, a)
  }

  ghost predicate FileOk(s: State) {
    && Timed(s.history, s.clock) && Orderly(s.history) && InOrder(s.history)
    && PunchedBelowLive(s.log, s.history) && Owned(s.history, s.procs)
  }

  ghost predicate Inv(s: State) {
    FileOk(s) && forall p :: 0 <= p < |s.procs| ==> ProcOk(s.history, s.clock, p, s.procs[p])
  }

  // Facts about staleness and liveness.

  lemma StaleLater(m: Message, now: nat, later: nat)
    requires now <= later && Stale(m, now)
    ensures Stale(m, later)
  {
  }

  /** Appending one message: what becomes of the live tickets. */
  lemma LiveAfterAppend(h: seq<Message>, m: Message, t: nat)
    requires Orderly(h)
    ensures Live(h + [m], t) <==> if t == |h| then m.code.Interest?
                                  else t < |h| && Live(h, t) && !(IsRelease(m) && m.uniqueid == RECORD * t)
  {
    var h' := h + [m];
    if t <= |h| && Released(h', RECORD * t) && !(IsRelease(m) && m.uniqueid == RECORD * t) {
      var j :| 0 <= j < |h'| && IsRelease(h'[j]) && h'[j].uniqueid == RECORD * t;
      assert j < |h| && IsRelease(h[j]);
    }
    if Released(h, RECORD * t) {
      var j :| 0 <= j < |h| && IsRelease(h[j]) && h[j].uniqueid == RECORD * t;
      assert IsRelease(h'[j]) && h'[j].uniqueid == RECORD * t;
    }
    if IsRelease(m) && m.uniqueid == RECORD * t {
      assert IsRelease(h'[|h|]);
    }
  }

  /** A message that may be appended at time clock. */
  ghost predicate Appendable(h: seq<Message>, clock: nat, m: Message) {
    && m.timestamp == clock
    && (!m.code.Interest? ==> m.uniqueid % RECORD == 0 && Live(h, m.uniqueid / RECORD))
    && (m.code.HaveLock? ==> NoneLiveBelow(h, m.uniqueid / RECORD))
    && (m.code.HaveLock? ==> forall i :: 0 <= i < |h| && h[i].code.HaveLock? ==> h[i].uniqueid != m.uniqueid)
  }

  lemma NoneLiveBelowAppend(h: seq<Message>, m: Message, t: nat)
    requires Orderly(h) && t <= |h| && NoneLiveBelow(h, t)
    ensures NoneLiveBelow(h + [m], t)
  {
    forall u: nat | u < t
      ensures !Live(h + [m], u)
    {
      LiveAfterAppend(h, m, u);
    }
  }

  lemma OrderlyAppend(h: seq<Message>, clock: nat, m: Message)
    requires Timed(h, clock) && Orderly(h) && Appendable(h, clock, m)
    ensures Timed(h + [m], clock) && Orderly(h + [m])
  {
    var h' := h + [m];
    forall i: nat, j: nat, t: nat | 0 <= j < |h'| && Claims(h', i, t) && IsRelease(h'[j]) && h'[j].uniqueid == RECORD * t
      ensures i < j
    {
      if i < |h| && j < |h| {
        assert Claims(h, i, t);
      }
    }
  }

  lemma InOrderAppend(h: seq<Message>, clock: nat, m: Message)
    requires Orderly(h) && InOrder(h) && Appendable(h, clock, m)
    ensures InOrder(h + [m])
  {
    var h' := h + [m];
    forall i | 0 <= i < |h'| && h'[i].code.HaveLock?
      ensures NoneLiveBelow(h', h'[i].uniqueid / RECORD)
    {
      if i < |h| {
        assert h'[i] == h[i];
      }
      NoneLiveBelowAppend(h, m, h'[i].uniqueid / RECORD);
    }
    forall i, j | 0 <= i < j < |h'| && h'[i].code.HaveLock? && h'[j].code.HaveLock?
      ensures h'[i].uniqueid < h'[j].uniqueid
    {
      if j == |h| {
        assert h[i].code.HaveLock? && NoneLiveBelow(h, h[i].uniqueid / RECORD);
      }
    }
  }

  lemma PunchedAppend(log: seq<Message>, h: seq<Message>, clock: nat, m: Message)
    requires Orderly(h) && PunchedBelowLive(log, h) && Appendable(h, clock, m) && clock > 0 && RECORD * (|h| + 1) <= OFF_T / 2
    ensures PunchedBelowLive(log + [m], h + [m])
  {
    forall i: nat, t: nat | i < |h| + 1 && (log + [m])[i] == ZERO && Live(h + [m], t)
      ensures i < t
    {
      LiveAfterAppend(h, m, t);
    }
  }

  /** Another writer's append leaves this writer's part of the invariant alone. */
  lemma FrameAppend(h: seq<Message>, clock: nat, m: Message, p: nat, a: Proc)
    requires Orderly(h) && ProcOk(h, clock, p, a) && !a.pc.Idle?
    requires IsRelease(m) || m.code.HaveLock? ==> m.uniqueid != RECORD * a.mine
    requires m.code.Interest? ==> m.uniqueid != p
    ensures ProcOk(h + [m], clock, p, a)
  {
    var h' := h + [m];
    LiveAfterAppend(h, m, a.mine);
    assert Claims(h', a.renewed, a.mine);
    FrameVisible(h, m, a.mine, a.now, a.mine);
    if a.pc.Reading? {
      assert h'[..a.size] == h[..a.size];
      FrameVisible(h, m, a.mine, a.now, Top(a.w, a.size));
    }
    if NoneLiveBelow(h, a.mine) {
      NoneLiveBelowAppend(h, m, a.mine);
    }
  }

  lemma FrameVisible(h: seq<Message>, m: Message, t0: nat, now: nat, lim: nat)
    requires Orderly(h) && t0 <= |h|
    ensures Visible(h, t0, now, lim) ==> Visible(h + [m], t0, now, lim)
  {
    if Visible(h, t0, now, lim) {
      forall t: nat | t < t0 && Live(h + [m], t)
        ensures exists e: nat :: e < lim && Claims(h + [m], e, t) && !Stale((h + [m])[e], now)
      {
        LiveAfterAppend(h, m, t);
        var e: nat :| e < lim && Claims(h, e, t) && !Stale(h[e], now);
        assert Claims(h + [m], e, t);
      }
    }
  }

  /** A message in reach of a ticket that has one not stale: one of them is both. */
  lemma ReachedFrom(h: seq<Message>, clock: nat, m: nat, now: nat, lo: nat, lim: nat)
    requires Timed(h, clock) && Visible(h, m, now, lim)
    requires NoneLiveBelow(h, m) || InReach(h, m, lo, lim)
    ensures Reached(h, h, m, now, lo, lim)
  {
    if !NoneLiveBelow(h, m) {
      var t: nat, d: nat :| t < m && Live(h, t) && lo <= d < lim && Claims(h, d, t);
      var e: nat :| e < lim && Claims(h, e, t) && !Stale(h[e], now);
      if e < d {
        assert !Stale(h[d], now);
        assert Reaches(h, m, now, lo, lim, t, d);
      } else {
        assert Reaches(h, m, now, lo, lim, t, e);
      }
    }
  }
}
