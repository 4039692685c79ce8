/** Reading one window of the lock file keeps the invariant. */
module LockReading {
  import opened LockLog
  import opened LockScan
  import opened LockScanMeaning
  import opened LockProtocol
  import opened LockInvariant
  import opened LockSteps

  /** The collecting part of a window: messages hi-1 down to w, with s at its start. */
  ghost predicate Collects(h: seq<Message>, v: seq<Message>, a: Proc, s: Scan, hi: nat) {
    && a.w < a.size <= |h| <= |v| && a.w <= hi <= a.size && a.mine < a.size
    && Collecting(s, a.mine) && ValidOnly(s.preceding) == [] && s.start == a.s.start && s.start % RECORD == 0
    && Truthful(s, h[..a.size]) && Visible(h, a.mine, a.now, hi)
    && Reached(h, h[..a.size], a.mine, a.now, Lowest(a.w, s.start), hi)
    && (if a.first then a.w <= a.mine
        else Noted(s, h[..a.size], hi) && (a.quiet ==> NoneLiveBelow(h[..a.size], a.mine)))
  }

  /** What a reader sees now: holes only below the live tickets. */
  ghost predicate Sees(h: seq<Message>, v: seq<Message>, clock: nat) {
    Orderly(h) && Timed(h, clock) && PunchedBelowLive(v, h)
  }

  lemma PunchedPrefix(h: seq<Message>, v: seq<Message>, clock: nat, n: nat)
    requires Sees(h, v, clock) && n <= |h|
    ensures Punched(v, h[..n]) && Orderly(h[..n])
  {
    OrderlyPrefix(h, n);
  }

  /** From a message of a live ticket that is not stale, everything up to the end is readable. */
  lemma ReadableFrom(h: seq<Message>, v: seq<Message>, clock: nat, t: nat, e: nat, now: nat, lo: nat, hi: nat)
    requires Sees(h, v, clock) && Live(h, t) && Claims(h, e, t) && !Stale(h[e], now) && e <= lo && hi <= |h|
    ensures Readable(v, now, lo, hi)
  {
    ClaimIsAfterInterest(h, e, t);
    forall i | lo <= i < hi
      ensures !Stale(v[i], now)
    {
      assert v[i] == h[i];
    }
  }

  /** A window that reports nothing has no visible live claim, and was not cut while one lay below. */
  lemma NothingMissed(h: seq<Message>, v: seq<Message>, clock: nat, a: Proc, s: Scan, hi: nat, t: nat)
    requires Sees(h, v, clock) && Collects(h, v, a, s, hi)
    requires Range(s, v, a.w, hi, a.temp, a.now).valid == 0 && t < a.mine && Live(h, t)
    ensures exists e: nat :: e < a.w && Claims(h, e, t) && !Stale(h[e], a.now)
    ensures Going(Range(s, v, a.w, hi, a.temp, a.now))
  {
    hide Range;
    hide Orderly;
    hide PunchedBelowLive;
    hide Timed;
    var h0 := h[..a.size];
    var e: nat :| e < hi && Claims(h, e, t) && !Stale(h[e], a.now);
    PunchedPrefix(h, v, clock, a.size);
    ReadableFrom(h, v, clock, t, e, a.now, if a.w < e then e else a.w, hi);
    assert Claims(h0, e, t);
    if Released(h0, RECORD * t) {
      ReleasedByPrefix(h, a.size, RECORD * t);
    }
    RangeFinds(s, h0, v, a.mine, a.w, hi, a.temp, a.now, t, e);
  }

  /** And if a smaller ticket is live, there is still a message in reach below it. */
  lemma StillReached(h: seq<Message>, v: seq<Message>, clock: nat, a: Proc, s: Scan, hi: nat)
    requires Sees(h, v, clock) && Collects(h, v, a, s, hi)
    requires Range(s, v, a.w, hi, a.temp, a.now).valid == 0
    ensures Reached(h, h[..a.size], a.mine, a.now, Lowest(a.w, s.start), a.w)
  {
    hide Range, Live, Orderly, Lowest;
    var h0, lo := h[..a.size], Lowest(a.w, s.start);
    if !NoneLiveBelow(h, a.mine) {
      var u: nat :| u < a.mine && Live(h, u);
      NothingMissed(h, v, clock, a, s, hi, u);
      var d: nat :| d < a.w && Claims(h, d, u) && !Stale(h[d], a.now);
      ClaimIsAfterInterest(h, d, u);
      var t: nat, e: nat :| Reaches(h0, a.mine, a.now, lo, hi, t, e);
      if e < a.w {
        assert Reaches(h0, a.mine, a.now, lo, a.w, t, e);
      } else {
        forall i | e <= i < hi ensures !Stale(v[i], a.now) {
          assert u < i && v[i] == h[i] && h[e] == h0[e];
        }
        PunchedPrefix(h, v, clock, a.size);
        RangeFinds(s, h0, v, a.mine, a.w, hi, a.temp, a.now, t, e);
      }
    }
  }

  function After(a: Proc, r: Scan): Proc {
    if a.w >= WINDOW && LoopAgain(r, a.w - WINDOW, a.size) then a.(w := a.w - WINDOW, s := r) else Finish(a, r)
  }

  lemma LowestStep(w: nat, start: nat)
    ensures Lowest(w, start) == if w < WINDOW || RECORD * (w - WINDOW) < start then w else Lowest(w - WINDOW, start)
  {
  }

  lemma WindowContinues(h: seq<Message>, v: seq<Message>, clock: nat, a: Proc, s: Scan, hi: nat)
    requires Sees(h, v, clock) && Collects(h, v, a, s, hi)
    requires var r := Range(s, v, a.w, hi, a.temp, a.now); a.w >= WINDOW && LoopAgain(r, a.w - WINDOW, a.size)
    ensures var r := Range(s, v, a.w, hi, a.temp, a.now);
            MidScan(h, a.(w := a.w - WINDOW, s := r)) && r.start % RECORD == 0
  {
    hide Range;
    hide Lowest;
    hide Live;
    hide Claims;
    hide Timed;
    hide PunchedBelowLive;
    hide Orderly;
    hide ValidOnly;
    var r := Range(s, v, a.w, hi, a.temp, a.now);
    PunchedPrefix(h, v, clock, a.size);
    RangeNotes(s, h[..a.size], v, a.mine, a.w, hi, a.temp, a.now);
    RangeStart(s, v, a.w, hi, a.temp, a.now);
    RangeCounts(s, v, a.w, hi, a.temp, a.now);
    LowestStep(a.w, s.start);
    forall t: nat | t < a.mine && Live(h, t)
      ensures exists e: nat :: e < a.w && Claims(h, e, t) && !Stale(h[e], a.now)
    {
      NothingMissed(h, v, clock, a, s, hi, t);
    }
    StillReached(h, v, clock, a, s, hi);
  }

  lemma WindowEnds(h: seq<Message>, v: seq<Message>, clock: nat, a: Proc, s: Scan, hi: nat)
    requires Sees(h, v, clock) && Collects(h, v, a, s, hi)
    requires var r := Range(s, v, a.w, hi, a.temp, a.now); !(a.w >= WINDOW && LoopAgain(r, a.w - WINDOW, a.size))
    ensures var r := Range(s, v, a.w, hi, a.temp, a.now);
            var b := Finish(a, r);
            b.pc.Deciding? && Stage(h, b) && b.s.start % RECORD == 0
  {
    hide Range;
    hide Lowest;
    hide Live;
    hide Claims;
    hide Timed;
    hide PunchedBelowLive;
    hide Orderly;
    hide ValidOnly;
    var r := Range(s, v, a.w, hi, a.temp, a.now);
    var h0 := h[..a.size];
    PunchedPrefix(h, v, clock, a.size);
    RangeNotes(s, h0, v, a.mine, a.w, hi, a.temp, a.now);
    RangeStart(s, v, a.w, hi, a.temp, a.now);
    RangeCounts(s, v, a.w, hi, a.temp, a.now);
    if r.valid == 0 {
      if !NoneLiveBelow(h, a.mine) {
        var t: nat :| t < a.mine && Live(h, t);
        NothingMissed(h, v, clock, a, s, hi, t);
        StillReached(h, v, clock, a, s, hi);
        LowestStep(a.w, s.start);
        assert false;
      }
    } else if !a.first && a.quiet {
      RangeAlarm(s, h0, v, a.mine, a.w, hi, a.temp, a.now);
    }
  }

  /** Until my interest turns up, nothing at all matches it. */
  lemma NotMineAbove(h: seq<Message>, v: seq<Message>, clock: nat, p: nat, a: Proc, lo: nat, hi: nat)
    requires Sees(h, v, clock) && HasTicket(h, p, a) && Fresh(h, a) && a.mine < lo <= hi <= |h|
    ensures Readable(v, a.now, lo, hi) && forall i :: lo <= i < hi ==> v[i] != a.temp
  {
    forall i | lo <= i < hi
      ensures !Stale(v[i], a.now) && v[i] != a.temp
    {
      assert v[i] == h[i];
    }
  }

  /** The first scan finds the interest just where it was appended. */
  lemma FindsMine(h: seq<Message>, v: seq<Message>, clock: nat, p: nat, a: Proc)
    requires Sees(h, v, clock) && HasTicket(h, p, a) && MidScan(h, a) && a.s.my == NONE && a.w <= a.mine && a.s.start % RECORD == 0
    ensures var s := a.s.(lockid := Range(a.s, v, a.mine + 1, Top(a.w, a.size), a.temp, a.now).lockid, my := RECORD * a.mine);
            && Collects(h, v, a, s, a.mine)
            && Range(a.s, v, a.w, Top(a.w, a.size), a.temp, a.now) == Range(s, v, a.w, a.mine, a.temp, a.now)
  {
    hide Lowest;
    hide Claims;
    hide Live;
    hide ValidOnly;
    hide Examine;
    var top := Top(a.w, a.size);
    NotMineAbove(h, v, clock, p, a, a.mine + 1, top);
    RangeSkips(a.s, v, a.mine + 1, top, a.temp, a.now);
    RangeSplit(a.s, v, a.w, a.mine + 1, top, a.temp, a.now);
    var s1 := Range(a.s, v, a.mine + 1, top, a.temp, a.now);
    assert v[a.mine] == h[a.mine] == a.temp;
    ExamineMine(s1, a.temp, RECORD * a.mine, a.now);
  }

  lemma ExamineMine(s: Scan, temp: Message, off: nat, now: nat)
    requires s.my == NONE && temp.code.Interest? && !Stale(temp, now)
    ensures Examine(s, temp, off, temp, now) == s.(my := off)
  {
  }

  lemma WindowOk(h: seq<Message>, v: seq<Message>, clock: nat, p: nat, a: Proc)
    requires Sees(h, v, clock) && HasTicket(h, p, a) && MidScan(h, a) && a.s.start % RECORD == 0
    requires RECORD * a.mine < NONE && a.pc.Reading?
    ensures var b := After(a, ReadWindow(a.s, v, a.w, a.size, a.temp, a.now));
            Stage(h, b) && b.s.start % RECORD == 0 && (b.pc.Reading? || b.pc.Deciding?)
  {
    hide Range;
    hide Lowest;
    hide Live;
    hide Claims;
    hide Timed;
    hide Orderly;
    hide ValidOnly;
    var top := Top(a.w, a.size);
    assert a.s.(cut := false) == a.s;
    var r := Range(a.s, v, a.w, top, a.temp, a.now);
    if a.s.my == NONE && a.w > a.mine {
      NotMineAbove(h, v, clock, p, a, a.w, top);
      RangeSkips(a.s, v, a.w, top, a.temp, a.now);
      LowestStep(a.w, a.s.start);
    } else {
      var s, hi := a.s, top;
      if a.s.my == NONE {
        FindsMine(h, v, clock, p, a);
        s, hi := a.s.(lockid := Range(a.s, v, a.mine + 1, top, a.temp, a.now).lockid, my := RECORD * a.mine), a.mine;
      }
      if a.w >= WINDOW && LoopAgain(r, a.w - WINDOW, a.size) {
        WindowContinues(h, v, clock, a, s, hi);
      } else {
        WindowEnds(h, v, clock, a, s, hi);
      }
    }
  }

  lemma ReadStep(s: State, p: nat)
    requires Inv(s) && p < |s.procs| && s.procs[p].pc.Reading?
    requires s.procs[p].w < s.procs[p].size <= |s.log|
    ensures Inv(Read(s, p))
  {
    hide ReadWindow;
    hide MidScan;
    hide Fresh;
    hide Visible;
    hide Orderly;
    hide Timed;
    hide InOrder;
    hide Owned;
    hide Live;
    hide Claims;
    var a := s.procs[p];
    assert ProcOk(s.history, s.clock, p, a);
    WindowOk(s.history, s.log, s.clock, p, a);
    var b := Read(s, p).procs[p];
    assert b == After(a, ReadWindow(a.s, s.log, a.w, a.size, a.temp, a.now));
    assert ProcOk(s.history, s.clock, p, b);
    LocalStep(s, p, b);
  }
}
