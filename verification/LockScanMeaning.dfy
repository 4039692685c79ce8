/** What the backward scan decides: whether some live ticket precedes mine. */
module LockScanMeaning {
  import opened LockLog
  import opened LockScan

  /** My own interest is found and preceding claims are being collected. */
  predicate Collecting(s: Scan, m: nat) {
    s.my == RECORD * m && RECORD * m < NONE && s.find && Going(s)
  }

  /** Every ticket the scan has written off was released. */
  ghost predicate Truthful(s: Scan, h: seq<Message>) {
    forall u: nat :: (false, u) in s.preceding ==> Released(h, u)
  }

  /** Every release of a smaller ticket at lo or above has been written down. */
  ghost predicate Noted(s: Scan, h: seq<Message>, lo: nat) {
    forall j :: lo <= j < |h| && IsRelease(h[j]) && h[j].uniqueid < s.my ==> (false, h[j].uniqueid) in s.preceding
  }

  ghost predicate Readable(v: seq<Message>, now: nat, lo: nat, hi: nat)
    requires hi <= |v|
  {
    forall i :: lo <= i < hi ==> !Stale(v[i], now)
  }

  /** A live ticket below m has a claim at e that a scan of [lo, hi) meets before anything stale. */
  ghost predicate Meets(h: seq<Message>, v: seq<Message>, now: nat, m: nat, lo: nat, hi: nat, t: nat, e: nat)
    requires hi <= |v|
  {
    t < m && lo <= e < hi && Live(h, t) && Claims(h, e, t) && Readable(v, now, e, hi)
  }

  lemma ExamineStale(s: Scan, m: Message, off: nat, temp: Message, now: nat)
    requires Stale(m, now)
    ensures Examine(s, m, off, temp, now) == s.(start := off, cut := true)
  {
  }

  /** One readable message below my interest, while collecting. */
  lemma ExamineCollecting(s: Scan, h: seq<Message>, i: nat, m: nat, temp: Message, now: nat)
    requires Collecting(s, m) && Truthful(s, h) && i < |h| && !Stale(h[i], now) && Orderly(h)
    ensures var r := Examine(s, h[i], RECORD * i, temp, now);
            && !r.cut && r.my == s.my && r.find && r.start == s.start && Truthful(r, h)
            && (r.valid > 0 ==> exists t: nat :: t < m && Claims(h, i, t) && (false, RECORD * t) !in s.preceding)
            && (r.valid == 0 ==> forall t: nat :: t < m && Claims(h, i, t) ==> (false, RECORD * t) in s.preceding)
            && (Noted(s, h, i + 1) && r.valid == 0 ==> Noted(r, h, i))
  {
    var r := Examine(s, h[i], RECORD * i, temp, now);
    forall u: nat | (false, u) in r.preceding
      ensures Released(h, u)
    {
      if (false, u) !in s.preceding {
        assert IsRelease(h[i]) && h[i].uniqueid == u;
      }
    }
    if r.valid > 0 {
      var t := if h[i].code.Interest? then i else h[i].uniqueid / RECORD;
      assert t < m && Claims(h, i, t) && (false, RECORD * t) !in s.preceding;
    }
  }

  /** A claim not written off, all later releases being noted, is of a live ticket. */
  lemma AlarmIsLive(s: Scan, h: seq<Message>, i: nat, m: nat)
    requires i < |h| && Orderly(h) && s.my == RECORD * m && Noted(s, h, i + 1)
    requires exists t: nat :: t < m && Claims(h, i, t) && (false, RECORD * t) !in s.preceding
    ensures exists t: nat :: t < m && Claims(h, i, t) && Live(h, t)
  {
    var t: nat :| t < m && Claims(h, i, t) && (false, RECORD * t) !in s.preceding;
    ClaimIsAfterInterest(h, i, t);
    assert Live(h, t);
  }

  /** A scan that is not stopped has noted every release and met nothing stale. */
  lemma {:induction false} RangeNotes(s: Scan, h: seq<Message>, v: seq<Message>, m: nat, lo: nat, hi: nat, temp: Message, now: nat)
    requires lo <= hi <= |h| && Punched(v, h) && Orderly(h)
    requires Collecting(s, m) && Truthful(s, h)
    ensures var r := Range(s, v, lo, hi, temp, now);
            && r.my == s.my && r.find
            && (Going(r) ==> Truthful(r, h) && r.start == s.start && (Noted(s, h, hi) ==> Noted(r, h, lo)))
    decreases hi
  {
    hide Examine;
    if lo < hi {
      var i := hi - 1;
      var s' := Examine(s, v[i], RECORD * i, temp, now);
      if Stale(v[i], now) {
        ExamineStale(s, v[i], RECORD * i, temp, now);
      } else {
        ExamineCollecting(s, h, i, m, temp, now);
        if s'.valid == 0 {
          RangeNotes(s', h, v, m, lo, i, temp, now);
        }
      }
    }
  }

  /** If the scan reports a preceding claim, it met one of a ticket that is live in h. */
  lemma {:induction false} RangeAlarm(s: Scan, h: seq<Message>, v: seq<Message>, m: nat, lo: nat, hi: nat, temp: Message, now: nat)
    requires lo <= hi <= |h| && Punched(v, h) && Orderly(h)
    requires Collecting(s, m) && Truthful(s, h) && Noted(s, h, hi)
    requires Range(s, v, lo, hi, temp, now).valid > 0
    ensures exists t: nat, e: nat :: Meets(h, v, now, m, lo, hi, t, e)
    decreases hi
  {
    hide Examine;
    var i := hi - 1;
    var s' := Examine(s, v[i], RECORD * i, temp, now);
    if Stale(v[i], now) {
      ExamineStale(s, v[i], RECORD * i, temp, now);
      assert false;
    }
    ExamineCollecting(s, h, i, m, temp, now);
    if s'.valid > 0 {
      AlarmIsLive(s, h, i, m);
      var t: nat :| t < m && Claims(h, i, t) && Live(h, t);
      assert Meets(h, v, now, m, lo, hi, t, i);
    } else {
      RangeAlarm(s', h, v, m, lo, i, temp, now);
      var t: nat, e: nat :| Meets(h, v, now, m, lo, i, t, e);
      assert Meets(h, v, now, m, lo, hi, t, e);
    }
  }

  /** A claim of an unreleased smaller ticket, with nothing stale above it, is never missed. */
  lemma {:induction false} RangeFinds(s: Scan, h: seq<Message>, v: seq<Message>, m: nat, lo: nat, hi: nat, temp: Message, now: nat, t: nat, e: nat)
    requires lo <= hi <= |h| && Punched(v, h) && Orderly(h)
    requires Collecting(s, m) && Truthful(s, h)
    requires t < m && e < hi && Claims(h, e, t) && !Released(h, RECORD * t)
    requires Readable(v, now, if lo < e then e else lo, hi)
    ensures var r := Range(s, v, lo, hi, temp, now);
            && r.my == s.my && r.find
            && if lo <= e then r.valid > 0 else r.valid > 0 || (Collecting(r, m) && Truthful(r, h) && r.start == s.start)
    decreases hi
  {
    hide Examine;
    if lo < hi {
      var i := hi - 1;
      var s' := Examine(s, v[i], RECORD * i, temp, now);
      ExamineCollecting(s, h, i, m, temp, now);
      if s'.valid == 0 {
        assert i == e ==> (false, RECORD * t) in s.preceding;
        RangeFinds(s', h, v, m, lo, i, temp, now, t, e);
      }
    }
  }

  /** The valid entries of the list are the ones counted. */
  lemma {:induction false} RangeCounts(s: Scan, v: seq<Message>, lo: nat, hi: nat, temp: Message, now: nat)
    requires lo <= hi <= |v| && s.find && |ValidOnly(s.preceding)| == s.valid
    ensures var r := Range(s, v, lo, hi, temp, now); r.find && |ValidOnly(r.preceding)| == r.valid
    decreases hi
  {
    hide ValidOnly;
    if lo < hi && Going(s) {
      RangeCounts(Examine(s, v[hi - 1], RECORD * (hi - 1), temp, now), v, lo, hi - 1, temp, now);
    }
  }

  /** Before my interest is found, messages other than it change nothing but lockid. */
  lemma {:induction false} RangeSkips(s: Scan, v: seq<Message>, lo: nat, hi: nat, temp: Message, now: nat)
    requires lo <= hi <= |v| && Going(s) && s.my == NONE
    requires Readable(v, now, lo, hi) && forall i :: lo <= i < hi ==> v[i] != temp
    ensures var r := Range(s, v, lo, hi, temp, now); r == s.(lockid := r.lockid)
    decreases hi
  {
    if lo < hi {
      RangeSkips(Examine(s, v[hi - 1], RECORD * (hi - 1), temp, now), v, lo, hi - 1, temp, now);
    }
  }

  /** Scanning a range in two pieces is scanning it in one. */
  lemma {:induction false} RangeSplit(s: Scan, v: seq<Message>, lo: nat, mid: nat, hi: nat, temp: Message, now: nat)
    requires lo <= mid <= hi <= |v|
    ensures Range(s, v, lo, hi, temp, now) == Range(Range(s, v, mid, hi, temp, now), v, lo, mid, temp, now)
    decreases hi
  {
    hide Examine;
    if mid < hi && Going(s) {
      RangeSplit(Examine(s, v[hi - 1], RECORD * (hi - 1), temp, now), v, lo, mid, hi - 1, temp, now);
    }
  }

  /** A scan that broke off raised the start of interest to the message it broke off at. */
  lemma {:induction false} RangeStart(s: Scan, v: seq<Message>, lo: nat, hi: nat, temp: Message, now: nat)
    requires lo <= hi <= |v| && !s.cut
    ensures var r := Range(s, v, lo, hi, temp, now);
            if r.cut then exists i :: lo <= i < hi && r.start == RECORD * i && Stale(v[i], now)
            else r.start == s.start
    decreases hi
  {
    if lo < hi && Going(s) && !Stale(v[hi - 1], now) {
      RangeStart(Examine(s, v[hi - 1], RECORD * (hi - 1), temp, now), v, lo, hi - 1, temp, now);
    }
  }

  /** Over a file that does not change, the windows add up to one scan down to the lowest one. */
  lemma {:induction false} WindowsAreOneRange(s: Scan, v: seq<Message>, views: nat -> seq<Message>, k: nat, w: nat, size: nat, temp: Message, now: nat)
    requires forall j :: |views(j)| >= size && views(j) == v
    requires w < size && Going(s) && RECORD * w >= s.start
    ensures var r := Windows(s, views, k, w, size, temp, now);
            r == Range(s, v, Lowest(w, s.start), Top(w, size), temp, now)
    decreases w
  {
    hide Examine;
    assert s.(cut := false) == s;
    assert |v| >= size by { assert views(0) == v; }
    var s' := ReadWindow(s, views(k), w, size, temp, now);
    assert s' == Range(s, v, w, Top(w, size), temp, now);
    RangeStart(s, v, w, Top(w, size), temp, now);
    if w >= WINDOW {
      var w' := w - WINDOW;
      if RECORD * w' >= s.start {
        RangeSplit(s, v, Lowest(w', s.start), w, Top(w, size), temp, now);
        if Going(s') {
          WindowsAreOneRange(s', v, views, k + 1, w', size, temp, now);
        }
      }
    }
  }

  /** A rescan at its start: my ticket is known, the list is cleared. */
  predicate Rescanning(s: Scan, m: nat, size: nat) {
    Collecting(s, m) && s.preceding == [] && m < size && s.start <= RECORD * FirstOffset(size)
  }

  /** The decision of a rescan, exactly: it reports a preceding claim if and only if a live smaller
      ticket has a message that no stale or punched one follows, no lower than the lowest window. */
  lemma RescanExact(s: Scan, h: seq<Message>, v: seq<Message>, m: nat, temp: Message, now: nat)
    requires Rescanning(s, m, |h|) && Punched(v, h) && Orderly(h)
    ensures var r := Windows(s, _ => v, 0, FirstOffset(|h|), |h|, temp, now);
            var lo := Lowest(FirstOffset(|h|), s.start);
            && r.my == s.my
            && (r.valid > 0 <==> exists t: nat, e: nat :: Meets(h, v, now, m, lo, |h|, t, e))
  {
    hide Examine;
    hide Range;
    hide Windows;
    var w := FirstOffset(|h|);
    var lo := Lowest(w, s.start);
    WindowsAreOneRange(s, v, _ => v, 0, w, |h|, temp, now);
    RangeNotes(s, h, v, m, lo, |h|, temp, now);
    if Range(s, v, lo, |h|, temp, now).valid > 0 {
      RangeAlarm(s, h, v, m, lo, |h|, temp, now);
    }
    if exists t: nat, e: nat :: Meets(h, v, now, m, lo, |h|, t, e) {
      var t: nat, e: nat :| Meets(h, v, now, m, lo, |h|, t, e);
      RangeFinds(s, h, v, m, lo, |h|, temp, now, t, e);
    }
  }

  // A file that others append to and punch while it is scanned.

  /** Which read of a scan meets message i, counting from 0: the reads go down by whole windows. */
  function ReadOf(i: nat, size: nat): nat {
    if i >= FirstOffset(size) then 0 else (FirstOffset(size) - i + WINDOW - 1) / WINDOW
  }

  /** Every message as the read that meets it finds it. */
  function AsRead(views: nat -> seq<Message>, size: nat): (v: seq<Message>)
    requires forall j :: |views(j)| >= size
    ensures |v| == size
  {
    seq(size, i requires 0 <= i < size => views(ReadOf(i, size))[i])
  }

  lemma {:induction false} RangeSame(s: Scan, v: seq<Message>, u: seq<Message>, lo: nat, hi: nat, temp: Message, now: nat)
    requires lo <= hi <= |v| && hi <= |u| && forall i :: lo <= i < hi ==> v[i] == u[i]
    ensures Range(s, v, lo, hi, temp, now) == Range(s, u, lo, hi, temp, now)
    decreases hi
  {
    hide Examine;
    if lo < hi && Going(s) {
      RangeSame(Examine(s, v[hi - 1], RECORD * (hi - 1), temp, now), v, u, lo, hi - 1, temp, now);
    }
  }

  lemma {:induction false} WindowsAsRead(s: Scan, views: nat -> seq<Message>, v: seq<Message>, k: nat, w: nat, size: nat, temp: Message, now: nat)
    requires w <= size && (forall j :: |views(j)| >= size) && v == AsRead(views, size)
    requires w + WINDOW * k == FirstOffset(size)
    ensures Windows(s, views, k, w, size, temp, now) == Windows(s, _ => v, k, w, size, temp, now)
    decreases w
  {
    hide Range;
    if LoopAgain(s, w, size) {
      forall i | w <= i < Top(w, size) ensures views(k)[i] == v[i] {
        assert ReadOf(i, size) == k;
      }
      RangeSame(s.(cut := false), views(k), v, w, Top(w, size), temp, now);
      if w >= WINDOW {
        WindowsAsRead(ReadWindow(s, v, w, size, temp, now), views, v, k + 1, w - WINDOW, size, temp, now);
      }
    }
  }

  /** The decision of a rescan, exactly, of a file others append to and punch meanwhile: it reports a preceding
      claim if and only if a smaller ticket, live when the size was queried, has a message in reach that no stale
      or punched one follows, every message being taken as it was when its window was read. */
  lemma RescanExactMeanwhile(s: Scan, h: seq<Message>, views: nat -> seq<Message>, m: nat, temp: Message, now: nat)
    requires Rescanning(s, m, |h|) && (forall k :: |views(k)| >= |h| && Punched(views(k), h)) && Orderly(h)
    ensures var v := AsRead(views, |h|);
            var r := Windows(s, views, 0, FirstOffset(|h|), |h|, temp, now);
            var lo := Lowest(FirstOffset(|h|), s.start);
            && r.my == s.my
            && (r.valid > 0 <==> exists t: nat, e: nat :: Meets(h, v, now, m, lo, |h|, t, e))
  {
    hide Windows, ReadOf;
    var v := AsRead(views, |h|);
    WindowsAsRead(s, views, v, 0, FirstOffset(|h|), |h|, temp, now);
    assert Punched(v, h) by {
      forall i | 0 <= i < |h| ensures v[i] == h[i] || v[i] == ZERO {
        assert Punched(views(ReadOf(i, |h|)), h);
      }
    }
    RescanExact(s, h, v, m, temp, now);
  }
}
