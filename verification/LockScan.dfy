/** The backward scan of the lock file: 256-message windows, newest first, stopping at the first
    punched or stale message and at the first live claim that precedes mine. */
module LockScan {
  import opened LockLog

  /** The captured variables of one scan. `cut` records that the inner loop broke off. */
  datatype Scan = Scan(
    my: nat,                        // myuniqueid, NONE until my interest is found
    find: bool,                     // findPreceding
    preceding: seq<(bool, nat)>,    // (still valid?, unique id)
    valid: nat,                     // validPrecedingCount
    lockid: (bool, nat),
    start: nat,                     // startofinterest
    cut: bool)

  /** One message at byte offset off. */
  function Examine(s: Scan, m: Message, off: nat, temp: Message, now: nat): (r: Scan)
  {
    if Stale(m, now) then s.(start := off, cut := true)
    else
      var s := if s.lockid.1 == NONE && m.code.Unlock? then s.(lockid := (false, m.uniqueid))
               else if s.lockid.1 == NONE && m.code.HaveLock? then s.(lockid := (true, m.uniqueid))
               else s;
      if s.my == NONE then
        if m == temp then s.(my := off) else s
      else if s.find && (m.uniqueid < s.my || off < s.my) then
        if IsRelease(m) then Push(s, false, m.uniqueid)
        else
          var id := if m.code.Interest? then off else m.uniqueid;
          if id < s.my && (false, id) !in s.preceding then Push(s, true, id) else s
      else s
  }

  predicate Going(s: Scan) { s.valid == 0 && !s.cut }

  /** Messages hi-1 down to lo of the file as read, with the early exits. */
  function Range(s: Scan, v: seq<Message>, lo: nat, hi: nat, temp: Message, now: nat): Scan
    requires lo <= hi <= |v|
    decreases hi
  {
    if lo == hi || !Going(s) then s
    else Range(Examine(s, v[hi - 1], RECORD * (hi - 1), temp, now), v, lo, hi - 1, temp, now)
  }

  function FirstOffset(size: nat): nat {
    if size > WINDOW then size - WINDOW else 0
  }

  function Top(w: nat, size: nat): nat {
    if w + WINDOW < size then w + WINDOW else size
  }

  /** One turn of the outer loop: a read of the window at message index w. */
  function ReadWindow(s: Scan, v: seq<Message>, w: nat, size: nat, temp: Message, now: nat): Scan
    requires w <= size <= |v|
  {
    Range(s.(cut := false), v, w, Top(w, size), temp, now)
  }

  predicate LoopAgain(s: Scan, w: nat, size: nat) {
    s.valid == 0 && RECORD * w >= s.start && w < size
  }

  /** The outer loop from the window at w; the k-th read sees the file as views(k). An offset below
      one window wraps round past the end of the file, so a shorter head window is never read. */
  function Windows(s: Scan, views: nat -> seq<Message>, k: nat, w: nat, size: nat, temp: Message, now: nat): Scan
    requires w <= size && forall j :: |views(j)| >= size
    decreases w
  {
    if !LoopAgain(s, w, size) then s
    else
      var s := ReadWindow(s, views(k), w, size, temp, now);
      if w < WINDOW then s else Windows(s, views, k + 1, w - WINDOW, size, temp, now)
  }

  /** The lowest window the outer loop reaches when nothing stops it. */
  function Lowest(w: nat, start: nat): (r: nat)
    ensures r <= w
    decreases w
  {
    if w < WINDOW || RECORD * (w - WINDOW) < start then w else Lowest(w - WINDOW, start)
  }

  function ValidOnly(p: seq<(bool, nat)>): (r: seq<(bool, nat)>)
    ensures forall c :: c in r <==> c in p && c.0
  {
    if p == [] then [] else (if p[0].0 then [p[0]] else []) + ValidOnly(p[1..])
  }

  // ---------------------------------------------------------------------------------------------
  // The scan as written.

  /** Unsigned 64-bit subtraction. */
  function Sub64(x: nat, d: nat): nat
    requires d <= OFF_T
  {
    if x < d then OFF_T + x - d else x - d
  }

  /** Appends to the list of preceding claims, counting the valid ones. */
  function Push(s: Scan, live: bool, id: nat): (r: Scan)
    ensures |ValidOnly(r.preceding)| == |ValidOnly(s.preceding)| + (if live then 1 else 0)
  {
    ValidOnlyAppend(s.preceding, (live, id));
    s.(preceding := s.preceding + [(live, id)], valid := if live then s.valid + 1 else s.valid)
  }

  /** The valid entries are as many as were counted: at most one, and none unless collecting. */
  predicate Counted(s: Scan, preceding: seq<(bool, nat)>) {
    if s.find then |ValidOnly(s.preceding)| == s.valid <= 1 else s.valid == 0 && s.preceding == preceding
  }

  /** The body of the inner loop. */
  method Visit(s: Scan, m: Message, at: nat, temp: Message, now: nat, ghost p: seq<(bool, nat)>) returns (r: Scan)
    requires s.valid == 0
    ensures r == Examine(s, m, at, temp, now)
    ensures r.find == s.find && (Counted(s, p) ==> Counted(r, p))
  {
    r := s;
    if m.timestamp == 0 || (m.timestamp < now && now - m.timestamp > STALE_AFTER) {
      r := r.(start := at, cut := true);
      return;
    }
    if r.lockid.1 == NONE {
      if m.code.Unlock? {
        r := r.(lockid := (false, m.uniqueid));
      } else if m.code.HaveLock? {
        r := r.(lockid := (true, m.uniqueid));
      }
    }
    if r.my == NONE {
      if m == temp {
        r := r.(my := at);
      }
    } else if r.find && (m.uniqueid < r.my || at < r.my) {
      if m.code.Rescind? || m.code.Unlock? {
        r := Push(r, false, m.uniqueid);
      } else if m.code.Nominate? || m.code.HaveLock? {
        if m.uniqueid < r.my && (false, m.uniqueid) !in r.preceding {
          r := Push(r, true, m.uniqueid);
        }
      } else if m.code.Interest? {
        if at < r.my && (false, at) !in r.preceding {
          r := Push(r, true, at);
        }
      }
    }
  }

  /** The inner loop over one buffer, newest message first; n counts down and wraps below zero. */
  method ScanBuffer(buffers: seq<Message>, offset: nat, s: Scan, temp: Message, now: nat,
                    ghost v: seq<Message>, ghost w: nat, ghost p: seq<(bool, nat)>)
    returns (r: Scan)
    requires 0 < |buffers| <= WINDOW && offset == RECORD * w
    requires w + |buffers| <= |v| && buffers == v[w..w + |buffers|]
    requires Going(s)
    ensures r == Range(s, v, w, w + |buffers|, temp, now)
    ensures r.find == s.find && (Counted(s, p) ==> Counted(r, p))
  {
    hide Examine;
    r := s;
    var count := |buffers|;
    ghost var goal := Range(s, v, w, w + count, temp, now);
    ghost var left: nat := count;
    var n := count - 1;
    while r.valid == 0 && n < count
      invariant left <= count && n == (if left > 0 then left - 1 else OFF_T - 1) && !r.cut
      invariant Range(r, v, w, w + left, temp, now) == goal
      invariant r.find == s.find && (Counted(s, p) ==> Counted(r, p))
      decreases left
    {
      assert buffers[n] == v[w + left - 1];
      r := Visit(r, buffers[n], offset + n * RECORD, temp, now, p);
      if r.cut {
        return;
      }
      n := Sub64(n, 1);
      left := left - 1;
    }
  }

  /** The lambda `iterate`, whose outer loop steps backwards by whole windows. Its k-th read of the file
      returns views(k). At most one valid entry is ever left, so the sort at its end has nothing to do. */
  method Iterate(views: nat -> seq<Message>, size: nat, temp: Message, now: nat, s: Scan)
    returns (r: Scan)
    requires forall j :: |views(j)| >= size
    requires RECORD * size <= OFF_T / 2
    requires s.find ==> s.preceding == []      // cleared before every scan that collects
    ensures !r.find
    ensures var t := Windows(s.(valid := 0, cut := false), views, 0, FirstOffset(size), size, temp, now);
            && r.my == t.my && r.lockid == t.lockid && r.start == t.start && r.valid == t.valid
            && r.preceding == (if s.find then ValidOnly(t.preceding) else s.preceding)
            && (s.find ==> |r.preceding| == r.valid <= 1)
  {
    hide Examine;
    hide Range;
    r := s.(valid := 0, cut := false);
    var bytes := RECORD * size;
    var offset := if bytes > RECORD * WINDOW then bytes - RECORD * WINDOW else 0;
    ghost var goal := Windows(r, views, 0, FirstOffset(size), size, temp, now);
    ghost var w: nat := FirstOffset(size);
    var turn := 0;
    while r.valid == 0 && offset >= r.start && offset < bytes
      invariant offset < bytes ==> offset == RECORD * w && w < size && goal == Windows(r, views, turn, w, size, temp, now)
      invariant offset >= bytes ==> goal == r
      invariant r.find == s.find && Counted(r, s.preceding)
      decreases if offset < bytes then w + 1 else 0
    {
      var amount := bytes - offset;
      if amount > RECORD * WINDOW {
        amount := RECORD * WINDOW;
      }
      assert amount == RECORD * (Top(w, size) - w);
      var buffers := views(turn)[offset / RECORD..offset / RECORD + amount / RECORD];
      r := ScanBuffer(buffers, offset, r.(cut := false), temp, now, views(turn), w, s.preceding);
      offset := Sub64(offset, RECORD * WINDOW);
      if w >= WINDOW {
        w := w - WINDOW;
      }
      turn := turn + 1;
    }
    if r.find {
      r := r.(preceding := ValidOnly(r.preceding), find := false);
    }
  }

  lemma ValidOnlyAppend(p: seq<(bool, nat)>, c: (bool, nat))
    ensures ValidOnly(p + [c]) == ValidOnly(p) + (if c.0 then [c] else [])
  {
    if p == [] {
      assert p + [c] == [c];
    } else {
      assert (p + [c])[1..] == p[1..] + [c];
    }
  }
}
