/** SpookyHash V2: hashing in one call, and hashing a message handed over in fragments. */
module SpookyHash {
  import opened SpookyMix
  import opened SpookySpec

  /** The last 1 to 7 bytes of a word: the cases of a fall-through switch, highest byte first. */
  method AddTail(x: bv64, m: bytes, at: nat, n: nat) returns (r: bv64)
    requires 0 < n < 8 && at + n <= |m|
    ensures r == Plus(x, Load64(m[at..at + n] + Zeros(8 - n), 0))
  {
    hide Plus;
    hide Shl;
    hide Load32;
    hide Load64;
    r := x;
    ghost var p := m[at..at + n] + Zeros(8 - n);
    AddPadded(x, p, n);
    if n >= 4 {
      if n >= 7 {
        r := Plus(r, Shl(m[at + 6], 48));
      }
      if n >= 6 {
        r := Plus(r, Shl(m[at + 5], 40));
      }
      if n >= 5 {
        r := Plus(r, Shl(m[at + 4], 32));
      }
      SameLoad32(p, m, at);
      r := Plus(r, Load32(m, at));
    } else {
      if n >= 3 {
        r := Plus(r, Shl(m[at + 2], 16));
      }
      if n >= 2 {
        r := Plus(r, Shl(m[at + 1], 8));
      }
      r := Plus(r, Shl(m[at], 0));
    }
  }

  lemma SameLoad32(p: bytes, m: bytes, at: nat)
    requires |p| >= 4 && at + 4 <= |m| && p[..4] == m[at..at + 4]
    ensures Load32(p, 0) == Load32(m, at)
  {
    LoadSlice(p, 0, 4, 0);
    LoadSlice(m, at, at + 4, 0);
  }

  /** Zero bytes above the first n add nothing. */
  lemma AddPadded(x: bv64, p: bytes, n: nat)
    requires |p| == 8 && 0 < n < 8 && forall i :: n <= i < 8 ==> p[i] == 0
    ensures Plus(x, Load64(p, 0)) ==
              var h := if n >= 7 then Plus(x, Shl(p[6], 48)) else x;
              var h := if n >= 6 then Plus(h, Shl(p[5], 40)) else h;
              var h := if n >= 5 then Plus(h, Shl(p[4], 32)) else h;
              if n >= 4 then Plus(h, Load32(p, 0))
              else
                var h := if n >= 3 then Plus(h, Shl(p[2], 16)) else h;
                var h := if n >= 2 then Plus(h, Shl(p[1], 8)) else h;
                Plus(h, Shl(p[0], 0))
  {
    hide Plus;
    hide Shl;
    hide Load32;
    hide Load64;
    AddLoad(x, p, 0);
    ShlZero(56); ShlZero(48); ShlZero(40); ShlZero(32); ShlZero(24); ShlZero(16); ShlZero(8);
    PlusZero(x);
    PlusZero(Plus(x, Shl(p[6], 48)));
    PlusZero(Plus(Plus(x, Shl(p[6], 48)), Shl(p[5], 40)));
    if n < 4 {
      AddLoad32(x, p, 0);
      PlusZero(Plus(x, Shl(p[2], 16)));
    }
  }

  /** What the loop of the short hash does with the 32 bytes at p. */
  lemma ShortSet(q: Quad, m: bytes, p: nat, length: nat)
    requires p + 32 <= |m|
    ensures var r := ShortMixFrom(Quad(Plus(q.f0, Load64(m, p)), Plus(q.f1, Load64(m, p + 8)), q.f2, q.f3), 0);
            ShortFrom(q, m[p..], length)
            == ShortFrom(Quad(r.f0, r.f1, Plus(r.f2, Load64(m, p + 16)), Plus(r.f3, Load64(m, p + 24))), m[p + 32..], length)
  {
    hide Plus;
    hide Load64;
    hide Load32;
    hide ShortMixFrom;
    hide AbsorbTail;
    LoadSlice(m, p, |m|, 0);
    LoadSlice(m, p, |m|, 8);
    LoadSlice(m, p, |m|, 16);
    LoadSlice(m, p, |m|, 24);
    assert m[p..] == m[p..|m|];
    assert m[p..][32..] == m[p + 32..];
  }

  /** What it does with fewer than 32 bytes left. */
  lemma ShortLast(q: Quad, m: bytes, p: nat, length: nat)
    requires p <= |m| < p + 32
    ensures ShortFrom(q, m[p..], length) ==
              if |m| < p + 16 then AbsorbTail(q, m[p..], length)
              else AbsorbTail(ShortMixFrom(Quad(Plus(q.f0, Load64(m, p)), Plus(q.f1, Load64(m, p + 8)), q.f2, q.f3), 0), m[p + 16..], length)
  {
    hide Plus;
    hide Load64;
    hide Load32;
    hide ShortMixFrom;
    hide AbsorbTail;
    if |m| >= p + 16 {
      LoadSlice(m, p, |m|, 0);
      LoadSlice(m, p, |m|, 8);
      assert m[p..] == m[p..|m|];
      assert m[p..][16..] == m[p + 16..];
    }
  }

  /** The short hash: used on messages of less than 192 bytes. */
  method Short(message: bytes, hash1: bv64, hash2: bv64) returns (r1: bv64, r2: bv64)
    ensures (r1, r2) == ShortHash(message, hash1, hash2)
  {
    hide Plus;
    hide Load64;
    hide ShortMixFrom;
    hide ShortEndFrom;
    hide ShortFrom;
    hide Absorb;
    hide AbsorbSet;
    hide AbsorbTail;
    var length := |message|;
    var remainder := length % 32;
    var a, b, c, d := hash1, hash2, SC_CONST, SC_CONST;
    var p := 0;
    ghost var goal := ShortFrom(ShortInit(hash1, hash2), message, length);
    assert message[0..] == message;
    if length > 15 {
      var end := length / 32 * 32;
      while p < end
        invariant 0 <= p <= end && p % 32 == 0
        invariant ShortFrom(Quad(c, d, a, b), message[p..], length) == goal
      {
        ShortSet(Quad(c, d, a, b), message, p, length);
        c := Plus(c, Load64(message, p));
        d := Plus(d, Load64(message, p + 8));
        a, b, c, d := ShortMix(a, b, c, d);
        a := Plus(a, Load64(message, p + 16));
        b := Plus(b, Load64(message, p + 24));
        p := p + 32;
      }
      ShortLast(Quad(c, d, a, b), message, p, length);
      if remainder >= 16 {
        c := Plus(c, Load64(message, p));
        d := Plus(d, Load64(message, p + 8));
        a, b, c, d := ShortMix(a, b, c, d);
        p := p + 16;
        remainder := remainder - 16;
      }
    } else {
      ShortLast(Quad(c, d, a, b), message, p, length);
    }
    c, d := AddLast(message, p, remainder, a, b, c, d);
    a, b, c, d := ShortEnd(a, b, c, d);
    r1, r2 := a, b;
  }

  /** The last 0 to 15 bytes and the length: the switch on the remainder. */
  method AddLast(message: bytes, p: nat, remainder: nat, a: bv64, b: bv64, c0: bv64, d0: bv64) returns (c: bv64, d: bv64)
    requires remainder < 16 && p + remainder == |message|
    ensures Quad(c, d, a, b) == AbsorbTail(Quad(c0, d0, a, b), message[p..], |message|)
  {
    hide Plus;
    hide Load64;
    hide LengthWord;
    c, d := AddTailBytes(message, p, remainder, c0, Plus(d0, LengthWord(|message|)));
  }

  method AddTailBytes(message: bytes, p: nat, remainder: nat, c0: bv64, d0: bv64) returns (c: bv64, d: bv64)
    requires remainder < 16 && p + remainder == |message|
    ensures var tail := message[p..];
            if tail == [] then c == Plus(c0, SC_CONST) && d == Plus(d0, SC_CONST)
            else var b := tail + Zeros(16 - |tail|); c == Plus(c0, Load64(b, 0)) && d == Plus(d0, Load64(b, 8))
  {
    hide Plus;
    hide Shl;
    hide Load32;
    hide Load64;
    c, d := c0, d0;
    ghost var b := message[p..] + Zeros(16 - remainder);
    LoadSlice(b, 0, 8, 0);
    LoadSlice(b, 8, 16, 0);
    PadSplit(message[p..], b);
    if remainder > 8 {
      d := AddTail(d, message, p + 8, remainder - 8);
      assert message[p..][8..] == message[p + 8..p + 8 + (remainder - 8)];
    } else if remainder > 0 {
      ZeroLoad();
      PlusZero(d);
    }
    if remainder >= 8 {
      LoadSlice(message, p, p + 8, 0);
      assert message[p..][..8] == message[p..p + 8];
      c := Plus(c, Load64(message, p));
    } else if remainder > 0 {
      c := AddTail(c, message, p, remainder);
      assert message[p..] == message[p..p + remainder];
    } else {
      c := Plus(c, SC_CONST);
      d := Plus(d, SC_CONST);
    }
  }

  /** The two words of a padded tail. */
  lemma PadSplit(tail: bytes, b: bytes)
    requires |tail| < 16 && b == tail + Zeros(16 - |tail|)
    ensures b[0..8] == if |tail| >= 8 then tail[..8] else tail + Zeros(8 - |tail|)
    ensures b[8..16] == if |tail| > 8 then tail[8..] + Zeros(16 - |tail|) else Zeros(8)
  {
    var z := Zeros(16 - |tail|);
    forall i | 8 <= i < 16
      ensures b[i] == if i < |tail| then tail[i] else 0
    {
      assert i >= |tail| ==> b[i] == z[i - |tail|];
    }
    forall i | 0 <= i < 8
      ensures b[i] == if i < |tail| then tail[i] else 0
    {
      assert i >= |tail| ==> b[i] == z[i - |tail|];
    }
  }

  lemma ZeroLoad()
    ensures Load64(Zeros(8), 0) == 0
  {
    hide Plus;
    hide Shl;
    ShlZero(56); ShlZero(48); ShlZero(40); ShlZero(32); ShlZero(24); ShlZero(16); ShlZero(8); ShlZero(0);
    PlusZero(0);
  }

  /** The whole hash in one call. */
  method Hash128(message: bytes, hash1: bv64, hash2: bv64) returns (r1: bv64, r2: bv64)
    ensures (r1, r2) == OneShotHash(message, hash1, hash2)
  {
    hide MixFrom;
    hide Ended;
    hide Words;
    hide ShortHash;
    hide Fold;
    if |message| < BUF_SIZE {
      r1, r2 := Short(message, hash1, hash2);
      return;
    }
    var h := InitVars(hash1, hash2);
    var end := |message| / BLOCK_SIZE * BLOCK_SIZE;
    var p := 0;
    FoldEmpty(h);
    while p < end
      invariant 0 <= p <= end && p % BLOCK_SIZE == 0
      invariant h == Fold(InitVars(hash1, hash2), message[..p])
    {
      FoldBlock(InitVars(hash1, hash2), message[..p], message[p..p + BLOCK_SIZE]);
      assert message[..p] + message[p..p + BLOCK_SIZE] == message[..p + BLOCK_SIZE];
      h := Mix(Words(message[p..p + BLOCK_SIZE]), h);
      p := p + BLOCK_SIZE;
    }
    var remainder := |message| - end;
    var buf := message[end..] + Zeros(BLOCK_SIZE - remainder);
    assert buf == LastBlock(message[end..], 0);
    h := End(Words(buf), h);
    r1, r2 := h.v0, h.v1;
  }

  lemma FoldEmpty(v: Vars)
    ensures Fold(v, []) == v
  {
  }
}
