/** What SpookyHash V2 computes, as folds over the whole message. */
module SpookySpec {
  import opened SpookyMix
  import opened SpookyInverse

  const BLOCK_SIZE: nat := 96
  const BUF_SIZE: nat := 192
  const SC_CONST: bv64 := 0xdeadbeefdeadbeef

  type bytes = seq<bv8>

  // Little-endian loads.

  function Shl(b: bv8, k: nat): bv64
    requires k < 64
  {
    (b as bv64) << k
  }

  function Load32(b: bytes, at: nat): bv64
    requires at + 4 <= |b|
  {
    Plus(Shl(b[at + 3], 24), Plus(Shl(b[at + 2], 16), Plus(Shl(b[at + 1], 8), Shl(b[at], 0))))
  }

  function Load64(b: bytes, at: nat): bv64
    requires at + 8 <= |b|
  {
    Plus(Shl(b[at + 7], 56), Plus(Shl(b[at + 6], 48), Plus(Shl(b[at + 5], 40), Plus(Shl(b[at + 4], 32), Load32(b, at)))))
  }

  function Words(b: bytes): (w: seq<bv64>)
    requires |b| == BLOCK_SIZE
    ensures |w| == 12
  {
    seq(12, i requires 0 <= i < 12 => Load64(b, 8 * i))
  }

  function Zeros(n: nat): (z: bytes)
    ensures |z| == n && forall i :: 0 <= i < n ==> z[i] == 0
  {
    seq(n, _ => 0)
  }

  // The long hash.

  function InitVars(seed1: bv64, seed2: bv64): Vars {
    Vars(seed1, seed2, SC_CONST, seed1, seed2, SC_CONST, seed1, seed2, SC_CONST, seed1, seed2, SC_CONST)
  }

  /** Mix every whole block of m into v. */
  function Fold(v: Vars, m: bytes): Vars
    decreases |m|
  {
    hide MixFrom;
    hide Words;
    if |m| < BLOCK_SIZE then v
    else Fold(MixFrom(v, Words(m[..BLOCK_SIZE]), 0), m[BLOCK_SIZE..])
  }

  /** The last, partial block: zero padded, with a last byte of its own. */
  function LastBlock(tail: bytes, last: bv8): (b: bytes)
    requires |tail| < BLOCK_SIZE
    ensures |b| == BLOCK_SIZE
  {
    tail + Zeros(BLOCK_SIZE - 1 - |tail|) + [last]
  }

  function Whole(m: bytes): (n: nat)
    ensures n <= |m| && n % BLOCK_SIZE == 0 && |m| - n < BLOCK_SIZE
  {
    |m| / BLOCK_SIZE * BLOCK_SIZE
  }

  /** All twelve variables at the end of a long hash. */
  function LongState(m: bytes, seed1: bv64, seed2: bv64, last: bv8): Vars {
    Ended(Fold(InitVars(seed1, seed2), m[..Whole(m)]), Words(LastBlock(m[Whole(m)..], last)))
  }

  // The short hash: messages of less than 192 bytes.

  function ShortInit(seed1: bv64, seed2: bv64): Quad { Quad(SC_CONST, SC_CONST, seed1, seed2) }

  /** Absorbs 16 bytes into the third and fourth variables (f0 and f1 here) and mixes. */
  function Absorb(q: Quad, m: bytes): Quad
    requires |m| >= 16
  {
    ShortMixFrom(Quad(Plus(q.f0, Load64(m, 0)), Plus(q.f1, Load64(m, 8)), q.f2, q.f3), 0)
  }

  /** A set of 32 bytes: 16 absorbed and mixed, then 16 added to the first and second variables. */
  function AbsorbSet(q: Quad, m: bytes): Quad
    requires |m| >= 32
  {
    var r := Absorb(q, m);
    Quad(r.f0, r.f1, Plus(r.f2, Load64(m, 16)), Plus(r.f3, Load64(m, 24)))
  }

  function LengthWord(n: nat): bv64 { Shl((n % 256) as bv8, 56) }

  /** The last 0 to 15 bytes, zero padded to 16, and the length of the whole message. */
  function AbsorbTail(q: Quad, tail: bytes, length: nat): Quad
    requires |tail| < 16
  {
    var d := Plus(q.f1, LengthWord(length));
    if tail == [] then Quad(Plus(q.f0, SC_CONST), Plus(d, SC_CONST), q.f2, q.f3)
    else
      var p := tail + Zeros(16 - |tail|);
      Quad(Plus(q.f0, Load64(p, 0)), Plus(d, Load64(p, 8)), q.f2, q.f3)
  }

  function ShortFrom(q: Quad, m: bytes, length: nat): Quad
    decreases |m|
  {
    hide Absorb;
    hide AbsorbSet;
    hide AbsorbTail;
    if |m| >= 32 then ShortFrom(AbsorbSet(q, m), m[32..], length)
    else if |m| >= 16 then AbsorbTail(Absorb(q, m), m[16..], length)
    else AbsorbTail(q, m, length)
  }

  function ShortHash(m: bytes, seed1: bv64, seed2: bv64): (bv64, bv64) {
    var q := ShortEndFrom(ShortFrom(ShortInit(seed1, seed2), m, |m|), 0);
    (q.f3, q.f0)
  }

  // The two ways of hashing a message.

  /** Init, Update and Final: the last byte of the last block counts the message bytes in it. */
  function StreamHash(m: bytes, seed1: bv64, seed2: bv64): (bv64, bv64) {
    if |m| < BUF_SIZE then ShortHash(m, seed1, seed2)
    else
      var v := LongState(m, seed1, seed2, (|m| % BLOCK_SIZE) as bv8);
      (v.v0, v.v1)
  }

  /** Hash128: the last block is only zero padded. */
  function OneShotHash(m: bytes, seed1: bv64, seed2: bv64): (bv64, bv64) {
    if |m| < BUF_SIZE then ShortHash(m, seed1, seed2)
    else
      var v := LongState(m, seed1, seed2, 0);
      (v.v0, v.v1)
  }

  // Facts about the fold.

  lemma {:induction false} FoldConcat(v: Vars, a: bytes, b: bytes)
    requires |a| % BLOCK_SIZE == 0
    ensures Fold(v, a + b) == Fold(Fold(v, a), b)
    decreases |a|
  {
    hide MixFrom;
    hide Words;
    if |a| == 0 {
      assert a + b == b;
    } else {
      assert (a + b)[..BLOCK_SIZE] == a[..BLOCK_SIZE];
      assert (a + b)[BLOCK_SIZE..] == a[BLOCK_SIZE..] + b;
      FoldConcat(MixFrom(v, Words(a[..BLOCK_SIZE]), 0), a[BLOCK_SIZE..], b);
    }
  }

  /** One more whole block. */
  lemma FoldBlock(v: Vars, a: bytes, block: bytes)
    requires |a| % BLOCK_SIZE == 0 && |block| == BLOCK_SIZE
    ensures Fold(v, a + block) == MixFrom(Fold(v, a), Words(block), 0)
  {
    hide MixFrom;
    hide Words;
    FoldConcat(v, a, block);
    assert block[..BLOCK_SIZE] == block && block[BLOCK_SIZE..] == [];
    var w := Fold(v, a);
    assert Fold(w, block) == Fold(MixFrom(w, Words(block), 0), []);
  }

  /** Two different states never merge: equal further blocks keep them different. */
  lemma {:induction false} FoldNeverMerges(v: Vars, w: Vars, m: bytes)
    requires Fold(v, m) == Fold(w, m)
    ensures v == w
    decreases |m|
  {
    hide MixFrom;
    hide Words;
    hide UnmixFrom;
    if |m| >= BLOCK_SIZE {
      var data := Words(m[..BLOCK_SIZE]);
      FoldNeverMerges(MixFrom(v, data, 0), MixFrom(w, data, 0), m[BLOCK_SIZE..]);
      MixIsPermutation(v, data);
      MixIsPermutation(w, data);
    }
  }

  // Facts about loads.

  lemma PlusAssoc(x: bv64, y: bv64, z: bv64)
    ensures Plus(x, Plus(y, z)) == Plus(Plus(x, y), z)
  {
    hide Plus;
    PlusIs(y, z);
    PlusIs(x, y);
    PlusAssocOuter(x, y, z);
  }

  lemma PlusIs(x: bv64, y: bv64)
    ensures Plus(x, y) == x + y
  {
  }

  lemma PlusAssocOuter(x: bv64, y: bv64, z: bv64)
    ensures Plus(x, y + z) == Plus(x + y, z)
  {
  }

  lemma PlusZero(x: bv64)
    ensures Plus(x, 0) == x == Plus(0, x)
  {
  }

  lemma ShlZero(k: nat)
    requires k < 64
    ensures Shl(0, k) == 0
  {
  }

  /** Adding a 64-bit load is adding its bytes, highest first. */
  lemma AddLoad(x: bv64, b: bytes, at: nat)
    requires at + 8 <= |b|
    ensures Plus(x, Load64(b, at))
            == Plus(Plus(Plus(Plus(Plus(x, Shl(b[at + 7], 56)), Shl(b[at + 6], 48)), Shl(b[at + 5], 40)), Shl(b[at + 4], 32)), Load32(b, at))
  {
    hide Plus;
    hide Shl;
    hide Load32;
    var s7, s6, s5, s4, low := Shl(b[at + 7], 56), Shl(b[at + 6], 48), Shl(b[at + 5], 40), Shl(b[at + 4], 32), Load32(b, at);
    PlusAssoc(x, s7, Plus(s6, Plus(s5, Plus(s4, low))));
    PlusAssoc(Plus(x, s7), s6, Plus(s5, Plus(s4, low)));
    PlusAssoc(Plus(Plus(x, s7), s6), s5, Plus(s4, low));
    PlusAssoc(Plus(Plus(Plus(x, s7), s6), s5), s4, low);
  }

  lemma AddLoad32(x: bv64, b: bytes, at: nat)
    requires at + 4 <= |b|
    ensures Plus(x, Load32(b, at))
            == Plus(Plus(Plus(Plus(x, Shl(b[at + 3], 24)), Shl(b[at + 2], 16)), Shl(b[at + 1], 8)), Shl(b[at], 0))
  {
    hide Plus;
    hide Shl;
    var s3, s2, s1, s0 := Shl(b[at + 3], 24), Shl(b[at + 2], 16), Shl(b[at + 1], 8), Shl(b[at], 0);
    PlusAssoc(x, s3, Plus(s2, Plus(s1, s0)));
    PlusAssoc(Plus(x, s3), s2, Plus(s1, s0));
    PlusAssoc(Plus(Plus(x, s3), s2), s1, s0);
  }

  lemma LoadSlice(b: bytes, from: nat, to: nat, at: nat)
    requires from <= to <= |b|
    ensures at + 8 <= to - from ==> Load64(b[from..to], at) == Load64(b, from + at)
    ensures at + 4 <= to - from ==> Load32(b[from..to], at) == Load32(b, from + at)
  {
    hide Plus;
    hide Shl;
  }

  // One-shot against streaming.

  lemma EndFromInjective(v: Vars, w: Vars)
    requires EndFrom(v, 0) == EndFrom(w, 0)
    ensures v == w
  {
    hide EndFrom;
    hide UnendFrom;
    EndPartialIsPermutation(v);
    EndPartialIsPermutation(w);
  }

  lemma PlusCancels(x: bv64, y: bv64, z: bv64)
    requires Plus(x, z) == Plus(y, z) || Plus(z, x) == Plus(z, y)
    ensures x == y
  {
    hide Plus;
    hide Minus;
    PlusBack(x, z);
    PlusBack(y, z);
    PlusCommutes(x, z);
    PlusCommutes(y, z);
  }

  lemma PlusCommutes(x: bv64, y: bv64)
    ensures Plus(x, y) == Plus(y, x)
  {
  }

  lemma ShlCancels(x: bv8, y: bv8)
    requires Shl(x, 56) == Shl(y, 56)
    ensures x == y
  {
    TopByte(x);
    TopByte(y);
  }

  lemma TopByte(x: bv8)
    ensures Shl(x, 56) >> 56 == x as bv64 && (x as bv64) as bv8 == x
  {}

  /** End loses nothing of the last word of its data. */
  lemma EndedSeesLastWord(v: Vars, a: seq<bv64>, b: seq<bv64>)
    requires |a| == |b| == 12 && Ended(v, a) == Ended(v, b)
    ensures a[11] == b[11]
  {
    hide EndFrom;
    hide Plus;
    var x, y := AddData(v, a), AddData(v, b);
    EndFromInjective(EndFrom(EndFrom(x, 0), 0), EndFrom(EndFrom(y, 0), 0));
    EndFromInjective(EndFrom(x, 0), EndFrom(y, 0));
    EndFromInjective(x, y);
    PlusCancels(a[11], b[11], v.v11);
  }

  lemma LastByteSeen(tail: bytes, x: bv8, y: bv8)
    requires |tail| < BLOCK_SIZE
    requires Words(LastBlock(tail, x))[11] == Words(LastBlock(tail, y))[11]
    ensures x == y
  {
    hide Plus;
    hide Shl;
    var a, b := LastBlock(tail, x), LastBlock(tail, y);
    assert Load64(a, 88) == Load64(b, 88);
    assert a[..95] == b[..95];
    var rest := Plus(Shl(a[94], 48), Plus(Shl(a[93], 40), Plus(Shl(a[92], 32), Load32(a, 88))));
    assert rest == Plus(Shl(b[94], 48), Plus(Shl(b[93], 40), Plus(Shl(b[92], 32), Load32(b, 88)))) by {
      assert forall i :: 88 <= i < 95 ==> a[i] == a[..95][i] == b[i];
    }
    PlusCancels(Shl(x, 56), Shl(y, 56), rest);
    ShlCancels(x, y);
  }

  /** Hashing in one call and in fragments end in the same twelve variables exactly for messages
      of whole blocks: for every other long message the length byte makes the difference. */
  lemma LongStatesAgreeExactly(m: bytes, seed1: bv64, seed2: bv64)
    ensures LongState(m, seed1, seed2, (|m| % BLOCK_SIZE) as bv8) == LongState(m, seed1, seed2, 0) <==> |m| % BLOCK_SIZE == 0
  {
    hide Ended;
    hide Words;
    hide Fold;
    hide LastBlock;
    var last := (|m| % BLOCK_SIZE) as bv8;
    var v := Fold(InitVars(seed1, seed2), m[..Whole(m)]);
    var tail := m[Whole(m)..];
    if LongState(m, seed1, seed2, last) == LongState(m, seed1, seed2, 0) {
      EndedSeesLastWord(v, Words(LastBlock(tail, last)), Words(LastBlock(tail, 0)));
      LastByteSeen(tail, last, 0);
      ByteValue(|m| % BLOCK_SIZE);
    }
  }

  lemma ByteValue(n: nat)
    requires n < 256 && n as bv8 == 0
    ensures n == 0
  {
    assert (n as bv8) as int == n;
  }

  /** So the two hashes agree on all short messages and on all messages of whole blocks. */
  lemma OneShotAgrees(m: bytes, seed1: bv64, seed2: bv64)
    requires |m| < BUF_SIZE || |m| % BLOCK_SIZE == 0
    ensures OneShotHash(m, seed1, seed2) == StreamHash(m, seed1, seed2)
  {
    hide LongState;
    hide ShortHash;
    LongStatesAgreeExactly(m, seed1, seed2);
  }
}
