/** The incremental hash: Init, then Update with fragments of a message and Final in any order. */
module SpookyStream {
  import opened SpookyMix
  import opened SpookySpec
  import opened SpookyHash

  function VarsOf(s: seq<bv64>): Vars
    requires |s| == 12
  {
    Vars(s[0], s[1], s[2], s[3], s[4], s[5], s[6], s[7], s[8], s[9], s[10], s[11])
  }

  /** What the fields hold of a message: nothing mixed yet below 192 bytes, else all of it mixed but
      the last `remainder` bytes, which are the ones stashed. */
  ghost predicate Holds(message: bytes, seed1: bv64, seed2: bv64, data: bytes, state: seq<bv64>, length: nat, remainder: nat) {
    && |data| == BUF_SIZE && |state| == 12 && length == |message| && remainder < BUF_SIZE && remainder <= length
    && data[..remainder] == message[length - remainder..]
    && if length < BUF_SIZE then remainder == length && state[0] == seed1 && state[1] == seed2
       else (length - remainder) % BLOCK_SIZE == 0
            && VarsOf(state) == Fold(InitVars(seed1, seed2), message[..length - remainder])
  }

  /** memcpy of bytes into a buffer. */
  method CopyIn(a: array<bv8>, at: nat, src: bytes)
    requires at + |src| <= a.Length
    modifies a
    ensures a[..at] == old(a[..at]) && a[at..at + |src|] == src && a[at + |src|..] == old(a[at + |src|..])
  {
    forall i | 0 <= i < |src| {
      a[at + i] := src[i];
    }
  }

  class SpookyHasher {
    const m_data: array<bv8>     // unhashed bytes of the message
    const m_state: array<bv64>   // internal state of the hash
    var m_length: nat
    var m_remainder: nat

    // The message so far, and the seeds.
    ghost var message: bytes
    ghost var seed1: bv64
    ghost var seed2: bv64

    ghost predicate Valid()
      reads this, m_data, m_state
    {
      Holds(message, seed1, seed2, m_data[..], m_state[..], m_length, m_remainder)
    }

    constructor Init(s1: bv64, s2: bv64)
      ensures Valid() && fresh(m_data) && fresh(m_state)
      ensures message == [] && seed1 == s1 && seed2 == s2
    {
      m_data := new bv8[BUF_SIZE];
      m_state := new bv64[12];
      m_length, m_remainder := 0, 0;
      message, seed1, seed2 := [], s1, s2;
      new;
      m_state[0] := s1;
      m_state[1] := s2;
    }

    method StoreVars(h: Vars)
      requires m_state.Length == 12
      modifies m_state
      ensures VarsOf(m_state[..]) == h
    {
      m_state[0], m_state[1], m_state[2], m_state[3] := h.v0, h.v1, h.v2, h.v3;
      m_state[4], m_state[5], m_state[6], m_state[7] := h.v4, h.v5, h.v6, h.v7;
      m_state[8], m_state[9], m_state[10], m_state[11] := h.v8, h.v9, h.v10, h.v11;
    }

    /** Mix the whole blocks of src from p on; returns where they end. */
    method MixBlocks(src: bytes, p0: nat, h0: Vars) returns (p: nat, h: Vars)
      requires p0 <= |src|
      ensures p == p0 + (|src| - p0) / BLOCK_SIZE * BLOCK_SIZE && h == Fold(h0, src[p0..p])
    {
      hide MixFrom;
      hide Words;
      p, h := p0, h0;
      var end := p0 + (|src| - p0) / BLOCK_SIZE * BLOCK_SIZE;
      assert src[p0..p0] == [];
      FoldEmpty(h0);
      while p < end
        invariant p0 <= p <= end && (p - p0) % BLOCK_SIZE == 0
        invariant h == Fold(h0, src[p0..p])
      {
        FoldBlock(h0, src[p0..p], src[p..p + BLOCK_SIZE]);
        assert src[p0..p] + src[p..p + BLOCK_SIZE] == src[p0..p + BLOCK_SIZE];
        h := Mix(Words(src[p..p + BLOCK_SIZE]), h);
        p := p + BLOCK_SIZE;
      }
    }

    /** If anything is stashed away, complete the two-block buffer from the fragment and mix it. */
    method DrainBuffer(fragment: bytes, h0: Vars) returns (p: nat, h: Vars)
      requires m_data.Length == BUF_SIZE && m_remainder < BUF_SIZE <= |fragment| + m_remainder
      modifies m_data
      ensures Drains(fragment, h0, m_remainder, old(m_data[..]), m_data[..], p, h)
    {
      hide MixFrom;
      hide Words;
      p, h := 0, h0;
      if m_remainder > 0 {
        p := BUF_SIZE - m_remainder;
        CopyIn(m_data, m_remainder, fragment[..p]);
        h := Mix(Words(m_data[..BLOCK_SIZE]), h);
        h := Mix(Words(m_data[BLOCK_SIZE..]), h);
      }
    }

    /** Mix the whole blocks from p on, stuff away the last few bytes and the variables. */
    method MixAndStash(fragment: bytes, p: nat, h0: Vars) returns (q: nat)
      requires m_data.Length == BUF_SIZE && m_state.Length == 12 && p <= |fragment|
      modifies m_data, m_state
      ensures q == p + (|fragment| - p) / BLOCK_SIZE * BLOCK_SIZE
      ensures m_data[..|fragment| - q] == fragment[q..] && VarsOf(m_state[..]) == Fold(h0, fragment[p..q])
    {
      hide Fold;
      hide VarsOf;
      var h;
      q, h := MixBlocks(fragment, p, h0);
      CopyIn(m_data, 0, fragment[q..]);
      StoreVars(h);
    }

    /** The variables with which Update starts mixing. */
    method LoadVars() returns (h: Vars)
      requires Valid()
      ensures h == Fold(InitVars(seed1, seed2), message[..m_length - m_remainder])
    {
      hide Fold, InitVars, VarsOf;
      StartVars(message, seed1, seed2, m_data[..], m_state[..], m_length, m_remainder);
      h := if m_length < BUF_SIZE then InitVars(m_state[0], m_state[1]) else VarsOf(m_state[..]);
    }

    /** Mix everything that fills whole blocks, the bytes stuffed away first, and stuff away what is left. */
    method MixAll(fragment: bytes) returns (remainder: nat)
      requires Valid() && |fragment| + m_remainder >= BUF_SIZE
      modifies m_data, m_state
      ensures Holds(message + fragment, seed1, seed2, m_data[..], m_state[..], m_length + |fragment|, remainder)
    {
      hide Fold, InitVars, VarsOf, Holds, Drains;
      Sizes(message, seed1, seed2, m_data[..], m_state[..], m_length, m_remainder);
      var h := LoadVars();
      var p, q;
      ghost var h0 := h;
      p, h := DrainBuffer(fragment, h);
      Drained(message, fragment, seed1, seed2, old(m_data[..]), m_data[..], m_state[..], m_length, m_remainder, p, h0, h);
      q := MixAndStash(fragment, p, h);
      Restash(message, fragment, seed1, seed2, m_data[..], m_state[..], p, q, h);
      remainder := |fragment| - q;
    }

    method Update(fragment: bytes)
      requires Valid()
      modifies this`m_length, this`m_remainder, this`message, m_data, m_state
      ensures Valid() && message == old(message) + fragment
    {
      hide Holds;
      Sizes(message, seed1, seed2, m_data[..], m_state[..], m_length, m_remainder);
      var length := |fragment|;
      var newLength := length + m_remainder;
      if newLength < BUF_SIZE {
        CopyIn(m_data, m_remainder, fragment);
        StashMore(message, fragment, seed1, seed2, old(m_data[..]), m_data[..], m_state[..], m_length, m_remainder);
        m_length := length + m_length;
        m_remainder := newLength;
      } else {
        var remainder := MixAll(fragment);
        m_length := length + m_length;
        m_remainder := remainder;
      }
      message := message + fragment;
    }

    /** Mix the first block stuffed away if it is whole; data is where the last, partial block begins. */
    method MixStashed() returns (data: nat, h: Vars)
      requires Valid() && m_length >= BUF_SIZE
      ensures data + BLOCK_SIZE <= BUF_SIZE && data <= m_remainder < data + BLOCK_SIZE && m_data.Length == BUF_SIZE
      ensures m_remainder - data == |message| % BLOCK_SIZE && m_length == |message|
      ensures m_data[data..m_remainder] == message[Whole(message)..] && h == Fold(InitVars(seed1, seed2), message[..Whole(message)])
    {
      hide Fold, InitVars, VarsOf, Holds, Whole, MixFrom, Words;
      Sizes(message, seed1, seed2, m_data[..], m_state[..], m_length, m_remainder);
      data, h := 0, VarsOf(m_state[..]);
      if m_remainder >= BLOCK_SIZE {
        h := Mix(Words(m_data[..BLOCK_SIZE]), h);
        data := BLOCK_SIZE;
      }
      FinalVars(message, seed1, seed2, m_data[..], m_state[..], m_length, m_remainder, data);
    }

    /** Reports the hash of the message so far, writing only into the unused part of the buffer. */
    method Final() returns (hash1: bv64, hash2: bv64)
      requires Valid()
      modifies m_data
      ensures Valid()
      ensures (hash1, hash2) == StreamHash(message, seed1, seed2)
    {
      hide Fold, InitVars, VarsOf, Holds, Whole, Words, LastBlock, Ended, ShortHash, StreamHash;
      Sizes(message, seed1, seed2, m_data[..], m_state[..], m_length, m_remainder);
      if m_length < BUF_SIZE {
        AllStashed(message, seed1, seed2, m_data[..], m_state[..], m_length, m_remainder);
        StreamHashIsShort(message, seed1, seed2);
        hash1, hash2 := Short(m_data[..m_length], m_state[0], m_state[1]);
        return;
      }
      var data, h := MixStashed();
      PadBuffer(data, m_remainder - data);
      SameStash(message, seed1, seed2, old(m_data[..]), m_state[..], m_length, m_remainder, m_data[..]);
      var block := m_data[data..data + BLOCK_SIZE];
      StreamHashIs(message, seed1, seed2, h, block);
      h := End(Words(block), h);
      hash1, hash2 := h.v0, h.v1;
    }

    /** Zero the rest of the block at data, and put the count of its message bytes last. */
    method PadBuffer(data: nat, remainder: nat)
      requires m_data.Length == BUF_SIZE && remainder < BLOCK_SIZE && data + BLOCK_SIZE <= BUF_SIZE
      modifies m_data
      ensures m_data[..data + remainder] == old(m_data[..data + remainder])
      ensures m_data[data..data + BLOCK_SIZE] == LastBlock(old(m_data[data..data + remainder]), remainder as bv8)
    {
      ghost var tail := m_data[data..data + remainder];
      forall i | remainder <= i < BLOCK_SIZE {
        m_data[data + i] := 0;
      }
      m_data[data + BLOCK_SIZE - 1] := remainder as bv8;
      ghost var block := m_data[data..data + BLOCK_SIZE];
      forall i | 0 <= i < BLOCK_SIZE ensures block[i] == if i < remainder then tail[i] else if i < BLOCK_SIZE - 1 then 0 else remainder as bv8 {
        assert block[i] == m_data[data + i];
        assert i < remainder ==> tail[i] == old(m_data[data + i]);
      }
      LastBlockIs(tail, remainder as bv8, block);
    }
  }

  // The steps of the class on values.

  lemma StreamHashIsShort(m: bytes, s1: bv64, s2: bv64)
    ensures |m| < BUF_SIZE ==> StreamHash(m, s1, s2) == ShortHash(m, s1, s2)
  {
    hide ShortHash, LongState;
  }

  lemma StreamHashIs(m: bytes, s1: bv64, s2: bv64, v: Vars, block: bytes)
    requires |m| >= BUF_SIZE && v == Fold(InitVars(s1, s2), m[..Whole(m)])
    requires block == LastBlock(m[Whole(m)..], (|m| % BLOCK_SIZE) as bv8)
    ensures var w := Ended(v, Words(block)); StreamHash(m, s1, s2) == (w.v0, w.v1)
  {
    hide Fold, InitVars, Ended, Words, LastBlock, ShortHash;
  }

  lemma LastBlockIs(tail: bytes, last: bv8, block: bytes)
    requires |tail| < BLOCK_SIZE == |block|
    requires forall i :: 0 <= i < BLOCK_SIZE ==>
               block[i] == if i < |tail| then tail[i] else if i < BLOCK_SIZE - 1 then 0 else last
    ensures block == LastBlock(tail, last)
  {
    var zeros := Zeros(BLOCK_SIZE - 1 - |tail|);
    forall i | 0 <= i < BLOCK_SIZE ensures block[i] == LastBlock(tail, last)[i] {
      if |tail| <= i < BLOCK_SIZE - 1 {
        assert LastBlock(tail, last)[i] == zeros[i - |tail|];
      }
    }
  }

  lemma StashMore(m: bytes, fragment: bytes, s1: bv64, s2: bv64, data: bytes, data': bytes, state: seq<bv64>, length: nat, remainder: nat)
    requires Holds(m, s1, s2, data, state, length, remainder) && remainder + |fragment| < BUF_SIZE
    requires |data'| == BUF_SIZE && data'[..remainder] == data[..remainder] && data'[remainder..remainder + |fragment|] == fragment
    ensures Holds(m + fragment, s1, s2, data', state, length + |fragment|, remainder + |fragment|)
  {
    hide Fold;
    assert (m + fragment)[length - remainder..] == m[length - remainder..] + fragment;
    assert data'[..remainder + |fragment|] == data'[..remainder] + fragment;
    assert (m + fragment)[..length - remainder] == m[..length - remainder];
  }

  lemma Sizes(m: bytes, s1: bv64, s2: bv64, data: bytes, state: seq<bv64>, length: nat, remainder: nat)
    requires Holds(m, s1, s2, data, state, length, remainder)
    ensures |data| == BUF_SIZE && |state| == 12 && length == |m| && remainder < BUF_SIZE && remainder <= length
    ensures length < BUF_SIZE ==> remainder == length
  {
    hide Fold;
    hide VarsOf;
    hide InitVars;
  }

  /** p bytes of the fragment complete a buffer holding `remainder` bytes, if any, which is then mixed. */
  ghost predicate Drains(fragment: bytes, h0: Vars, remainder: nat, data: bytes, data': bytes, p: nat, h: Vars)
    requires |data| == |data'| == BUF_SIZE && remainder < BUF_SIZE <= |fragment| + remainder
  {
    if remainder == 0 then p == 0 && h == h0
    else
      && p == BUF_SIZE - remainder && data'[..remainder] == data[..remainder] && data'[remainder..] == fragment[..p]
      && h == MixFrom(MixFrom(h0, Words(data'[..BLOCK_SIZE]), 0), Words(data'[BLOCK_SIZE..]), 0)
  }

  lemma JoinedSlice(m: bytes, fragment: bytes, done: nat, p: nat)
    requires done <= |m| && p <= |fragment|
    ensures (m + fragment)[done..|m| + p] == m[done..] + fragment[..p]
  {
  }

  /** The completed buffer is the next two blocks of the message. */
  lemma Drained(m: bytes, fragment: bytes, s1: bv64, s2: bv64, data: bytes, data': bytes, state: seq<bv64>, length: nat, remainder: nat,
                p: nat, h0: Vars, h: Vars)
    requires Holds(m, s1, s2, data, state, length, remainder) && |fragment| + remainder >= BUF_SIZE && |data'| == BUF_SIZE
    requires h0 == Fold(InitVars(s1, s2), m[..length - remainder])
    requires Drains(fragment, h0, remainder, data, data', p, h)
    ensures p <= |fragment| && (|m| + p) % BLOCK_SIZE == 0 && h == Fold(InitVars(s1, s2), (m + fragment)[..|m| + p])
  {
    hide MixFrom;
    hide Words;
    hide Fold;
    hide InitVars;
    hide VarsOf;
    var all, done := m + fragment, length - remainder;
    assert all[..done] == m[..done];
    if remainder > 0 {
      assert data' == data'[..remainder] + data'[remainder..];
      JoinedSlice(m, fragment, done, p);
      TwoBlocks(InitVars(s1, s2), all, done);
    }
  }

  lemma AllStashed(m: bytes, s1: bv64, s2: bv64, data: bytes, state: seq<bv64>, length: nat, remainder: nat)
    requires Holds(m, s1, s2, data, state, length, remainder) && length < BUF_SIZE
    ensures data[..length] == m && state[0] == s1 && state[1] == s2
  {
    hide Fold;
    hide VarsOf;
    hide InitVars;
  }

  /** The variables Update starts from, late initialisation included. */
  lemma StartVars(m: bytes, s1: bv64, s2: bv64, data: bytes, state: seq<bv64>, length: nat, remainder: nat)
    requires Holds(m, s1, s2, data, state, length, remainder)
    ensures Fold(InitVars(s1, s2), m[..length - remainder])
            == if length < BUF_SIZE then InitVars(state[0], state[1]) else VarsOf(state)
  {
    hide VarsOf;
    hide MixFrom;
    hide Words;
  }

  /** After the whole blocks are mixed and the rest is stashed at the front of the buffer. */
  lemma Restash(m: bytes, fragment: bytes, s1: bv64, s2: bv64, data: bytes, state: seq<bv64>, p: nat, q: nat, h: Vars)
    requires |data| == BUF_SIZE && |state| == 12 && p <= q <= |fragment| && |fragment| - q < BLOCK_SIZE
    requires |m| + |fragment| >= BUF_SIZE && (|m| + p) % BLOCK_SIZE == 0 && (q - p) % BLOCK_SIZE == 0
    requires h == Fold(InitVars(s1, s2), (m + fragment)[..|m| + p])
    requires VarsOf(state) == Fold(h, fragment[p..q])
    requires data[..|fragment| - q] == fragment[q..]
    ensures Holds(m + fragment, s1, s2, data, state, |m| + |fragment|, |fragment| - q)
  {
    hide Fold;
    hide VarsOf;
    hide InitVars;
    var all := m + fragment;
    assert all[..|m| + q] == all[..|m| + p] + fragment[p..q];
    FoldConcat(InitVars(s1, s2), all[..|m| + p], fragment[p..q]);
    assert all[|m| + q..] == fragment[q..];
  }

  lemma TwoBlocks(v0: Vars, m: bytes, done: nat)
    requires done % BLOCK_SIZE == 0 && done + BUF_SIZE <= |m|
    ensures var data := m[done..done + BUF_SIZE];
            Fold(v0, m[..done + BUF_SIZE])
            == MixFrom(MixFrom(Fold(v0, m[..done]), Words(data[..BLOCK_SIZE]), 0), Words(data[BLOCK_SIZE..]), 0)
  {
    hide MixFrom;
    hide Words;
    hide Fold;
    var data := m[done..done + BUF_SIZE];
    FoldBlock(v0, m[..done], data[..BLOCK_SIZE]);
    FoldBlock(v0, m[..done + BLOCK_SIZE], data[BLOCK_SIZE..]);
    assert m[..done] + data[..BLOCK_SIZE] == m[..done + BLOCK_SIZE];
    assert m[..done + BLOCK_SIZE] + data[BLOCK_SIZE..] == m[..done + BUF_SIZE];
  }

  /** Writing past the stashed bytes changes nothing. */
  lemma SameStash(m: bytes, s1: bv64, s2: bv64, data: bytes, state: seq<bv64>, length: nat, remainder: nat, data': bytes)
    requires Holds(m, s1, s2, data, state, length, remainder)
    requires |data'| == BUF_SIZE && data'[..remainder] == data[..remainder]
    ensures Holds(m, s1, s2, data', state, length, remainder)
  {
    hide Fold;
    hide VarsOf;
    hide InitVars;
  }

  lemma WholeIs(m: bytes, n: nat)
    requires n % BLOCK_SIZE == 0 && n <= |m| < n + BLOCK_SIZE
    ensures Whole(m) == n && |m| % BLOCK_SIZE == |m| - n
  {
  }

  /** The variables and the block Final feeds to End. */
  lemma FinalVars(m: bytes, s1: bv64, s2: bv64, data: bytes, state: seq<bv64>, length: nat, remainder: nat, at: nat)
    requires Holds(m, s1, s2, data, state, length, remainder) && length >= BUF_SIZE
    requires at == if remainder >= BLOCK_SIZE then BLOCK_SIZE else 0
    ensures Whole(m) == length - remainder + at && remainder - at == |m| % BLOCK_SIZE
    ensures m[Whole(m)..] == data[at..remainder]
    ensures Fold(InitVars(s1, s2), m[..Whole(m)])
            == if at == 0 then VarsOf(state) else MixFrom(VarsOf(state), Words(data[..BLOCK_SIZE]), 0)
  {
    hide MixFrom;
    hide Words;
    hide Fold;
    hide VarsOf;
    hide InitVars;
    var n := length - remainder;
    WholeIs(m, n + at);
    assert data[..remainder] == m[n..];
    assert data[at..remainder] == data[..remainder][at..];
    if at > 0 {
      assert data[..BLOCK_SIZE] == data[..remainder][..BLOCK_SIZE];
      FoldBlock(InitVars(s1, s2), m[..n], data[..BLOCK_SIZE]);
      assert m[..n] + data[..BLOCK_SIZE] == m[..n + at];
    }
  }

  // Any program of Updates and Finals.

  datatype Op = Add(fragment: bytes) | Report

  /** The fragments handed over so far, one after another. */
  function MessageOf(ops: seq<Op>): bytes {
    if ops == [] then []
    else
      var before, op := MessageOf(ops[..|ops| - 1]), ops[|ops| - 1];
      if op.Add? then before + op.fragment else before
  }

  /** However a message is cut into fragments and however often the hash is asked for on the way,
      every answer is the hash of the message so far. */
  method Perform(ops: seq<Op>, seed1: bv64, seed2: bv64) returns (answers: seq<(bv64, bv64)>)
    ensures |answers| == |ops|
    ensures forall i :: 0 <= i < |ops| && ops[i].Report? ==> answers[i] == StreamHash(MessageOf(ops[..i]), seed1, seed2)
  {
    hide StreamHash;
    hide Holds;
    var hasher := new SpookyHasher.Init(seed1, seed2);
    answers := [];
    for n := 0 to |ops|
      invariant hasher.Valid() && fresh(hasher) && fresh(hasher.m_data) && fresh(hasher.m_state)
      invariant hasher.message == MessageOf(ops[..n]) && hasher.seed1 == seed1 && hasher.seed2 == seed2
      invariant |answers| == n
      invariant forall i :: 0 <= i < n && ops[i].Report? ==> answers[i] == StreamHash(MessageOf(ops[..i]), seed1, seed2)
    {
      assert ops[..n + 1][..n] == ops[..n];
      if ops[n].Add? {
        hasher.Update(ops[n].fragment);
        answers := answers + [(0, 0)];
      } else {
        var h1, h2 := hasher.Final();
        answers := answers + [(h1, h2)];
      }
    }
  }
}
