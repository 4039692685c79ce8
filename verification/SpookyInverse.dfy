/** The mixing functions of SpookyHash run backwards: none of them loses state. */
module SpookyInverse {
  import opened SpookyMix
  import opened SpookyRotations

  lemma MinusPlus(x: bv64, y: bv64)
    ensures Minus(x + y, y) == x && Plus(x - y, y) == x
  {
  }

  lemma PlusBack(x: bv64, y: bv64)
    ensures Minus(Plus(x, y), y) == x
  {
    hide Minus;
    MinusPlus(x, y);
  }

  lemma MinusBack(x: bv64, y: bv64)
    ensures Plus(Minus(x, y), y) == x
  {
    hide Plus;
    MinusPlus(x, y);
  }

  lemma XorBack(x: bv64, y: bv64)
    ensures Xor(Xor(x, y), y) == x
  {
  }

  // Mix, for every data block

  function UnmixTurn(w: Vars, d: bv64, rot: nat): Vars
    requires 0 < rot < 64
  {
    var x0 := Rot64(w.v11, 64 - rot);
    Vars(Minus(x0, d), w.v0, Xor(w.v1, w.v9), w.v2, w.v3, w.v4, w.v5, w.v6, w.v7, w.v8, w.v9, Xor(Minus(w.v10, w.v0), x0))
  }

  function UnmixFrom(w: Vars, data: seq<bv64>, k: nat): Vars
    requires |data| == 12 && k <= 12
    decreases k
  {
    if k == 0 then w else UnmixFrom(UnmixTurn(w, data[k - 1], MixRot(k - 1)), data, k - 1)
  }

  lemma MixTurnBack(v: Vars, d: bv64, k: nat)
    requires k < 12
    ensures UnmixTurn(MixTurn(v, d, MixRot(k)), d, MixRot(k)) == v
    ensures MixTurn(UnmixTurn(v, d, MixRot(k)), d, MixRot(k)) == v
  {
    hide Plus;
    hide Minus;
    hide Xor;
    hide Rot64;
    var rot := MixRot(k);
    PlusBack(v.v0, d);
    XorBack(v.v2, v.v10);
    PlusBack(Xor(v.v11, Plus(v.v0, d)), v.v1);
    XorBack(v.v11, Plus(v.v0, d));
    RotBack(Plus(v.v0, d), rot);
    RotBack(v.v11, rot);
    MinusBack(Rot64(v.v11, 64 - rot), d);
    XorBack(v.v1, v.v9);
    XorBack(Minus(v.v10, v.v0), Rot64(v.v11, 64 - rot));
    MinusBack(v.v10, v.v0);
  }

  lemma {:induction false} MixUndone(v: Vars, data: seq<bv64>, k: nat)
    requires |data| == 12 && k <= 12
    ensures UnmixFrom(MixFrom(v, data, k), data, 12) == UnmixFrom(v, data, k)
    decreases 12 - k
  {
    hide MixTurn;
    hide UnmixTurn;
    hide MixRot;
    if k < 12 {
      MixTurnBack(v, data[k], k);
      MixUndone(MixTurn(v, data[k], MixRot(k)), data, k + 1);
    }
  }

  lemma {:induction false} MixRedone(v: Vars, data: seq<bv64>, k: nat)
    requires |data| == 12 && k <= 12
    ensures MixFrom(UnmixFrom(v, data, k), data, 0) == MixFrom(v, data, k)
    decreases k
  {
    hide MixTurn;
    hide UnmixTurn;
    hide MixRot;
    if k > 0 {
      MixTurnBack(v, data[k - 1], k - 1);
      MixRedone(UnmixTurn(v, data[k - 1], MixRot(k - 1)), data, k - 1);
    }
  }

  /** Mix is a permutation of its state, whatever the data: explicit inverses on both sides. */
  lemma MixIsPermutation(v: Vars, data: seq<bv64>)
    requires |data| == 12
    ensures UnmixFrom(MixFrom(v, data, 0), data, 12) == v
    ensures MixFrom(UnmixFrom(v, data, 12), data, 0) == v
  {
    MixUndone(v, data, 0);
    MixRedone(v, data, 12);
  }

  // EndPartial

  function UnendTurn(w: Vars, rot: nat): Vars
    requires 0 < rot < 64
  {
    var v1 := Rot64(w.v0, 64 - rot);
    Vars(w.v11, v1, Xor(w.v1, w.v10), w.v2, w.v3, w.v4, w.v5, w.v6, w.v7, w.v8, w.v9, Minus(w.v10, v1))
  }

  function UnendFrom(w: Vars, k: nat): Vars
    requires k <= 12
    decreases k
  {
    if k == 0 then w else UnendFrom(UnendTurn(w, EndRot(k - 1)), k - 1)
  }

  lemma EndTurnBack(v: Vars, k: nat)
    requires k < 12
    ensures UnendTurn(EndTurn(v, EndRot(k)), EndRot(k)) == v
    ensures EndTurn(UnendTurn(v, EndRot(k)), EndRot(k)) == v
  {
    hide Plus;
    hide Minus;
    hide Xor;
    hide Rot64;
    var rot := EndRot(k);
    PlusBack(v.v11, v.v1);
    XorBack(v.v2, Plus(v.v11, v.v1));
    RotBack(v.v1, rot);
    RotBack(v.v0, rot);
    MinusBack(v.v10, Rot64(v.v0, 64 - rot));
    XorBack(v.v1, v.v10);
  }

  lemma {:induction false} EndPartialUndone(v: Vars, k: nat)
    requires k <= 12
    ensures UnendFrom(EndFrom(v, k), 12) == UnendFrom(v, k)
    decreases 12 - k
  {
    hide EndTurn;
    hide UnendTurn;
    hide EndRot;
    if k < 12 {
      EndTurnBack(v, k);
      EndPartialUndone(EndTurn(v, EndRot(k)), k + 1);
    }
  }

  lemma {:induction false} EndPartialRedone(v: Vars, k: nat)
    requires k <= 12
    ensures EndFrom(UnendFrom(v, k), 0) == EndFrom(v, k)
    decreases k
  {
    hide EndTurn;
    hide UnendTurn;
    hide EndRot;
    if k > 0 {
      EndTurnBack(v, k - 1);
      EndPartialRedone(UnendTurn(v, EndRot(k - 1)), k - 1);
    }
  }

  /** EndPartial is a permutation of its state: explicit inverses on both sides. */
  lemma EndPartialIsPermutation(v: Vars)
    ensures UnendFrom(EndFrom(v, 0), 12) == v
    ensures EndFrom(UnendFrom(v, 12), 0) == v
  {
    EndPartialUndone(v, 0);
    EndPartialRedone(v, 12);
  }

  // ShortMix

  function UnshortMixTurn(w: Quad, rot: nat): Quad
    requires 0 < rot < 64
  {
    Quad(Rot64(Minus(w.f3, w.f0), 64 - rot), w.f0, Xor(w.f1, w.f3), w.f2)
  }

  function UnshortMixFrom(w: Quad, k: nat): Quad
    requires k <= 12
    decreases k
  {
    if k == 0 then w else UnshortMixFrom(UnshortMixTurn(w, ShortMixRot(k - 1)), k - 1)
  }

  lemma ShortMixTurnBack(v: Quad, k: nat)
    requires k < 12
    ensures UnshortMixTurn(ShortMixTurn(v, ShortMixRot(k)), ShortMixRot(k)) == v
    ensures ShortMixTurn(UnshortMixTurn(v, ShortMixRot(k)), ShortMixRot(k)) == v
  {
    hide Plus;
    hide Minus;
    hide Xor;
    hide Rot64;
    var rot := ShortMixRot(k);
    PlusBack(Rot64(v.f0, rot), v.f1);
    RotBack(v.f0, rot);
    XorBack(v.f2, Plus(Rot64(v.f0, rot), v.f1));
    RotBack(Minus(v.f3, v.f0), rot);
    MinusBack(v.f3, v.f0);
    XorBack(v.f1, v.f3);
  }

  lemma {:induction false} ShortMixUndone(v: Quad, k: nat)
    requires k <= 12
    ensures UnshortMixFrom(ShortMixFrom(v, k), 12) == UnshortMixFrom(v, k)
    decreases 12 - k
  {
    hide ShortMixTurn;
    hide UnshortMixTurn;
    hide ShortMixRot;
    if k < 12 {
      ShortMixTurnBack(v, k);
      ShortMixUndone(ShortMixTurn(v, ShortMixRot(k)), k + 1);
    }
  }

  lemma {:induction false} ShortMixRedone(v: Quad, k: nat)
    requires k <= 12
    ensures ShortMixFrom(UnshortMixFrom(v, k), 0) == ShortMixFrom(v, k)
    decreases k
  {
    hide ShortMixTurn;
    hide UnshortMixTurn;
    hide ShortMixRot;
    if k > 0 {
      ShortMixTurnBack(v, k - 1);
      ShortMixRedone(UnshortMixTurn(v, ShortMixRot(k - 1)), k - 1);
    }
  }

  /** ShortMix is a permutation of its state: explicit inverses on both sides. */
  lemma ShortMixIsPermutation(v: Quad)
    ensures UnshortMixFrom(ShortMixFrom(v, 0), 12) == v
    ensures ShortMixFrom(UnshortMixFrom(v, 12), 0) == v
  {
    ShortMixUndone(v, 0);
    ShortMixRedone(v, 12);
  }

  // ShortEnd

  function UnshortEndTurn(w: Quad, rot: nat): Quad
    requires 0 < rot < 64
  {
    var f0 := Rot64(w.f3, 64 - rot);
    Quad(f0, Xor(Minus(w.f0, w.f3), f0), w.f1, w.f2)
  }

  function UnshortEndFrom(w: Quad, k: nat): Quad
    requires k <= 11
    decreases k
  {
    if k == 0 then w else UnshortEndFrom(UnshortEndTurn(w, ShortEndRot(k - 1)), k - 1)
  }

  lemma ShortEndTurnBack(v: Quad, k: nat)
    requires k < 11
    ensures UnshortEndTurn(ShortEndTurn(v, ShortEndRot(k)), ShortEndRot(k)) == v
    ensures ShortEndTurn(UnshortEndTurn(v, ShortEndRot(k)), ShortEndRot(k)) == v
  {
    hide Plus;
    hide Minus;
    hide Xor;
    hide Rot64;
    var rot := ShortEndRot(k);
    RotBack(v.f0, rot);
    PlusBack(Xor(v.f1, v.f0), Rot64(v.f0, rot));
    XorBack(v.f1, v.f0);
    RotBack(v.f3, rot);
    XorBack(Minus(v.f0, v.f3), Rot64(v.f3, 64 - rot));
    MinusBack(v.f0, v.f3);
  }

  lemma {:induction false} ShortEndUndone(v: Quad, k: nat)
    requires k <= 11
    ensures UnshortEndFrom(ShortEndFrom(v, k), 11) == UnshortEndFrom(v, k)
    decreases 11 - k
  {
    hide ShortEndTurn;
    hide UnshortEndTurn;
    hide ShortEndRot;
    if k < 11 {
      ShortEndTurnBack(v, k);
      ShortEndUndone(ShortEndTurn(v, ShortEndRot(k)), k + 1);
    }
  }

  lemma {:induction false} ShortEndRedone(v: Quad, k: nat)
    requires k <= 11
    ensures ShortEndFrom(UnshortEndFrom(v, k), 0) == ShortEndFrom(v, k)
    decreases k
  {
    hide ShortEndTurn;
    hide UnshortEndTurn;
    hide ShortEndRot;
    if k > 0 {
      ShortEndTurnBack(v, k - 1);
      ShortEndRedone(UnshortEndTurn(v, ShortEndRot(k - 1)), k - 1);
    }
  }

  /** ShortEnd is a permutation of its state: explicit inverses on both sides. */
  lemma ShortEndIsPermutation(v: Quad)
    ensures UnshortEndFrom(ShortEndFrom(v, 0), 11) == v
    ensures ShortEndFrom(UnshortEndFrom(v, 11), 0) == v
  {
    ShortEndUndone(v, 0);
    ShortEndRedone(v, 11);
  }
}
