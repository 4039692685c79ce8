/** The mixing functions of SpookyHash V2. */
module SpookyMix {

  function Plus(x: bv64, y: bv64): bv64 { x + y }

  function Minus(x: bv64, y: bv64): bv64 { x - y }

  function Xor(x: bv64, y: bv64): bv64 { x ^ y }

  function Rot64(x: bv64, k: nat): bv64
    requires 0 < k < 64
  {
    (x << k) | (x >> (64 - k))
  }

  /** The variables of the long hash as the line being executed sees them: v0 is the line's own. */
  datatype Vars = Vars(v0: bv64, v1: bv64, v2: bv64, v3: bv64, v4: bv64, v5: bv64, v6: bv64, v7: bv64, v8: bv64, v9: bv64, v10: bv64, v11: bv64)

  /** The variables of the short hash, likewise. */
  datatype Quad = Quad(f0: bv64, f1: bv64, f2: bv64, f3: bv64)

  // The rotation amounts, line by line.

  function MixRot(k: nat): (r: nat)
    requires k < 12
    ensures 0 < r < 64
  {
    [11, 32, 43, 31, 17, 28, 39, 57, 55, 54, 22, 46][k]
  }

  function EndRot(k: nat): (r: nat)
    requires k < 12
    ensures 0 < r < 64
  {
    [44, 15, 34, 21, 38, 33, 10, 13, 38, 53, 42, 54][k]
  }

  function ShortMixRot(k: nat): (r: nat)
    requires k < 12
    ensures 0 < r < 64
  {
    [50, 52, 30, 41, 54, 48, 38, 37, 62, 34, 5, 36][k]
  }

  function ShortEndRot(k: nat): (r: nat)
    requires k < 11
    ensures 0 < r < 64
  {
    [15, 52, 26, 51, 28, 9, 47, 54, 32, 25, 63][k]
  }

  // Every line of a mixing function is the same turn one variable further on, so a function is its
  // turn repeated, the next variable coming to the front each time.

  function MixTurn(v: Vars, d: bv64, rot: nat): Vars
    requires 0 < rot < 64
  {
    var x0 := Plus(v.v0, d);
    Vars(v.v1, Xor(v.v2, v.v10), v.v3, v.v4, v.v5, v.v6, v.v7, v.v8, v.v9, v.v10,
         Plus(Xor(v.v11, x0), v.v1), Rot64(x0, rot))
  }

  function MixFrom(v: Vars, data: seq<bv64>, k: nat): Vars
    requires |data| == 12 && k <= 12
    decreases 12 - k
  {
    if k == 12 then v else MixFrom(MixTurn(v, data[k], MixRot(k)), data, k + 1)
  }

  function EndTurn(v: Vars, rot: nat): Vars
    requires 0 < rot < 64
  {
    var x11 := Plus(v.v11, v.v1);
    Vars(Rot64(v.v1, rot), Xor(v.v2, x11), v.v3, v.v4, v.v5, v.v6, v.v7, v.v8, v.v9, v.v10, x11, v.v0)
  }

  function EndFrom(v: Vars, k: nat): Vars
    requires k <= 12
    decreases 12 - k
  {
    if k == 12 then v else EndFrom(EndTurn(v, EndRot(k)), k + 1)
  }

  function AddData(v: Vars, data: seq<bv64>): Vars
    requires |data| == 12
  {
    Vars(Plus(v.v0, data[0]), Plus(v.v1, data[1]), Plus(v.v2, data[2]), Plus(v.v3, data[3]),
         Plus(v.v4, data[4]), Plus(v.v5, data[5]), Plus(v.v6, data[6]), Plus(v.v7, data[7]),
         Plus(v.v8, data[8]), Plus(v.v9, data[9]), Plus(v.v10, data[10]), Plus(v.v11, data[11]))
  }

  function Ended(v: Vars, data: seq<bv64>): Vars
    requires |data| == 12
  {
    EndFrom(EndFrom(EndFrom(AddData(v, data), 0), 0), 0)
  }

  function ShortMixTurn(q: Quad, rot: nat): Quad
    requires 0 < rot < 64
  {
    var x0 := Plus(Rot64(q.f0, rot), q.f1);
    Quad(q.f1, Xor(q.f2, x0), q.f3, x0)
  }

  function ShortMixFrom(q: Quad, k: nat): Quad
    requires k <= 12
    decreases 12 - k
  {
    if k == 12 then q else ShortMixFrom(ShortMixTurn(q, ShortMixRot(k)), k + 1)
  }

  function ShortEndTurn(q: Quad, rot: nat): Quad
    requires 0 < rot < 64
  {
    var x0 := Rot64(q.f0, rot);
    Quad(Plus(Xor(q.f1, q.f0), x0), q.f2, q.f3, x0)
  }

  function ShortEndFrom(q: Quad, k: nat): Quad
    requires k <= 11
    decreases 11 - k
  {
    if k == 11 then q else ShortEndFrom(ShortEndTurn(q, ShortEndRot(k)), k + 1)
  }

  // The mixing functions as written.

  method Mix(data: seq<bv64>, v: Vars) returns (r: Vars)
    requires |data| == 12
    ensures r == MixFrom(v, data, 0)
  {
    hide Plus;
    hide Xor;
    hide Rot64;
    var s0, s1, s2, s3, s4, s5 := v.v0, v.v1, v.v2, v.v3, v.v4, v.v5;
    var s6, s7, s8, s9, s10, s11 := v.v6, v.v7, v.v8, v.v9, v.v10, v.v11;
    ghost var goal, t := MixFrom(v, data, 0), v;

    s0 := Plus(s0, data[0]); s2 := Xor(s2, s10); s11 := Xor(s11, s0); s0 := Rot64(s0, 11); s11 := Plus(s11, s1);
    t := MixTurn(t, data[0], MixRot(0)); assert MixFrom(t, data, 1) == goal;
    s1 := Plus(s1, data[1]); s3 := Xor(s3, s11); s0 := Xor(s0, s1); s1 := Rot64(s1, 32); s0 := Plus(s0, s2);
    t := MixTurn(t, data[1], MixRot(1)); assert MixFrom(t, data, 2) == goal;
    s2 := Plus(s2, data[2]); s4 := Xor(s4, s0); s1 := Xor(s1, s2); s2 := Rot64(s2, 43); s1 := Plus(s1, s3);
    t := MixTurn(t, data[2], MixRot(2)); assert MixFrom(t, data, 3) == goal;
    s3 := Plus(s3, data[3]); s5 := Xor(s5, s1); s2 := Xor(s2, s3); s3 := Rot64(s3, 31); s2 := Plus(s2, s4);
    t := MixTurn(t, data[3], MixRot(3)); assert MixFrom(t, data, 4) == goal;
    s4 := Plus(s4, data[4]); s6 := Xor(s6, s2); s3 := Xor(s3, s4); s4 := Rot64(s4, 17); s3 := Plus(s3, s5);
    t := MixTurn(t, data[4], MixRot(4)); assert MixFrom(t, data, 5) == goal;
    s5 := Plus(s5, data[5]); s7 := Xor(s7, s3); s4 := Xor(s4, s5); s5 := Rot64(s5, 28); s4 := Plus(s4, s6);
    t := MixTurn(t, data[5], MixRot(5)); assert MixFrom(t, data, 6) == goal;
    s6 := Plus(s6, data[6]); s8 := Xor(s8, s4); s5 := Xor(s5, s6); s6 := Rot64(s6, 39); s5 := Plus(s5, s7);
    t := MixTurn(t, data[6], MixRot(6)); assert MixFrom(t, data, 7) == goal;
    s7 := Plus(s7, data[7]); s9 := Xor(s9, s5); s6 := Xor(s6, s7); s7 := Rot64(s7, 57); s6 := Plus(s6, s8);
    t := MixTurn(t, data[7], MixRot(7)); assert MixFrom(t, data, 8) == goal;
    s8 := Plus(s8, data[8]); s10 := Xor(s10, s6); s7 := Xor(s7, s8); s8 := Rot64(s8, 55); s7 := Plus(s7, s9);
    t := MixTurn(t, data[8], MixRot(8)); assert MixFrom(t, data, 9) == goal;
    s9 := Plus(s9, data[9]); s11 := Xor(s11, s7); s8 := Xor(s8, s9); s9 := Rot64(s9, 54); s8 := Plus(s8, s10);
    t := MixTurn(t, data[9], MixRot(9)); assert MixFrom(t, data, 10) == goal;
    s10 := Plus(s10, data[10]); s0 := Xor(s0, s8); s9 := Xor(s9, s10); s10 := Rot64(s10, 22); s9 := Plus(s9, s11);
    t := MixTurn(t, data[10], MixRot(10)); assert MixFrom(t, data, 11) == goal;
    s11 := Plus(s11, data[11]); s1 := Xor(s1, s9); s10 := Xor(s10, s11); s11 := Rot64(s11, 46); s10 := Plus(s10, s0);
    t := MixTurn(t, data[11], MixRot(11)); assert MixFrom(t, data, 12) == goal;
    r := Vars(s0, s1, s2, s3, s4, s5, s6, s7, s8, s9, s10, s11);
  }

  method EndPartial(v: Vars) returns (r: Vars)
    ensures r == EndFrom(v, 0)
  {
    hide Plus;
    hide Xor;
    hide Rot64;
    var h0, h1, h2, h3, h4, h5 := v.v0, v.v1, v.v2, v.v3, v.v4, v.v5;
    var h6, h7, h8, h9, h10, h11 := v.v6, v.v7, v.v8, v.v9, v.v10, v.v11;
    ghost var goal, t := EndFrom(v, 0), v;

    h11 := Plus(h11, h1); h2 := Xor(h2, h11); h1 := Rot64(h1, 44);
    t := EndTurn(t, EndRot(0)); assert EndFrom(t, 1) == goal;
    h0 := Plus(h0, h2); h3 := Xor(h3, h0); h2 := Rot64(h2, 15);
    t := EndTurn(t, EndRot(1)); assert EndFrom(t, 2) == goal;
    h1 := Plus(h1, h3); h4 := Xor(h4, h1); h3 := Rot64(h3, 34);
    t := EndTurn(t, EndRot(2)); assert EndFrom(t, 3) == goal;
    h2 := Plus(h2, h4); h5 := Xor(h5, h2); h4 := Rot64(h4, 21);
    t := EndTurn(t, EndRot(3)); assert EndFrom(t, 4) == goal;
    h3 := Plus(h3, h5); h6 := Xor(h6, h3); h5 := Rot64(h5, 38);
    t := EndTurn(t, EndRot(4)); assert EndFrom(t, 5) == goal;
    h4 := Plus(h4, h6); h7 := Xor(h7, h4); h6 := Rot64(h6, 33);
    t := EndTurn(t, EndRot(5)); assert EndFrom(t, 6) == goal;
    h5 := Plus(h5, h7); h8 := Xor(h8, h5); h7 := Rot64(h7, 10);
    t := EndTurn(t, EndRot(6)); assert EndFrom(t, 7) == goal;
    h6 := Plus(h6, h8); h9 := Xor(h9, h6); h8 := Rot64(h8, 13);
    t := EndTurn(t, EndRot(7)); assert EndFrom(t, 8) == goal;
    h7 := Plus(h7, h9); h10 := Xor(h10, h7); h9 := Rot64(h9, 38);
    t := EndTurn(t, EndRot(8)); assert EndFrom(t, 9) == goal;
    h8 := Plus(h8, h10); h11 := Xor(h11, h8); h10 := Rot64(h10, 53);
    t := EndTurn(t, EndRot(9)); assert EndFrom(t, 10) == goal;
    h9 := Plus(h9, h11); h0 := Xor(h0, h9); h11 := Rot64(h11, 42);
    t := EndTurn(t, EndRot(10)); assert EndFrom(t, 11) == goal;
    h10 := Plus(h10, h0); h1 := Xor(h1, h10); h0 := Rot64(h0, 54);
    t := EndTurn(t, EndRot(11)); assert EndFrom(t, 12) == goal;
    r := Vars(h0, h1, h2, h3, h4, h5, h6, h7, h8, h9, h10, h11);
  }

  method End(data: seq<bv64>, v: Vars) returns (r: Vars)
    requires |data| == 12
    ensures r == Ended(v, data)
  {
    hide EndFrom;
    hide Plus;
    r := AddData(v, data);
    r := EndPartial(r);
    r := EndPartial(r);
    r := EndPartial(r);
  }

  method ShortMix(a: bv64, b: bv64, c: bv64, d: bv64) returns (h0: bv64, h1: bv64, h2: bv64, h3: bv64)
    ensures Quad(h2, h3, h0, h1) == ShortMixFrom(Quad(c, d, a, b), 0)
  {
    hide Plus;
    hide Xor;
    hide Rot64;
    h0, h1, h2, h3 := a, b, c, d;
    ghost var goal, t := ShortMixFrom(Quad(c, d, a, b), 0), Quad(c, d, a, b);

    h2 := Rot64(h2, 50); h2 := Plus(h2, h3); h0 := Xor(h0, h2);
    t := ShortMixTurn(t, ShortMixRot(0)); assert ShortMixFrom(t, 1) == goal;
    h3 := Rot64(h3, 52); h3 := Plus(h3, h0); h1 := Xor(h1, h3);
    t := ShortMixTurn(t, ShortMixRot(1)); assert ShortMixFrom(t, 2) == goal;
    h0 := Rot64(h0, 30); h0 := Plus(h0, h1); h2 := Xor(h2, h0);
    t := ShortMixTurn(t, ShortMixRot(2)); assert ShortMixFrom(t, 3) == goal;
    h1 := Rot64(h1, 41); h1 := Plus(h1, h2); h3 := Xor(h3, h1);
    t := ShortMixTurn(t, ShortMixRot(3)); assert ShortMixFrom(t, 4) == goal;
    h2 := Rot64(h2, 54); h2 := Plus(h2, h3); h0 := Xor(h0, h2);
    t := ShortMixTurn(t, ShortMixRot(4)); assert ShortMixFrom(t, 5) == goal;
    h3 := Rot64(h3, 48); h3 := Plus(h3, h0); h1 := Xor(h1, h3);
    t := ShortMixTurn(t, ShortMixRot(5)); assert ShortMixFrom(t, 6) == goal;
    h0 := Rot64(h0, 38); h0 := Plus(h0, h1); h2 := Xor(h2, h0);
    t := ShortMixTurn(t, ShortMixRot(6)); assert ShortMixFrom(t, 7) == goal;
    h1 := Rot64(h1, 37); h1 := Plus(h1, h2); h3 := Xor(h3, h1);
    t := ShortMixTurn(t, ShortMixRot(7)); assert ShortMixFrom(t, 8) == goal;
    h2 := Rot64(h2, 62); h2 := Plus(h2, h3); h0 := Xor(h0, h2);
    t := ShortMixTurn(t, ShortMixRot(8)); assert ShortMixFrom(t, 9) == goal;
    h3 := Rot64(h3, 34); h3 := Plus(h3, h0); h1 := Xor(h1, h3);
    t := ShortMixTurn(t, ShortMixRot(9)); assert ShortMixFrom(t, 10) == goal;
    h0 := Rot64(h0, 5); h0 := Plus(h0, h1); h2 := Xor(h2, h0);
    t := ShortMixTurn(t, ShortMixRot(10)); assert ShortMixFrom(t, 11) == goal;
    h1 := Rot64(h1, 36); h1 := Plus(h1, h2); h3 := Xor(h3, h1);
    t := ShortMixTurn(t, ShortMixRot(11)); assert ShortMixFrom(t, 12) == goal;
  }

  method ShortEnd(a: bv64, b: bv64, c: bv64, d: bv64) returns (h0: bv64, h1: bv64, h2: bv64, h3: bv64)
    ensures Quad(h1, h2, h3, h0) == ShortEndFrom(Quad(c, d, a, b), 0)
  {
    hide Plus;
    hide Xor;
    hide Rot64;
    h0, h1, h2, h3 := a, b, c, d;
    ghost var goal, t := ShortEndFrom(Quad(c, d, a, b), 0), Quad(c, d, a, b);

    h3 := Xor(h3, h2); h2 := Rot64(h2, 15); h3 := Plus(h3, h2);
    t := ShortEndTurn(t, ShortEndRot(0)); assert ShortEndFrom(t, 1) == goal;
    h0 := Xor(h0, h3); h3 := Rot64(h3, 52); h0 := Plus(h0, h3);
    t := ShortEndTurn(t, ShortEndRot(1)); assert ShortEndFrom(t, 2) == goal;
    h1 := Xor(h1, h0); h0 := Rot64(h0, 26); h1 := Plus(h1, h0);
    t := ShortEndTurn(t, ShortEndRot(2)); assert ShortEndFrom(t, 3) == goal;
    h2 := Xor(h2, h1); h1 := Rot64(h1, 51); h2 := Plus(h2, h1);
    t := ShortEndTurn(t, ShortEndRot(3)); assert ShortEndFrom(t, 4) == goal;
    h3 := Xor(h3, h2); h2 := Rot64(h2, 28); h3 := Plus(h3, h2);
    t := ShortEndTurn(t, ShortEndRot(4)); assert ShortEndFrom(t, 5) == goal;
    h0 := Xor(h0, h3); h3 := Rot64(h3, 9); h0 := Plus(h0, h3);
    t := ShortEndTurn(t, ShortEndRot(5)); assert ShortEndFrom(t, 6) == goal;
    h1 := Xor(h1, h0); h0 := Rot64(h0, 47); h1 := Plus(h1, h0);
    t := ShortEndTurn(t, ShortEndRot(6)); assert ShortEndFrom(t, 7) == goal;
    h2 := Xor(h2, h1); h1 := Rot64(h1, 54); h2 := Plus(h2, h1);
    t := ShortEndTurn(t, ShortEndRot(7)); assert ShortEndFrom(t, 8) == goal;
    h3 := Xor(h3, h2); h2 := Rot64(h2, 32); h3 := Plus(h3, h2);
    t := ShortEndTurn(t, ShortEndRot(8)); assert ShortEndFrom(t, 9) == goal;
    h0 := Xor(h0, h3); h3 := Rot64(h3, 25); h0 := Plus(h0, h3);
    t := ShortEndTurn(t, ShortEndRot(9)); assert ShortEndFrom(t, 10) == goal;
    h1 := Xor(h1, h0); h0 := Rot64(h0, 63); h1 := Plus(h1, h0);
    t := ShortEndTurn(t, ShortEndRot(10)); assert ShortEndFrom(t, 11) == goal;
  }
}
