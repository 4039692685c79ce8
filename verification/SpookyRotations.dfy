/** Rotating by k and by 64 - k bits, for the amounts SpookyHash uses, undo each other. */
module SpookyRotations {
  import opened SpookyMix

  // For each amount, first on the bits and then on the rotation.

  lemma Bits1(x: bv64)
    ensures var y := (x << 1) | (x >> 63); (y << 63) | (y >> 1) == x
    ensures var y := (x << 63) | (x >> 1); (y << 1) | (y >> 63) == x
  {}

  lemma Rot1(x: bv64)
    ensures Rot64(Rot64(x, 1), 63) == x == Rot64(Rot64(x, 63), 1)
  {
    Bits1(x);
    assert Rot64(x, 1) == (x << 1) | (x >> 63) && Rot64(x, 63) == (x << 63) | (x >> 1);
  }

  lemma Bits2(x: bv64)
    ensures var y := (x << 2) | (x >> 62); (y << 62) | (y >> 2) == x
    ensures var y := (x << 62) | (x >> 2); (y << 2) | (y >> 62) == x
  {}

  lemma Rot2(x: bv64)
    ensures Rot64(Rot64(x, 2), 62) == x == Rot64(Rot64(x, 62), 2)
  {
    Bits2(x);
    assert Rot64(x, 2) == (x << 2) | (x >> 62) && Rot64(x, 62) == (x << 62) | (x >> 2);
  }

  lemma Bits5(x: bv64)
    ensures var y := (x << 5) | (x >> 59); (y << 59) | (y >> 5) == x
    ensures var y := (x << 59) | (x >> 5); (y << 5) | (y >> 59) == x
  {}

  lemma Rot5(x: bv64)
    ensures Rot64(Rot64(x, 5), 59) == x == Rot64(Rot64(x, 59), 5)
  {
    Bits5(x);
    assert Rot64(x, 5) == (x << 5) | (x >> 59) && Rot64(x, 59) == (x << 59) | (x >> 5);
  }

  lemma Bits7(x: bv64)
    ensures var y := (x << 7) | (x >> 57); (y << 57) | (y >> 7) == x
    ensures var y := (x << 57) | (x >> 7); (y << 7) | (y >> 57) == x
  {}

  lemma Rot7(x: bv64)
    ensures Rot64(Rot64(x, 7), 57) == x == Rot64(Rot64(x, 57), 7)
  {
    Bits7(x);
    assert Rot64(x, 7) == (x << 7) | (x >> 57) && Rot64(x, 57) == (x << 57) | (x >> 7);
  }

  lemma Bits9(x: bv64)
    ensures var y := (x << 9) | (x >> 55); (y << 55) | (y >> 9) == x
    ensures var y := (x << 55) | (x >> 9); (y << 9) | (y >> 55) == x
  {}

  lemma Rot9(x: bv64)
    ensures Rot64(Rot64(x, 9), 55) == x == Rot64(Rot64(x, 55), 9)
  {
    Bits9(x);
    assert Rot64(x, 9) == (x << 9) | (x >> 55) && Rot64(x, 55) == (x << 55) | (x >> 9);
  }

  lemma Bits10(x: bv64)
    ensures var y := (x << 10) | (x >> 54); (y << 54) | (y >> 10) == x
    ensures var y := (x << 54) | (x >> 10); (y << 10) | (y >> 54) == x
  {}

  lemma Rot10(x: bv64)
    ensures Rot64(Rot64(x, 10), 54) == x == Rot64(Rot64(x, 54), 10)
  {
    Bits10(x);
    assert Rot64(x, 10) == (x << 10) | (x >> 54) && Rot64(x, 54) == (x << 54) | (x >> 10);
  }

  lemma Bits11(x: bv64)
    ensures var y := (x << 11) | (x >> 53); (y << 53) | (y >> 11) == x
    ensures var y := (x << 53) | (x >> 11); (y << 11) | (y >> 53) == x
  {}

  lemma Rot11(x: bv64)
    ensures Rot64(Rot64(x, 11), 53) == x == Rot64(Rot64(x, 53), 11)
  {
    Bits11(x);
    assert Rot64(x, 11) == (x << 11) | (x >> 53) && Rot64(x, 53) == (x << 53) | (x >> 11);
  }

  lemma Bits12(x: bv64)
    ensures var y := (x << 12) | (x >> 52); (y << 52) | (y >> 12) == x
    ensures var y := (x << 52) | (x >> 12); (y << 12) | (y >> 52) == x
  {}

  lemma Rot12(x: bv64)
    ensures Rot64(Rot64(x, 12), 52) == x == Rot64(Rot64(x, 52), 12)
  {
    Bits12(x);
    assert Rot64(x, 12) == (x << 12) | (x >> 52) && Rot64(x, 52) == (x << 52) | (x >> 12);
  }

  lemma Bits13(x: bv64)
    ensures var y := (x << 13) | (x >> 51); (y << 51) | (y >> 13) == x
    ensures var y := (x << 51) | (x >> 13); (y << 13) | (y >> 51) == x
  {}

  lemma Rot13(x: bv64)
    ensures Rot64(Rot64(x, 13), 51) == x == Rot64(Rot64(x, 51), 13)
  {
    Bits13(x);
    assert Rot64(x, 13) == (x << 13) | (x >> 51) && Rot64(x, 51) == (x << 51) | (x >> 13);
  }

  lemma Bits14(x: bv64)
    ensures var y := (x << 14) | (x >> 50); (y << 50) | (y >> 14) == x
    ensures var y := (x << 50) | (x >> 14); (y << 14) | (y >> 50) == x
  {}

  lemma Rot14(x: bv64)
    ensures Rot64(Rot64(x, 14), 50) == x == Rot64(Rot64(x, 50), 14)
  {
    Bits14(x);
    assert Rot64(x, 14) == (x << 14) | (x >> 50) && Rot64(x, 50) == (x << 50) | (x >> 14);
  }

  lemma Bits15(x: bv64)
    ensures var y := (x << 15) | (x >> 49); (y << 49) | (y >> 15) == x
    ensures var y := (x << 49) | (x >> 15); (y << 15) | (y >> 49) == x
  {}

  lemma Rot15(x: bv64)
    ensures Rot64(Rot64(x, 15), 49) == x == Rot64(Rot64(x, 49), 15)
  {
    Bits15(x);
    assert Rot64(x, 15) == (x << 15) | (x >> 49) && Rot64(x, 49) == (x << 49) | (x >> 15);
  }

  lemma Bits16(x: bv64)
    ensures var y := (x << 16) | (x >> 48); (y << 48) | (y >> 16) == x
    ensures var y := (x << 48) | (x >> 16); (y << 16) | (y >> 48) == x
  {}

  lemma Rot16(x: bv64)
    ensures Rot64(Rot64(x, 16), 48) == x == Rot64(Rot64(x, 48), 16)
  {
    Bits16(x);
    assert Rot64(x, 16) == (x << 16) | (x >> 48) && Rot64(x, 48) == (x << 48) | (x >> 16);
  }

  lemma Bits17(x: bv64)
    ensures var y := (x << 17) | (x >> 47); (y << 47) | (y >> 17) == x
    ensures var y := (x << 47) | (x >> 17); (y << 17) | (y >> 47) == x
  {}

  lemma Rot17(x: bv64)
    ensures Rot64(Rot64(x, 17), 47) == x == Rot64(Rot64(x, 47), 17)
  {
    Bits17(x);
    assert Rot64(x, 17) == (x << 17) | (x >> 47) && Rot64(x, 47) == (x << 47) | (x >> 17);
  }

  lemma Bits18(x: bv64)
    ensures var y := (x << 18) | (x >> 46); (y << 46) | (y >> 18) == x
    ensures var y := (x << 46) | (x >> 18); (y << 18) | (y >> 46) == x
  {}

  lemma Rot18(x: bv64)
    ensures Rot64(Rot64(x, 18), 46) == x == Rot64(Rot64(x, 46), 18)
  {
    Bits18(x);
    assert Rot64(x, 18) == (x << 18) | (x >> 46) && Rot64(x, 46) == (x << 46) | (x >> 18);
  }

  lemma Bits20(x: bv64)
    ensures var y := (x << 20) | (x >> 44); (y << 44) | (y >> 20) == x
    ensures var y := (x << 44) | (x >> 20); (y << 20) | (y >> 44) == x
  {}

  lemma Rot20(x: bv64)
    ensures Rot64(Rot64(x, 20), 44) == x == Rot64(Rot64(x, 44), 20)
  {
    Bits20(x);
    assert Rot64(x, 20) == (x << 20) | (x >> 44) && Rot64(x, 44) == (x << 44) | (x >> 20);
  }

  lemma Bits21(x: bv64)
    ensures var y := (x << 21) | (x >> 43); (y << 43) | (y >> 21) == x
    ensures var y := (x << 43) | (x >> 21); (y << 21) | (y >> 43) == x
  {}

  lemma Rot21(x: bv64)
    ensures Rot64(Rot64(x, 21), 43) == x == Rot64(Rot64(x, 43), 21)
  {
    Bits21(x);
    assert Rot64(x, 21) == (x << 21) | (x >> 43) && Rot64(x, 43) == (x << 43) | (x >> 21);
  }

  lemma Bits22(x: bv64)
    ensures var y := (x << 22) | (x >> 42); (y << 42) | (y >> 22) == x
    ensures var y := (x << 42) | (x >> 22); (y << 22) | (y >> 42) == x
  {}

  lemma Rot22(x: bv64)
    ensures Rot64(Rot64(x, 22), 42) == x == Rot64(Rot64(x, 42), 22)
  {
    Bits22(x);
    assert Rot64(x, 22) == (x << 22) | (x >> 42) && Rot64(x, 42) == (x << 42) | (x >> 22);
  }

  lemma Bits23(x: bv64)
    ensures var y := (x << 23) | (x >> 41); (y << 41) | (y >> 23) == x
    ensures var y := (x << 41) | (x >> 23); (y << 23) | (y >> 41) == x
  {}

  lemma Rot23(x: bv64)
    ensures Rot64(Rot64(x, 23), 41) == x == Rot64(Rot64(x, 41), 23)
  {
    Bits23(x);
    assert Rot64(x, 23) == (x << 23) | (x >> 41) && Rot64(x, 41) == (x << 41) | (x >> 23);
  }

  lemma Bits25(x: bv64)
    ensures var y := (x << 25) | (x >> 39); (y << 39) | (y >> 25) == x
    ensures var y := (x << 39) | (x >> 25); (y << 25) | (y >> 39) == x
  {}

  lemma Rot25(x: bv64)
    ensures Rot64(Rot64(x, 25), 39) == x == Rot64(Rot64(x, 39), 25)
  {
    Bits25(x);
    assert Rot64(x, 25) == (x << 25) | (x >> 39) && Rot64(x, 39) == (x << 39) | (x >> 25);
  }

  lemma Bits26(x: bv64)
    ensures var y := (x << 26) | (x >> 38); (y << 38) | (y >> 26) == x
    ensures var y := (x << 38) | (x >> 26); (y << 26) | (y >> 38) == x
  {}

  lemma Rot26(x: bv64)
    ensures Rot64(Rot64(x, 26), 38) == x == Rot64(Rot64(x, 38), 26)
  {
    Bits26(x);
    assert Rot64(x, 26) == (x << 26) | (x >> 38) && Rot64(x, 38) == (x << 38) | (x >> 26);
  }

  lemma Bits27(x: bv64)
    ensures var y := (x << 27) | (x >> 37); (y << 37) | (y >> 27) == x
    ensures var y := (x << 37) | (x >> 27); (y << 27) | (y >> 37) == x
  {}

  lemma Rot27(x: bv64)
    ensures Rot64(Rot64(x, 27), 37) == x == Rot64(Rot64(x, 37), 27)
  {
    Bits27(x);
    assert Rot64(x, 27) == (x << 27) | (x >> 37) && Rot64(x, 37) == (x << 37) | (x >> 27);
  }

  lemma Bits28(x: bv64)
    ensures var y := (x << 28) | (x >> 36); (y << 36) | (y >> 28) == x
    ensures var y := (x << 36) | (x >> 28); (y << 28) | (y >> 36) == x
  {}

  lemma Rot28(x: bv64)
    ensures Rot64(Rot64(x, 28), 36) == x == Rot64(Rot64(x, 36), 28)
  {
    Bits28(x);
    assert Rot64(x, 28) == (x << 28) | (x >> 36) && Rot64(x, 36) == (x << 36) | (x >> 28);
  }

  lemma Bits30(x: bv64)
    ensures var y := (x << 30) | (x >> 34); (y << 34) | (y >> 30) == x
    ensures var y := (x << 34) | (x >> 30); (y << 30) | (y >> 34) == x
  {}

  lemma Rot30(x: bv64)
    ensures Rot64(Rot64(x, 30), 34) == x == Rot64(Rot64(x, 34), 30)
  {
    Bits30(x);
    assert Rot64(x, 30) == (x << 30) | (x >> 34) && Rot64(x, 34) == (x << 34) | (x >> 30);
  }

  lemma Bits31(x: bv64)
    ensures var y := (x << 31) | (x >> 33); (y << 33) | (y >> 31) == x
    ensures var y := (x << 33) | (x >> 31); (y << 31) | (y >> 33) == x
  {}

  lemma Rot31(x: bv64)
    ensures Rot64(Rot64(x, 31), 33) == x == Rot64(Rot64(x, 33), 31)
  {
    Bits31(x);
    assert Rot64(x, 31) == (x << 31) | (x >> 33) && Rot64(x, 33) == (x << 33) | (x >> 31);
  }

  lemma Bits32(x: bv64)
    ensures var y := (x << 32) | (x >> 32); (y << 32) | (y >> 32) == x
  {}

  lemma Rot32(x: bv64)
    ensures Rot64(Rot64(x, 32), 32) == x
  {
    Bits32(x);
    assert Rot64(x, 32) == (x << 32) | (x >> 32);
  }

  lemma RotBack(x: bv64, k: nat)
    requires 0 < k < 64
    requires exists i: nat :: (i < 12 && (k == MixRot(i) || k == EndRot(i) || k == ShortMixRot(i))) || (i < 11 && k == ShortEndRot(i))
    ensures Rot64(Rot64(x, k), 64 - k) == x == Rot64(Rot64(x, 64 - k), k)
  {
    hide Rot64;
    if k == 1 || k == 63 { Rot1(x); }
    else if k == 2 || k == 62 { Rot2(x); }
    else if k == 5 || k == 59 { Rot5(x); }
    else if k == 7 || k == 57 { Rot7(x); }
    else if k == 9 || k == 55 { Rot9(x); }
    else if k == 10 || k == 54 { Rot10(x); }
    else if k == 11 || k == 53 { Rot11(x); }
    else if k == 12 || k == 52 { Rot12(x); }
    else if k == 13 || k == 51 { Rot13(x); }
    else if k == 14 || k == 50 { Rot14(x); }
    else if k == 15 || k == 49 { Rot15(x); }
    else if k == 16 || k == 48 { Rot16(x); }
    else if k == 17 || k == 47 { Rot17(x); }
    else if k == 18 || k == 46 { Rot18(x); }
    else if k == 20 || k == 44 { Rot20(x); }
    else if k == 21 || k == 43 { Rot21(x); }
    else if k == 22 || k == 42 { Rot22(x); }
    else if k == 23 || k == 41 { Rot23(x); }
    else if k == 25 || k == 39 { Rot25(x); }
    else if k == 26 || k == 38 { Rot26(x); }
    else if k == 27 || k == 37 { Rot27(x); }
    else if k == 28 || k == 36 { Rot28(x); }
    else if k == 30 || k == 34 { Rot30(x); }
    else if k == 31 || k == 33 { Rot31(x); }
    else if k == 32 { Rot32(x); }
  }
}
