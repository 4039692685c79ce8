/** Known answers. Each fixes where the words, the bytes, the seeds and the rotations go. */
module SpookyAnswers {
  import opened SpookyMix
  import opened SpookySpec
  import opened SpookyDifference

  function Byte(x: nat): bv8
    requires x < 256
  {
    x as bv8
  }

  /** The bytes 0, 1, 2 and so on. */
  function Counting(n: nat): (b: bytes)
    requires n <= 256
    ensures |b| == n && forall i :: 0 <= i < n ==> b[i] == Byte(i)
  {
    seq(n, i requires 0 <= i < n => Byte(i))
  }

  /** From `at` on, n bytes of b count up from x. */
  predicate Counts(b: bytes, at: nat, n: nat, x: nat)
    requires at + n <= |b| && x + n <= 256
  {
    forall i :: at <= i < at + n ==> b[i] == Byte(x + i - at)
  }

  // Words.

  function Pack(b0: bv8, b1: bv8, b2: bv8, b3: bv8, b4: bv8, b5: bv8, b6: bv8, b7: bv8): bv64 {
    Plus(Shl(b7, 56), Plus(Shl(b6, 48), Plus(Shl(b5, 40), Plus(Shl(b4, 32),
      Plus(Shl(b3, 24), Plus(Shl(b2, 16), Plus(Shl(b1, 8), Shl(b0, 0))))))))
  }

  lemma Shifts(b: bv8)
    ensures Shl(b, 56) == b as bv64 << 56 && Shl(b, 48) == b as bv64 << 48 && Shl(b, 40) == b as bv64 << 40
    ensures Shl(b, 32) == b as bv64 << 32 && Shl(b, 24) == b as bv64 << 24 && Shl(b, 16) == b as bv64 << 16
    ensures Shl(b, 8) == b as bv64 << 8 && Shl(b, 0) == b as bv64
  {}

  lemma PackIs(b0: bv8, b1: bv8, b2: bv8, b3: bv8, b4: bv8, b5: bv8, b6: bv8, b7: bv8)
    ensures Pack(b0, b1, b2, b3, b4, b5, b6, b7)
         == (b7 as bv64 << 56) + ((b6 as bv64 << 48) + ((b5 as bv64 << 40) + ((b4 as bv64 << 32)
          + ((b3 as bv64 << 24) + ((b2 as bv64 << 16) + ((b1 as bv64 << 8) + (b0 as bv64)))))))
  {
    hide Shl;
    Shifts(b0); Shifts(b1); Shifts(b2); Shifts(b3); Shifts(b4); Shifts(b5); Shifts(b6); Shifts(b7);
  }

  /** The word of the bytes x to x + 7. */
  function Word(x: nat): bv64
    requires x + 8 <= 256
  {
    Pack(Byte(x), Byte(x + 1), Byte(x + 2), Byte(x + 3), Byte(x + 4), Byte(x + 5), Byte(x + 6), Byte(x + 7))
  }

  lemma LoadIsPack(b: bytes, at: nat)
    requires at + 8 <= |b|
    ensures Load64(b, at) == Pack(b[at], b[at + 1], b[at + 2], b[at + 3], b[at + 4], b[at + 5], b[at + 6], b[at + 7])
  {
    hide Plus, Shl;
  }

  lemma LoadIsWord(b: bytes, at: nat, x: nat)
    requires at + 8 <= |b| && x + 8 <= 256 && Counts(b, at, 8, x)
    ensures Load64(b, at) == Word(x)
  {
    hide Load64, Byte, Pack;
    LoadIsPack(b, at);
  }

  lemma LoadZeros(b: bytes, at: nat)
    requires at + 8 <= |b| && forall i :: at <= i < at + 7 ==> b[i] == 0
    ensures Load64(b, at) == Shl(b[at + 7], 56)
  {
    hide Plus, Shl;
    ShlZero(56); ShlZero(48); ShlZero(40); ShlZero(32); ShlZero(24); ShlZero(16); ShlZero(8); ShlZero(0);
    PlusZero(0);
    PlusZero(Shl(b[at + 7], 56));
  }

  lemma Words0()
    ensures Word(0) == 0x706050403020100
    ensures Word(8) == 0xf0e0d0c0b0a0908
    ensures Word(16) == 0x1716151413121110
    ensures Word(24) == 0x1f1e1d1c1b1a1918
    ensures Word(32) == 0x2726252423222120
    ensures Word(40) == 0x2f2e2d2c2b2a2928
    ensures Word(48) == 0x3736353433323130
    ensures Word(56) == 0x3f3e3d3c3b3a3938
    ensures Word(64) == 0x4746454443424140
    ensures Word(72) == 0x4f4e4d4c4b4a4948
    ensures Word(80) == 0x5756555453525150
    ensures Word(88) == 0x5f5e5d5c5b5a5958
  {
    hide Pack;
    PackIs(0, 1, 2, 3, 4, 5, 6, 7);
    PackIs(8, 9, 10, 11, 12, 13, 14, 15);
    PackIs(16, 17, 18, 19, 20, 21, 22, 23);
    PackIs(24, 25, 26, 27, 28, 29, 30, 31);
    PackIs(32, 33, 34, 35, 36, 37, 38, 39);
    PackIs(40, 41, 42, 43, 44, 45, 46, 47);
    PackIs(48, 49, 50, 51, 52, 53, 54, 55);
    PackIs(56, 57, 58, 59, 60, 61, 62, 63);
    PackIs(64, 65, 66, 67, 68, 69, 70, 71);
    PackIs(72, 73, 74, 75, 76, 77, 78, 79);
    PackIs(80, 81, 82, 83, 84, 85, 86, 87);
    PackIs(88, 89, 90, 91, 92, 93, 94, 95);
  }

  lemma Words96()
    ensures Word(96) == 0x6766656463626160
    ensures Word(104) == 0x6f6e6d6c6b6a6968
    ensures Word(112) == 0x7776757473727170
    ensures Word(120) == 0x7f7e7d7c7b7a7978
    ensures Word(128) == 0x8786858483828180
    ensures Word(136) == 0x8f8e8d8c8b8a8988
    ensures Word(144) == 0x9796959493929190
    ensures Word(152) == 0x9f9e9d9c9b9a9998
    ensures Word(160) == 0xa7a6a5a4a3a2a1a0
    ensures Word(168) == 0xafaeadacabaaa9a8
    ensures Word(176) == 0xb7b6b5b4b3b2b1b0
    ensures Word(184) == 0xbfbebdbcbbbab9b8
    ensures Word(192) == 0xc7c6c5c4c3c2c1c0
  {
    hide Pack;
    PackIs(96, 97, 98, 99, 100, 101, 102, 103);
    PackIs(104, 105, 106, 107, 108, 109, 110, 111);
    PackIs(112, 113, 114, 115, 116, 117, 118, 119);
    PackIs(120, 121, 122, 123, 124, 125, 126, 127);
    PackIs(128, 129, 130, 131, 132, 133, 134, 135);
    PackIs(136, 137, 138, 139, 140, 141, 142, 143);
    PackIs(144, 145, 146, 147, 148, 149, 150, 151);
    PackIs(152, 153, 154, 155, 156, 157, 158, 159);
    PackIs(160, 161, 162, 163, 164, 165, 166, 167);
    PackIs(168, 169, 170, 171, 172, 173, 174, 175);
    PackIs(176, 177, 178, 179, 180, 181, 182, 183);
    PackIs(184, 185, 186, 187, 188, 189, 190, 191);
    PackIs(192, 193, 194, 195, 196, 197, 198, 199);
  }

  const WORDS_0: seq<bv64> := [
    0x706050403020100, 0xf0e0d0c0b0a0908, 0x1716151413121110, 0x1f1e1d1c1b1a1918, 0x2726252423222120, 0x2f2e2d2c2b2a2928,
    0x3736353433323130, 0x3f3e3d3c3b3a3938, 0x4746454443424140, 0x4f4e4d4c4b4a4948, 0x5756555453525150, 0x5f5e5d5c5b5a5958]
  const WORDS_96: seq<bv64> := [
    0x6766656463626160, 0x6f6e6d6c6b6a6968, 0x7776757473727170, 0x7f7e7d7c7b7a7978, 0x8786858483828180, 0x8f8e8d8c8b8a8988,
    0x9796959493929190, 0x9f9e9d9c9b9a9998, 0xa7a6a5a4a3a2a1a0, 0xafaeadacabaaa9a8, 0xb7b6b5b4b3b2b1b0, 0xbfbebdbcbbbab9b8]
  const LAST_0: seq<bv64> := [0xc7c6c5c4c3c2c1c0, 0, 0, 0, 0, 0, 0, 0, 0, 0, 0, 0]
  const LAST_8: seq<bv64> := [0xc7c6c5c4c3c2c1c0, 0, 0, 0, 0, 0, 0, 0, 0, 0, 0, 0x800000000000000]

  /** Twelve words of counting bytes. */
  lemma CountingWords(b: bytes, x: nat)
    requires |b| == BLOCK_SIZE && x + BLOCK_SIZE <= 256 && Counts(b, 0, BLOCK_SIZE, x)
    ensures forall k :: 0 <= k < 12 ==> Words(b)[k] == Word(x + 8 * k)
  {
    hide Load64, Word, Byte;
    forall k | 0 <= k < 12 ensures Load64(b, 8 * k) == Word(x + 8 * k) {
      assert Counts(b, 8 * k, 8, x + 8 * k);
      LoadIsWord(b, 8 * k, x + 8 * k);
    }
  }

  lemma FirstWords(b: bytes)
    requires |b| == BLOCK_SIZE && Counts(b, 0, BLOCK_SIZE, 0)
    ensures Words(b) == WORDS_0
  {
    hide Words, Word, Counts;
    CountingWords(b, 0);
    Words0();
    var u := Words(b);
    assert u[0] == Word(0) && u[1] == Word(8) && u[2] == Word(16) && u[3] == Word(24)
        && u[4] == Word(32) && u[5] == Word(40) && u[6] == Word(48) && u[7] == Word(56)
        && u[8] == Word(64) && u[9] == Word(72) && u[10] == Word(80) && u[11] == Word(88);
  }

  lemma SecondWords(b: bytes)
    requires |b| == BLOCK_SIZE && Counts(b, 0, BLOCK_SIZE, 96)
    ensures Words(b) == WORDS_96
  {
    hide Words, Word, Counts;
    CountingWords(b, 96);
    Words96();
    var u := Words(b);
    assert u[0] == Word(96) && u[1] == Word(104) && u[2] == Word(112) && u[3] == Word(120)
        && u[4] == Word(128) && u[5] == Word(136) && u[6] == Word(144) && u[7] == Word(152)
        && u[8] == Word(160) && u[9] == Word(168) && u[10] == Word(176) && u[11] == Word(184);
  }

  /** A last block of eight bytes, zeros and the last byte. */
  lemma LastWords(tail: bytes, last: bv8)
    requires |tail| == 8 && Counts(tail, 0, 8, 192)
    ensures var u := Words(LastBlock(tail, last));
            u[0] == Word(192) && (forall k :: 1 <= k < 11 ==> u[k] == 0) && u[11] == Shl(last, 56)
  {
    hide Shl, Word, Byte, Load64;
    var b := LastBlock(tail, last);
    LoadIsWord(b, 0, 192);
    ShlZero(56);
    forall k | 1 <= k < 12 ensures Load64(b, 8 * k) == Shl(b[8 * k + 7], 56) {
      LoadZeros(b, 8 * k);
    }
  }

  // The long hashes of the bytes 0 to 199 with seeds 1 and 2.

  const N1 := Vars(0x7f7dc420e7d64298, 0x3ac65d9ca3e5d423, 0x248a22ade01986a1, 0xbf7723c6e38149cb, 0x38e08d93cfa67361, 0xf896557823ad1cad,
         0x41bbbcab0f9c3f96, 0x2704677a76209674, 0x62ae28231e798287, 0xe2b3c5697f8456c1, 0xa154466b27a608f0, 0x60b717838e7b81ba)
  const N2 := Vars(0x8aedff36e391a081, 0xfd793644bf4c386c, 0x9bcb058cfe9fdb6b, 0x3b124309d7dec9f8, 0x94d5f9ca255af51c, 0xfa55ce0e570f9e2e,
         0xe70b569279631f01, 0xf03b29712748f1b8, 0x9bbab921719e298c, 0x8d0a9652a4e2cc1a, 0xe653ecb445f6e565, 0xb0657c385c23c286)
  const P0 := Vars(0x52b4c4fba7546241, 0xfd793644bf4c386c, 0x9bcb058cfe9fdb6b, 0x3b124309d7dec9f8, 0x94d5f9ca255af51c, 0xfa55ce0e570f9e2e,
         0xe70b569279631f01, 0xf03b29712748f1b8, 0x9bbab921719e298c, 0x8d0a9652a4e2cc1a, 0xe653ecb445f6e565, 0xb0657c385c23c286)
  const P1 := Vars(0xa3466e0419cd7bb, 0x32c52fba6194e6df, 0xbf83e969d970fe14, 0xb03f4ff25de05fcb, 0x256d2dec85dfb228, 0x752e132f18211d73,
         0x379b2ba3182767bf, 0x12a4347c19d3eefa, 0x8a39a60042c50971, 0x5951fdebfe1a6ff2, 0x459a20018c6a70c9, 0xabce0c9f9c51f566)
  const P2 := Vars(0x5c34abe4da82fcf5, 0x27d086887de28be1, 0x771d5d2d1c3aaa50, 0xf17de521720586ab, 0x232830c1a32471bd, 0x3879cd7e47cb1fc8,
         0x86862da792dbb3bd, 0xfeac7384b3ef915, 0x57e0a7db8a2bc024, 0xb9eaaf7a6dc12f7c, 0xe38e186f32cc001, 0x34718625ce6e09df)
  const P3 := Vars(0xa0285eda90f981e1, 0xf6ff664fb8e64dd2, 0x6545c23ce23d4960, 0xc0def7fc81aeb7cd, 0x8751290189ac94f3, 0x651985111963e8f,
         0x789b486b286fb361, 0xb12ace1b8f66363f, 0xe70383153c206074, 0x26e8972bcceaba05, 0x69534c89d9b70fde, 0xc3d6d2ed063eedc1)
  const R0 := Vars(0x52b4c4fba7546241, 0xfd793644bf4c386c, 0x9bcb058cfe9fdb6b, 0x3b124309d7dec9f8, 0x94d5f9ca255af51c, 0xfa55ce0e570f9e2e,
         0xe70b569279631f01, 0xf03b29712748f1b8, 0x9bbab921719e298c, 0x8d0a9652a4e2cc1a, 0xe653ecb445f6e565, 0xb8657c385c23c286)
  const R1 := Vars(0xf30d9712ec548248, 0x8162e4a1f610a3dc, 0xc783e969d970fa14, 0xa83f4ff27de063cb, 0x1d6d2dec65e0ee28, 0x8d2f132cb831f973,
         0x1f9ca3a2681803bf, 0xeaa8aafb6d79135a, 0xc23cff8522afd911, 0xb696375cdf4da016, 0xfe3deb1a1bee35ca, 0x8f8ddf8937e0e7)
  const R2 := Vars(0x80fdfbfa5c22fc9d, 0x9d423a121959c4ff, 0x5407bbe8b7c30f55, 0x96de341654f4ea4d, 0xa2d1a2a1c09dac5f, 0x45369210f80ef008,
         0xe4417aed265881, 0x9a93e0ddc5680db8, 0xb260c71c03a96953, 0xce90db8b197f771c, 0x63c7f3204ee46ca, 0x87b640ce4ad675f3)
  const R3 := Vars(0xe159f7b110136132, 0x39a80f686557751e, 0x82268a41e2f20e40, 0x5a9b7876b78b229d, 0x63883cd712e1ae60, 0xb85b6e3c9b8fb81e,
         0xbf969d594d254365, 0xe07672307ae9985d, 0x5b6e200758317fde, 0x962379437d92f9c1, 0x3adb8d81edd48c80, 0x514b1fe596b9cf0)

  lemma MixN1()
    ensures MixFrom(InitVars(1, 2), WORDS_0, 0) == N1
  {
    hide MixFrom;
    MixUnrolled(InitVars(1, 2), WORDS_0);
  }

  lemma MixN2()
    ensures MixFrom(N1, WORDS_96, 0) == N2
  {
    hide MixFrom;
    MixUnrolled(N1, WORDS_96);
  }

  lemma EndP1()
    ensures EndFrom(P0, 0) == P1
  {
    hide EndFrom;
    EndUnrolled(P0);
  }

  lemma EndP2()
    ensures EndFrom(P1, 0) == P2
  {
    hide EndFrom;
    EndUnrolled(P1);
  }

  lemma EndP3()
    ensures EndFrom(P2, 0) == P3
  {
    hide EndFrom;
    EndUnrolled(P2);
  }

  lemma EndR1()
    ensures EndFrom(R0, 0) == R1
  {
    hide EndFrom;
    EndUnrolled(R0);
  }

  lemma EndR2()
    ensures EndFrom(R1, 0) == R2
  {
    hide EndFrom;
    EndUnrolled(R1);
  }

  lemma EndR3()
    ensures EndFrom(R2, 0) == R3
  {
    hide EndFrom;
    EndUnrolled(R2);
  }

  lemma LastAdded()
    ensures AddData(N2, LAST_0) == P0
    ensures AddData(N2, LAST_8) == R0
  {}

  lemma EndedIs(last: seq<bv64>, e0: Vars, e1: Vars, e2: Vars, e3: Vars)
    requires |last| == 12 && AddData(N2, last) == e0 && EndFrom(e0, 0) == e1 && EndFrom(e1, 0) == e2 && EndFrom(e2, 0) == e3
    ensures Ended(N2, last) == e3
  {
    hide EndFrom, AddData;
  }

  lemma TwoBlocks(m: bytes)
    requires m == Counting(200)
    ensures Fold(InitVars(1, 2), m[..192]) == N2
  {
    hide MixFrom, Words, InitVars, Byte;
    var a, b := m[..96], m[96..192];
    assert m[..192] == a + b && [] + a == a;
    FirstWords(a);
    SecondWords(b);
    FoldBlock(InitVars(1, 2), [], a);
    FoldBlock(InitVars(1, 2), a, b);
    assert Fold(InitVars(1, 2), []) == InitVars(1, 2);
    MixN1();
    MixN2();
  }

  lemma LastIs(m: bytes)
    requires m == Counting(200)
    ensures Words(LastBlock(m[192..], 0)) == LAST_0
    ensures Words(LastBlock(m[192..], 8)) == LAST_8
  {
    hide Words, LastBlock, Word, Byte;
    LastWords(m[192..], 0);
    LastWords(m[192..], 8);
    Words96();
    Shifts(0);
    Shifts(8);
  }

  /** Hash128 and Final on a message of two blocks and eight bytes, all different, with different seeds. */
  lemma LongAnswers()
    ensures OneShotHash(Counting(200), 1, 2) == (0xa0285eda90f981e1, 0xf6ff664fb8e64dd2)
    ensures StreamHash(Counting(200), 1, 2) == (0xe159f7b110136132, 0x39a80f686557751e)
  {
    hide Fold, Words, LastBlock, Ended, EndFrom, InitVars, Counting;
    var m := Counting(200);
    TwoBlocks(m);
    LastIs(m);
    LastAdded();
    EndP1(); EndP2(); EndP3();
    EndR1(); EndR2(); EndR3();
    EndedIs(LAST_0, P0, P1, P2, P3);
    EndedIs(LAST_8, R0, R1, R2, R3);
  }

  // The short hashes of the bytes 0 to 62 with seeds 1 and 2, and of nothing with seeds 0 and 0.

  lemma ShortMixUnrolled(q: Quad)
    ensures ShortMixFrom(q, 0) ==
      ShortMixTurn(ShortMixTurn(ShortMixTurn(ShortMixTurn(ShortMixTurn(ShortMixTurn(ShortMixTurn(ShortMixTurn(ShortMixTurn(ShortMixTurn(ShortMixTurn(ShortMixTurn(q, 50), 52), 30), 41), 54), 48), 38), 37), 62), 34), 5), 36)
  {
    hide ShortMixTurn;
  }

  lemma ShortEndUnrolled(q: Quad)
    ensures ShortEndFrom(q, 0) ==
      ShortEndTurn(ShortEndTurn(ShortEndTurn(ShortEndTurn(ShortEndTurn(ShortEndTurn(ShortEndTurn(ShortEndTurn(ShortEndTurn(ShortEndTurn(ShortEndTurn(q, 15), 52), 26), 51), 28), 9), 47), 54), 32), 25), 63)
  {
    hide ShortEndTurn;
  }

  const A1 := Quad(0xe5b3c3f3e1afbfef, 0xedbbcbfbe9b7c7f7, 0x1, 0x2)
  const T1 := Quad(0xd5bde0636a247c4a, 0x90383022e3e0b783, 0x722124d8b5708dcd, 0xc7889c9bb4c11120)
  const S1 := Quad(0xd5bde0636a247c4a, 0x90383022e3e0b783, 0x893739ecc8829edd, 0xe6a6b9b7cfdb2a38)
  const A2 := Quad(0xfce405878d469d6a, 0xbf665d4f0f0ae0ab, 0x893739ecc8829edd, 0xe6a6b9b7cfdb2a38)
  const S2 := Quad(0xbdd6fc6784d61167, 0xb6813048959d748e, 0x22fc78356183e04b, 0x5249737e69f02491)
  const S3 := Quad(0xf50d319bb8084297, 0xf5bf6d84d0d7adc6, 0x22fc78356183e04b, 0x5249737e69f02491)
  const S4 := Quad(0xb4412b4845905e4f, 0xf8280cfd2b9b122d, 0x677adf63e0ae1e97, 0x785bee8d753e8a98)
  const E0 := Quad(0xbd5b7ddfbd5b7dde, 0xbd5b7ddfbd5b7dde, 0x0, 0x0)
  const E1 := Quad(0x8b72ee65b4e851c7, 0x88d8e9628fb694ae, 0x15c99660e766a98, 0x232706fc6bf50919)

  lemma ShortMixT1()
    ensures ShortMixFrom(A1, 0) == T1
  {
    hide ShortMixFrom;
    ShortMixUnrolled(A1);
  }

  lemma ShortMixS2()
    ensures ShortMixFrom(A2, 0) == S2
  {
    hide ShortMixFrom;
    ShortMixUnrolled(A2);
  }

  lemma ShortEndS4()
    ensures ShortEndFrom(S3, 0) == S4
  {
    hide ShortEndFrom;
    ShortEndUnrolled(S3);
  }

  lemma ShortEndE1()
    ensures ShortEndFrom(E0, 0) == E1
  {
    hide ShortEndFrom;
    ShortEndUnrolled(E0);
  }

  lemma Sums()
    ensures Plus(SC_CONST, 0x706050403020100) == A1.f0 && Plus(SC_CONST, 0xf0e0d0c0b0a0908) == A1.f1
    ensures Plus(T1.f2, 0x1716151413121110) == S1.f2 && Plus(T1.f3, 0x1f1e1d1c1b1a1918) == S1.f3
    ensures Plus(S1.f0, 0x2726252423222120) == A2.f0 && Plus(S1.f1, 0x2f2e2d2c2b2a2928) == A2.f1
    ensures Plus(S2.f0, 0x3736353433323130) == S3.f0 && Plus(Plus(S2.f1, 0x3f00000000000000), 0x3e3d3c3b3a3938) == S3.f1
  {}

  lemma CountingLoads(m: bytes)
    requires m == Counting(63)
    ensures Load64(m, 0) == 0x706050403020100 && Load64(m, 8) == 0xf0e0d0c0b0a0908
    ensures Load64(m, 16) == 0x1716151413121110 && Load64(m, 24) == 0x1f1e1d1c1b1a1918
    ensures Load64(m[32..], 0) == 0x2726252423222120 && Load64(m[32..], 8) == 0x2f2e2d2c2b2a2928
    ensures Load64(m[48..] + Zeros(1), 0) == 0x3736353433323130 && Load64(m[48..] + Zeros(1), 8) == 0x3e3d3c3b3a3938
  {
    hide Load64, Word, Byte, Pack;
    Words0();
    var p := m[48..] + Zeros(1);
    LoadIsWord(m, 0, 0);
    LoadIsWord(m, 8, 8);
    LoadIsWord(m, 16, 16);
    LoadIsWord(m, 24, 24);
    LoadIsWord(m[32..], 0, 32);
    LoadIsWord(m[32..], 8, 40);
    LoadIsWord(p, 0, 48);
    LoadIsPack(p, 8);
    LastBytes();
    PackIs(56, 57, 58, 59, 60, 61, 62, 0);
  }

  lemma LastBytes()
    ensures Byte(56) == 56 && Byte(57) == 57 && Byte(58) == 58
    ensures Byte(59) == 59 && Byte(60) == 60 && Byte(61) == 61 && Byte(62) == 62
  {}

  /** The set of 32 bytes, the 16 bytes after it, and the last 15. */
  lemma Parts(m: bytes)
    requires m == Counting(63)
    ensures AbsorbSet(ShortInit(1, 2), m) == S1
    ensures Absorb(S1, m[32..]) == S2
    ensures AbsorbTail(S2, m[48..], 63) == S3
  {
    hide Load64, Counting, ShortMixFrom, LengthWord, Plus;
    CountingLoads(m);
    ShortMixT1();
    ShortMixS2();
    LengthIs();
    Sums();
  }

  lemma LengthIs()
    ensures LengthWord(63) == 0x3f00000000000000 && LengthWord(0) == 0
  {
    hide Shl;
    Shifts(63);
    Shifts(0);
  }

  /** The short hash through its loop, its 16-byte step and its tail; and of the empty message. */
  lemma ShortAnswers()
    ensures ShortHash(Counting(63), 1, 2) == (0x785bee8d753e8a98, 0xb4412b4845905e4f)
    ensures ShortHash([], 0, 0) == (0x232706fc6bf50919, 0x8b72ee65b4e851c7)
  {
    hide Absorb, AbsorbSet, AbsorbTail, ShortEndFrom, Counting, ShortInit;
    var m := Counting(63);
    Parts(m);
    assert m[32..][16..] == m[48..];
    assert ShortFrom(ShortInit(1, 2), m, 63) == ShortFrom(S1, m[32..], 63) == S3;
    ShortEndS4();
    Nothing();
    ShortEndE1();
  }

  lemma Nothing()
    ensures ShortFrom(ShortInit(0, 0), [], 0) == E0
  {
    hide LengthWord;
    LengthIs();
  }

}
