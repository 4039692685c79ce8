/** A message whose two hashes differ: Final does not always give what Hash128 gives. */
module SpookyDifference {
  import opened SpookyMix
  import opened SpookySpec

  lemma MixUnrolled(v: Vars, data: seq<bv64>)
    requires |data| == 12
    ensures MixFrom(v, data, 0) ==
      MixTurn(MixTurn(MixTurn(MixTurn(MixTurn(MixTurn(MixTurn(MixTurn(MixTurn(MixTurn(MixTurn(MixTurn(v, data[0], 11), data[1], 32), data[2], 43), data[3], 31), data[4], 17), data[5], 28), data[6], 39), data[7], 57), data[8], 55), data[9], 54), data[10], 22), data[11], 46)
  {
    hide MixTurn;
  }

  lemma EndUnrolled(v: Vars)
    ensures EndFrom(v, 0) ==
      EndTurn(EndTurn(EndTurn(EndTurn(EndTurn(EndTurn(EndTurn(EndTurn(EndTurn(EndTurn(EndTurn(EndTurn(v, 44), 15), 34), 21), 38), 33), 10), 13), 38), 53), 42), 54)
  {
    hide EndTurn;
  }

  // 193 zero bytes with seeds 0: the variables after each call of Mix and EndPartial.

  const M1 := Vars(0x3a25e7500925e5d1, 0x44abb6d47567ad57, 0x92087f0a92087f09, 0x95f224c895f224c9, 0xb031fd75b031fd73, 0x2a2938021a293803,
         0x69e39c0069e51c, 0x27e0dfd619e0dfd8, 0xe48859bfd7885b3e, 0xf9f0cb0bc83cd089, 0x5873629089736120, 0x584dfe53584e71d3)
  const M2 := Vars(0xbf51ec23bd47a111, 0xdda9900fb3cf975a, 0x704e4e8f51c37527, 0xb84bf79856080e1, 0xf979d519290ccb30, 0xc70e7f2b5898493e,
         0x171e09be8ddb669f, 0xaea7f88832622a67, 0x895db814c883e3be, 0x2c570be3013d99d7, 0x81870981d8aa5175, 0x5acf826d0dd7fd2c)
  const A1 := Vars(0xd344005d45a2cae8, 0x79cbf68880821f1e, 0xab743982b990dada, 0x8faa4ff611406d9f, 0xc2bd5e4f749aaa4e, 0xae3f9fe2658a2aa1,
         0x60983df7de7255b0, 0xb76a5330c1507217, 0x7bec3052531e084e, 0x17883c01c68721ff, 0x7c4852c1e14ee291, 0xe673210e5488ba4a)
  const A2 := Vars(0x7329d59d7868bd32, 0x1e2e1326fcd47c1c, 0x88b44db81858e6e8, 0xb47e5e6ec2685267, 0xc249338944983d19, 0xe9d6730328bce5ad,
         0xca6e5301256fb515, 0x6b6955180524cebe, 0x5f8b374e42269e76, 0x39d95b9010c80756, 0x2d395a029e315711, 0xb11c78fed083625c)
  const A3 := Vars(0xf8a749759c489872, 0x492ab512070e25c0, 0xf620a338d1124e6a, 0x5c756ed03709d11d, 0xac41d7165fd90e3f, 0x32d373d658b1cf7f,
         0x92250ca946cdccab, 0x4e0490a54d07d319, 0x6bd0cdfabd57b1b3, 0x260d414a6f163e20, 0x1e323e2a775c32b2, 0x1bf2e9269077dc0)
  const B0 := Vars(0xbf51ec23bd47a111, 0xdda9900fb3cf975a, 0x704e4e8f51c37527, 0xb84bf79856080e1, 0xf979d519290ccb30, 0xc70e7f2b5898493e,
         0x171e09be8ddb669f, 0xaea7f88832622a67, 0x895db814c883e3be, 0x2c570be3013d99d7, 0x81870981d8aa5175, 0x5bcf826d0dd7fd2c)
  const B1 := Vars(0x98e3195a1b361fc1, 0xa054c262cc65a4a2, 0xb4743982b990db5a, 0x96aa4ff5ed406c1f, 0xabbd5e52387bc9ce, 0x473f3ff6e8ab8e21,
         0x8f989ce32390fa35, 0xe6aff288a3c07f6, 0xe0ea3aae604a504f, 0x84ec217b95d384d1, 0x5cd7662bada9592d, 0xb71327664ca34a87)
  const B2 := Vars(0xbc273d17386598c6, 0x8dbe2dbac0098b03, 0xd4415e53b5099ec8, 0xedb742551314aa2a, 0x232338abd881d390, 0x95ce01e832563dbd,
         0xd62cdb85167c2b5e, 0x79df08497b014844, 0xac7138a66466600d, 0xe702b5442dad4ec4, 0xca18fdef62bdeff2, 0xba3c93ec5b45bdf5)
  const B3 := Vars(0x3f741b9b9800bd81, 0x85c8e657ff3ad58f, 0xe82137b46b2ded29, 0x54d249cee2d24e0f, 0x951e95005e316a2d, 0x4bb5c268a0fdb97f,
         0xd121c571ca98fe09, 0x3c9894caa7bf5880, 0x95da41b94031146a, 0x9f8cb36be45a6a0b, 0xbecd3e6d27aea553, 0xf9724b488200796d)

  const NONE_SET: seq<bv64> := [0, 0, 0, 0, 0, 0, 0, 0, 0, 0, 0, 0]

  lemma Mix1()
    ensures MixFrom(InitVars(0, 0), NONE_SET, 0) == M1
  {
    hide MixFrom;
    hide EndFrom;
    MixUnrolled(InitVars(0, 0), NONE_SET);
  }

  lemma Mix2()
    ensures MixFrom(M1, NONE_SET, 0) == M2
  {
    hide MixFrom;
    hide EndFrom;
    MixUnrolled(M1, NONE_SET);
  }

  lemma EndA1()
    ensures EndFrom(M2, 0) == A1
  {
    hide MixFrom;
    hide EndFrom;
    EndUnrolled(M2);
  }

  lemma EndA2()
    ensures EndFrom(A1, 0) == A2
  {
    hide MixFrom;
    hide EndFrom;
    EndUnrolled(A1);
  }

  lemma EndA3()
    ensures EndFrom(A2, 0) == A3
  {
    hide MixFrom;
    hide EndFrom;
    EndUnrolled(A2);
  }

  lemma EndB1()
    ensures EndFrom(B0, 0) == B1
  {
    hide MixFrom;
    hide EndFrom;
    EndUnrolled(B0);
  }

  lemma EndB2()
    ensures EndFrom(B1, 0) == B2
  {
    hide MixFrom;
    hide EndFrom;
    EndUnrolled(B1);
  }

  lemma EndB3()
    ensures EndFrom(B2, 0) == B3
  {
    hide MixFrom;
    hide EndFrom;
    EndUnrolled(B2);
  }

  lemma ZeroWords(b: bytes)
    requires |b| == BLOCK_SIZE && forall i :: 0 <= i < BLOCK_SIZE - 1 ==> b[i] == 0
    ensures forall i :: 0 <= i < 11 ==> Words(b)[i] == 0
    ensures Words(b)[11] == Shl(b[95], 56)
  {
    hide Plus;
    hide Shl;
    ShlZero(56); ShlZero(48); ShlZero(40); ShlZero(32); ShlZero(24); ShlZero(16); ShlZero(8); ShlZero(0);
    PlusZero(0);
    PlusZero(Shl(b[95], 56));
  }

  lemma FoldZeros()
    ensures Fold(InitVars(0, 0), Zeros(BUF_SIZE)) == M2
  {
    hide MixFrom;
    hide Words;
    hide Shl;
    ShlZero(56);
    var z := Zeros(BLOCK_SIZE);
    ZeroWords(z);
    assert Words(z) == NONE_SET;
    FoldBlock(InitVars(0, 0), [], z);
    FoldBlock(InitVars(0, 0), z, z);
    assert [] + z == z && z + z == Zeros(BUF_SIZE);
    assert Fold(InitVars(0, 0), []) == InitVars(0, 0);
    Mix1();
    Mix2();
  }

  lemma AddLastOnly(v: Vars, data: seq<bv64>)
    requires |data| == 12 && forall i :: 0 <= i < 11 ==> data[i] == 0
    ensures AddData(v, data) == v.(v11 := Plus(v.v11, data[11]))
  {
    hide Plus;
    PlusZero(v.v0); PlusZero(v.v1); PlusZero(v.v2); PlusZero(v.v3); PlusZero(v.v4); PlusZero(v.v5);
    PlusZero(v.v6); PlusZero(v.v7); PlusZero(v.v8); PlusZero(v.v9); PlusZero(v.v10);
  }

  /** The documented promise fails here: handing the message over in fragments gives another hash. */
  lemma FinalDiffersFromHash128()
    ensures StreamHash(Zeros(193), 0, 0).0 != OneShotHash(Zeros(193), 0, 0).0
  {
    hide MixFrom;
    hide EndFrom;
    hide Words;
    hide Fold;
    hide Shl;
    hide Plus;
    var m := Zeros(193);
    FoldZeros();
    assert m[..BUF_SIZE] == Zeros(BUF_SIZE) && m[BUF_SIZE..] == [0];
    var a, b := LastBlock([0], 0), LastBlock([0], 1);
    ZeroWords(a);
    ZeroWords(b);
    ShlZero(56);
    LastWordAdded();
    AddLastOnly(M2, Words(a));
    AddLastOnly(M2, Words(b));
    PlusZero(M2.v11);
    EndA1(); EndA2(); EndA3();
    EndB1(); EndB2(); EndB3();
  }

  lemma LastWordAdded()
    ensures Plus(M2.v11, Shl(1, 56)) == B0.v11
  {
  }
}
