/**
 * The example vector of appendix C.1 of FIPS-197 (AES-128) carried through
 * the model: each row of the appendix's table of round values is a lemma
 * (the state at the start of a round, after each transformation, and the
 * round key), and together they show that `Cipher` maps the example
 * plaintext under the example key to the published ciphertext, and that the
 * trace the engine records ends in it.
 */
module AesKnownAnswer {
  import opened AesTypes
  import opened AesTables
  import opened GaloisField
  import opened AesSpec
  import opened AesKeySchedule
  import opened AesCipher
  import opened AesBlocks

  const PLAINTEXT: seq<bv8> := [0x00, 0x11, 0x22, 0x33, 0x44, 0x55, 0x66, 0x77,
                                0x88, 0x99, 0xaa, 0xbb, 0xcc, 0xdd, 0xee, 0xff]
  const KEY: seq<bv8> := [0x00, 0x01, 0x02, 0x03, 0x04, 0x05, 0x06, 0x07,
                          0x08, 0x09, 0x0a, 0x0b, 0x0c, 0x0d, 0x0e, 0x0f]
  const CIPHERTEXT: seq<bv8> := [0x69, 0xc4, 0xe0, 0xd8, 0x6a, 0x7b, 0x04, 0x30,
                                 0xd8, 0xcd, 0xb7, 0x80, 0x70, 0xb4, 0xc5, 0x5a]

  /* ---------------- The round transformations on a block ---------------- */

  /** A state is the layout of `bytes` when it agrees with it cell by cell. */
  lemma CellsMatch(m: StateMatrix, bytes: seq<bv8>)
    requires IsState(m) && |bytes| == 16
    requires forall r, c :: 0 <= r < 4 && 0 <= c < 4 ==> m[r][c] == bytes[4 * c + r]
    ensures m == ToState(bytes)
  {
    forall r | 0 <= r < 4
      ensures m[r] == ToState(bytes)[r]
    {
    }
  }

  /** SubBytes of a laid-out block is the layout of its bytes through the S-box. */
  lemma SubBytesBlock(a: seq<bv8>)
    requires |a| == 16
    ensures SubBytes(ToState(a)) == ToState(SubBlock(SBox, a))
  {
    var m := SubBytes(ToState(a));
    forall r, c | 0 <= r < 4 && 0 <= c < 4
      ensures m[r][c] == SubBlock(SBox, a)[4 * c + r]
    {
      SubBytesAt(ToState(a), r, c);
      ToStateAt(a, r, c);
    }
    CellsMatch(m, SubBlock(SBox, a));
  }

  /** ShiftRows of a laid-out block is the layout of the shifted block. */
  lemma ShiftRowsBlock(a: seq<bv8>)
    requires |a| == 16
    ensures ShiftRows(ToState(a)) == ToState(ShiftBlock(a))
  {
    var m := ShiftRows(ToState(a));
    forall r, c | 0 <= r < 4 && 0 <= c < 4
      ensures m[r][c] == ShiftBlock(a)[4 * c + r]
    {
      assert (4 * c + r) / 4 == c && (4 * c + r) % 4 == r;
      ToStateAt(a, r, (c + r) % 4);
    }
    CellsMatch(m, ShiftBlock(a));
  }

  /** The engine's column formulas agree with `MixedColumn`. */
  lemma MixColumnByXTime(s0: bv8, s1: bv8, s2: bv8, s3: bv8)
    ensures MixColumn([s0, s1, s2, s3]) == MixedColumn(s0, s1, s2, s3)
  {
    MulByTwo(s0);
    MulByTwo(s1);
    MulByTwo(s2);
    MulByTwo(s3);
    MulByThree(s0);
    MulByThree(s1);
    MulByThree(s2);
    MulByThree(s3);
  }

  /** Column `c` of MixColumns applied to a laid-out block is the mixed column `c` of the block. */
  lemma ColumnOfMix(a: seq<bv8>, c: int)
    requires |a| == 16 && 0 <= c < 4
    ensures Column(MixColumns(ToState(a)), c) == MixedColumn(a[4 * c], a[4 * c + 1], a[4 * c + 2], a[4 * c + 3])
  {
    var s0, s1, s2, s3 := a[4 * c], a[4 * c + 1], a[4 * c + 2], a[4 * c + 3];
    ToStateAt(a, 0, c);
    ToStateAt(a, 1, c);
    ToStateAt(a, 2, c);
    ToStateAt(a, 3, c);
    assert Column(ToState(a), c) == [s0, s1, s2, s3];
    MixColumnsColumnwise(ToState(a), c);
    MixColumnByXTime(s0, s1, s2, s3);
  }

  /** A state whose columns are the four-byte groups of `bytes` is their layout. */
  lemma CellsFromColumns(m: StateMatrix, bytes: seq<bv8>)
    requires IsState(m) && |bytes| == 16
    requires Column(m, 0) == bytes[0..4] && Column(m, 1) == bytes[4..8]
    requires Column(m, 2) == bytes[8..12] && Column(m, 3) == bytes[12..16]
    ensures m == ToState(bytes)
  {
    forall r, c | 0 <= r < 4 && 0 <= c < 4
      ensures m[r][c] == bytes[4 * c + r]
    {
      assert Column(m, c) == bytes[4 * c..4 * c + 4];
      assert m[r][c] == Column(m, c)[r];
    }
    CellsMatch(m, bytes);
  }

  /**
   * MixColumns of a laid-out block is the layout of `b` when each column of
   * `b` (four consecutive bytes) is the mixed column of `a`.
   */
  lemma MixColumnsByColumns(a: seq<bv8>, b: seq<bv8>)
    requires |a| == 16 && |b| == 16
    requires MixedColumn(a[0], a[1], a[2], a[3]) == b[0..4]
    requires MixedColumn(a[4], a[5], a[6], a[7]) == b[4..8]
    requires MixedColumn(a[8], a[9], a[10], a[11]) == b[8..12]
    requires MixedColumn(a[12], a[13], a[14], a[15]) == b[12..16]
    ensures MixColumns(ToState(a)) == ToState(b)
  {
    ColumnOfMix(a, 0);
    ColumnOfMix(a, 1);
    ColumnOfMix(a, 2);
    ColumnOfMix(a, 3);
    CellsFromColumns(MixColumns(ToState(a)), b);
  }

  /** AddRoundKey of a laid-out block is the layout of the XOR of the two blocks. */
  lemma AddRoundKeyBlock(a: seq<bv8>, k: seq<bv8>)
    requires |a| == 16 && |k| == 16
    ensures AddRoundKey(ToState(a), k) == ToState(XorBlock(a, k))
  {
    var m := AddRoundKey(ToState(a), k);
    forall r, c | 0 <= r < 4 && 0 <= c < 4
      ensures m[r][c] == XorBlock(a, k)[4 * c + r]
    {
      ToStateAt(a, r, c);
      ToStateAt(k, r, c);
    }
    CellsMatch(m, XorBlock(a, k));
  }




  /* ---------------- The key schedule of the example ---------------- */

  /** Round key 0 is the key itself. */
  lemma KnownRoundKey0()
    ensures RoundKey(ExpandKey(KEY), 0) == KEY
  {
  }

  /** The S-box entries that round key 1 looks up. */
  lemma KeyStep1SBox()
    ensures SBox(0x0d) == 0xd7 && SBox(0x0e) == 0xab &&
      SBox(0x0f) == 0x76 && SBox(0x0c) == 0xfe
  {
  }

  /** The word that opens round key 1: the last word of round key 0 rotated, substituted and with its round constant added. */
  lemma KeyStep1Temp()
    ensures KeyTemp(SBox, [0x0c, 0x0d, 0x0e, 0x0f], 16) == [0xd6, 0xab, 0x76, 0xfe]
  {
    KeyStep1SBox();
  }

  /** Round key 1 of the example from round key 0. */
  lemma KeyStep1()
    ensures NextRoundKey(SBox, [0x00, 0x01, 0x02, 0x03, 0x04, 0x05, 0x06, 0x07,
                                0x08, 0x09, 0x0a, 0x0b, 0x0c, 0x0d, 0x0e, 0x0f], 1)
         == [0xd6, 0xaa, 0x74, 0xfd, 0xd2, 0xaf, 0x72, 0xfa,
             0xda, 0xa6, 0x78, 0xf1, 0xd6, 0xab, 0x76, 0xfe]
  {
    var prev := [0x00, 0x01, 0x02, 0x03, 0x04, 0x05, 0x06, 0x07,
                 0x08, 0x09, 0x0a, 0x0b, 0x0c, 0x0d, 0x0e, 0x0f];
    assert prev[12..16] == [0x0c, 0x0d, 0x0e, 0x0f];
    KeyStep1Temp();
    var w0 := XorWord(prev[0..4], [0xd6, 0xab, 0x76, 0xfe]);
    assert w0 == [0xd6, 0xaa, 0x74, 0xfd];
    var w1 := XorWord(prev[4..8], w0);
    assert w1 == [0xd2, 0xaf, 0x72, 0xfa];
    var w2 := XorWord(prev[8..12], w1);
    assert w2 == [0xda, 0xa6, 0x78, 0xf1];
    var w3 := XorWord(prev[12..16], w2);
    assert w3 == [0xd6, 0xab, 0x76, 0xfe];
  }

  /** Round key 1 of the expanded example key. */
  lemma KnownRoundKey1()
    ensures RoundKey(ExpandKey(KEY), 1) == [0xd6, 0xaa, 0x74, 0xfd, 0xd2, 0xaf, 0x72, 0xfa,
                                            0xda, 0xa6, 0x78, 0xf1, 0xd6, 0xab, 0x76, 0xfe]
  {
    KnownRoundKey0();
    ExpandKeyIsSchedule(KEY);
    RoundKeyFromPrevious(SBox, ExpandKey(KEY), 1);
    KeyStep1();
  }

  /** The S-box entries that round key 2 looks up. */
  lemma KeyStep2SBox()
    ensures SBox(0xab) == 0x62 && SBox(0x76) == 0x38 &&
      SBox(0xfe) == 0xbb && SBox(0xd6) == 0xf6
  {
  }

  /** The word that opens round key 2: the last word of round key 1 rotated, substituted and with its round constant added. */
  lemma KeyStep2Temp()
    ensures KeyTemp(SBox, [0xd6, 0xab, 0x76, 0xfe], 32) == [0x60, 0x38, 0xbb, 0xf6]
  {
    KeyStep2SBox();
  }

  /** Round key 2 of the example from round key 1. */
  lemma KeyStep2()
    ensures NextRoundKey(SBox, [0xd6, 0xaa, 0x74, 0xfd, 0xd2, 0xaf, 0x72, 0xfa,
                                0xda, 0xa6, 0x78, 0xf1, 0xd6, 0xab, 0x76, 0xfe], 2)
         == [0xb6, 0x92, 0xcf, 0x0b, 0x64, 0x3d, 0xbd, 0xf1,
             0xbe, 0x9b, 0xc5, 0x00, 0x68, 0x30, 0xb3, 0xfe]
  {
    var prev := [0xd6, 0xaa, 0x74, 0xfd, 0xd2, 0xaf, 0x72, 0xfa,
                 0xda, 0xa6, 0x78, 0xf1, 0xd6, 0xab, 0x76, 0xfe];
    assert prev[12..16] == [0xd6, 0xab, 0x76, 0xfe];
    KeyStep2Temp();
    var w0 := XorWord(prev[0..4], [0x60, 0x38, 0xbb, 0xf6]);
    assert w0 == [0xb6, 0x92, 0xcf, 0x0b];
    var w1 := XorWord(prev[4..8], w0);
    assert w1 == [0x64, 0x3d, 0xbd, 0xf1];
    var w2 := XorWord(prev[8..12], w1);
    assert w2 == [0xbe, 0x9b, 0xc5, 0x00];
    var w3 := XorWord(prev[12..16], w2);
    assert w3 == [0x68, 0x30, 0xb3, 0xfe];
  }

  /** Round key 2 of the expanded example key. */
  lemma KnownRoundKey2()
    ensures RoundKey(ExpandKey(KEY), 2) == [0xb6, 0x92, 0xcf, 0x0b, 0x64, 0x3d, 0xbd, 0xf1,
                                            0xbe, 0x9b, 0xc5, 0x00, 0x68, 0x30, 0xb3, 0xfe]
  {
    KnownRoundKey1();
    ExpandKeyIsSchedule(KEY);
    RoundKeyFromPrevious(SBox, ExpandKey(KEY), 2);
    KeyStep2();
  }

  /** The S-box entries that round key 3 looks up. */
  lemma KeyStep3SBox()
    ensures SBox(0x30) == 0x04 && SBox(0xb3) == 0x6d &&
      SBox(0xfe) == 0xbb && SBox(0x68) == 0x45
  {
  }

  /** The word that opens round key 3: the last word of round key 2 rotated, substituted and with its round constant added. */
  lemma KeyStep3Temp()
    ensures KeyTemp(SBox, [0x68, 0x30, 0xb3, 0xfe], 48) == [0x00, 0x6d, 0xbb, 0x45]
  {
    KeyStep3SBox();
  }

  /** Round key 3 of the example from round key 2. */
  lemma KeyStep3()
    ensures NextRoundKey(SBox, [0xb6, 0x92, 0xcf, 0x0b, 0x64, 0x3d, 0xbd, 0xf1,
                                0xbe, 0x9b, 0xc5, 0x00, 0x68, 0x30, 0xb3, 0xfe], 3)
         == [0xb6, 0xff, 0x74, 0x4e, 0xd2, 0xc2, 0xc9, 0xbf,
             0x6c, 0x59, 0x0c, 0xbf, 0x04, 0x69, 0xbf, 0x41]
  {
    var prev := [0xb6, 0x92, 0xcf, 0x0b, 0x64, 0x3d, 0xbd, 0xf1,
                 0xbe, 0x9b, 0xc5, 0x00, 0x68, 0x30, 0xb3, 0xfe];
    assert prev[12..16] == [0x68, 0x30, 0xb3, 0xfe];
    KeyStep3Temp();
    var w0 := XorWord(prev[0..4], [0x00, 0x6d, 0xbb, 0x45]);
    assert w0 == [0xb6, 0xff, 0x74, 0x4e];
    var w1 := XorWord(prev[4..8], w0);
    assert w1 == [0xd2, 0xc2, 0xc9, 0xbf];
    var w2 := XorWord(prev[8..12], w1);
    assert w2 == [0x6c, 0x59, 0x0c, 0xbf];
    var w3 := XorWord(prev[12..16], w2);
    assert w3 == [0x04, 0x69, 0xbf, 0x41];
  }

  /** Round key 3 of the expanded example key. */
  lemma KnownRoundKey3()
    ensures RoundKey(ExpandKey(KEY), 3) == [0xb6, 0xff, 0x74, 0x4e, 0xd2, 0xc2, 0xc9, 0xbf,
                                            0x6c, 0x59, 0x0c, 0xbf, 0x04, 0x69, 0xbf, 0x41]
  {
    KnownRoundKey2();
    ExpandKeyIsSchedule(KEY);
    RoundKeyFromPrevious(SBox, ExpandKey(KEY), 3);
    KeyStep3();
  }

  /** The S-box entries that round key 4 looks up. */
  lemma KeyStep4SBox()
    ensures SBox(0x69) == 0xf9 && SBox(0xbf) == 0x08 &&
      SBox(0x41) == 0x83 && SBox(0x04) == 0xf2
  {
  }

  /** The word that opens round key 4: the last word of round key 3 rotated, substituted and with its round constant added. */
  lemma KeyStep4Temp()
    ensures KeyTemp(SBox, [0x04, 0x69, 0xbf, 0x41], 64) == [0xf1, 0x08, 0x83, 0xf2]
  {
    KeyStep4SBox();
  }

  /** Round key 4 of the example from round key 3. */
  lemma KeyStep4()
    ensures NextRoundKey(SBox, [0xb6, 0xff, 0x74, 0x4e, 0xd2, 0xc2, 0xc9, 0xbf,
                                0x6c, 0x59, 0x0c, 0xbf, 0x04, 0x69, 0xbf, 0x41], 4)
         == [0x47, 0xf7, 0xf7, 0xbc, 0x95, 0x35, 0x3e, 0x03,
             0xf9, 0x6c, 0x32, 0xbc, 0xfd, 0x05, 0x8d, 0xfd]
  {
    var prev := [0xb6, 0xff, 0x74, 0x4e, 0xd2, 0xc2, 0xc9, 0xbf,
                 0x6c, 0x59, 0x0c, 0xbf, 0x04, 0x69, 0xbf, 0x41];
    assert prev[12..16] == [0x04, 0x69, 0xbf, 0x41];
    KeyStep4Temp();
    var w0 := XorWord(prev[0..4], [0xf1, 0x08, 0x83, 0xf2]);
    assert w0 == [0x47, 0xf7, 0xf7, 0xbc];
    var w1 := XorWord(prev[4..8], w0);
    assert w1 == [0x95, 0x35, 0x3e, 0x03];
    var w2 := XorWord(prev[8..12], w1);
    assert w2 == [0xf9, 0x6c, 0x32, 0xbc];
    var w3 := XorWord(prev[12..16], w2);
    assert w3 == [0xfd, 0x05, 0x8d, 0xfd];
  }

  /** Round key 4 of the expanded example key. */
  lemma KnownRoundKey4()
    ensures RoundKey(ExpandKey(KEY), 4) == [0x47, 0xf7, 0xf7, 0xbc, 0x95, 0x35, 0x3e, 0x03,
                                            0xf9, 0x6c, 0x32, 0xbc, 0xfd, 0x05, 0x8d, 0xfd]
  {
    KnownRoundKey3();
    ExpandKeyIsSchedule(KEY);
    RoundKeyFromPrevious(SBox, ExpandKey(KEY), 4);
    KeyStep4();
  }

  /** The S-box entries that round key 5 looks up. */
  lemma KeyStep5SBox()
    ensures SBox(0x05) == 0x6b && SBox(0x8d) == 0x5d &&
      SBox(0xfd) == 0x54 && SBox(0xfd) == 0x54
  {
  }

  /** The word that opens round key 5: the last word of round key 4 rotated, substituted and with its round constant added. */
  lemma KeyStep5Temp()
    ensures KeyTemp(SBox, [0xfd, 0x05, 0x8d, 0xfd], 80) == [0x7b, 0x5d, 0x54, 0x54]
  {
    KeyStep5SBox();
  }

  /** Round key 5 of the example from round key 4. */
  lemma KeyStep5()
    ensures NextRoundKey(SBox, [0x47, 0xf7, 0xf7, 0xbc, 0x95, 0x35, 0x3e, 0x03,
                                0xf9, 0x6c, 0x32, 0xbc, 0xfd, 0x05, 0x8d, 0xfd], 5)
         == [0x3c, 0xaa, 0xa3, 0xe8, 0xa9, 0x9f, 0x9d, 0xeb,
             0x50, 0xf3, 0xaf, 0x57, 0xad, 0xf6, 0x22, 0xaa]
  {
    var prev := [0x47, 0xf7, 0xf7, 0xbc, 0x95, 0x35, 0x3e, 0x03,
                 0xf9, 0x6c, 0x32, 0xbc, 0xfd, 0x05, 0x8d, 0xfd];
    assert prev[12..16] == [0xfd, 0x05, 0x8d, 0xfd];
    KeyStep5Temp();
    var w0 := XorWord(prev[0..4], [0x7b, 0x5d, 0x54, 0x54]);
    assert w0 == [0x3c, 0xaa, 0xa3, 0xe8];
    var w1 := XorWord(prev[4..8], w0);
    assert w1 == [0xa9, 0x9f, 0x9d, 0xeb];
    var w2 := XorWord(prev[8..12], w1);
    assert w2 == [0x50, 0xf3, 0xaf, 0x57];
    var w3 := XorWord(prev[12..16], w2);
    assert w3 == [0xad, 0xf6, 0x22, 0xaa];
  }

  /** Round key 5 of the expanded example key. */
  lemma KnownRoundKey5()
    ensures RoundKey(ExpandKey(KEY), 5) == [0x3c, 0xaa, 0xa3, 0xe8, 0xa9, 0x9f, 0x9d, 0xeb,
                                            0x50, 0xf3, 0xaf, 0x57, 0xad, 0xf6, 0x22, 0xaa]
  {
    KnownRoundKey4();
    ExpandKeyIsSchedule(KEY);
    RoundKeyFromPrevious(SBox, ExpandKey(KEY), 5);
    KeyStep5();
  }

  /** The S-box entries that round key 6 looks up. */
  lemma KeyStep6SBox()
    ensures SBox(0xf6) == 0x42 && SBox(0x22) == 0x93 &&
      SBox(0xaa) == 0xac && SBox(0xad) == 0x95
  {
  }

  /** The word that opens round key 6: the last word of round key 5 rotated, substituted and with its round constant added. */
  lemma KeyStep6Temp()
    ensures KeyTemp(SBox, [0xad, 0xf6, 0x22, 0xaa], 96) == [0x62, 0x93, 0xac, 0x95]
  {
    KeyStep6SBox();
  }

  /** Round key 6 of the example from round key 5. */
  lemma KeyStep6()
    ensures NextRoundKey(SBox, [0x3c, 0xaa, 0xa3, 0xe8, 0xa9, 0x9f, 0x9d, 0xeb,
                                0x50, 0xf3, 0xaf, 0x57, 0xad, 0xf6, 0x22, 0xaa], 6)
         == [0x5e, 0x39, 0x0f, 0x7d, 0xf7, 0xa6, 0x92, 0x96,
             0xa7, 0x55, 0x3d, 0xc1, 0x0a, 0xa3, 0x1f, 0x6b]
  {
    var prev := [0x3c, 0xaa, 0xa3, 0xe8, 0xa9, 0x9f, 0x9d, 0xeb,
                 0x50, 0xf3, 0xaf, 0x57, 0xad, 0xf6, 0x22, 0xaa];
    assert prev[12..16] == [0xad, 0xf6, 0x22, 0xaa];
    KeyStep6Temp();
    var w0 := XorWord(prev[0..4], [0x62, 0x93, 0xac, 0x95]);
    assert w0 == [0x5e, 0x39, 0x0f, 0x7d];
    var w1 := XorWord(prev[4..8], w0);
    assert w1 == [0xf7, 0xa6, 0x92, 0x96];
    var w2 := XorWord(prev[8..12], w1);
    assert w2 == [0xa7, 0x55, 0x3d, 0xc1];
    var w3 := XorWord(prev[12..16], w2);
    assert w3 == [0x0a, 0xa3, 0x1f, 0x6b];
  }

  /** Round key 6 of the expanded example key. */
  lemma KnownRoundKey6()
    ensures RoundKey(ExpandKey(KEY), 6) == [0x5e, 0x39, 0x0f, 0x7d, 0xf7, 0xa6, 0x92, 0x96,
                                            0xa7, 0x55, 0x3d, 0xc1, 0x0a, 0xa3, 0x1f, 0x6b]
  {
    KnownRoundKey5();
    ExpandKeyIsSchedule(KEY);
    RoundKeyFromPrevious(SBox, ExpandKey(KEY), 6);
    KeyStep6();
  }

  /** The S-box entries that round key 7 looks up. */
  lemma KeyStep7SBox()
    ensures SBox(0xa3) == 0x0a && SBox(0x1f) == 0xc0 &&
      SBox(0x6b) == 0x7f && SBox(0x0a) == 0x67
  {
  }

  /** The word that opens round key 7: the last word of round key 6 rotated, substituted and with its round constant added. */
  lemma KeyStep7Temp()
    ensures KeyTemp(SBox, [0x0a, 0xa3, 0x1f, 0x6b], 112) == [0x4a, 0xc0, 0x7f, 0x67]
  {
    KeyStep7SBox();
  }

  /** Round key 7 of the example from round key 6. */
  lemma KeyStep7()
    ensures NextRoundKey(SBox, [0x5e, 0x39, 0x0f, 0x7d, 0xf7, 0xa6, 0x92, 0x96,
                                0xa7, 0x55, 0x3d, 0xc1, 0x0a, 0xa3, 0x1f, 0x6b], 7)
         == [0x14, 0xf9, 0x70, 0x1a, 0xe3, 0x5f, 0xe2, 0x8c,
             0x44, 0x0a, 0xdf, 0x4d, 0x4e, 0xa9, 0xc0, 0x26]
  {
    var prev := [0x5e, 0x39, 0x0f, 0x7d, 0xf7, 0xa6, 0x92, 0x96,
                 0xa7, 0x55, 0x3d, 0xc1, 0x0a, 0xa3, 0x1f, 0x6b];
    assert prev[12..16] == [0x0a, 0xa3, 0x1f, 0x6b];
    KeyStep7Temp();
    var w0 := XorWord(prev[0..4], [0x4a, 0xc0, 0x7f, 0x67]);
    assert w0 == [0x14, 0xf9, 0x70, 0x1a];
    var w1 := XorWord(prev[4..8], w0);
    assert w1 == [0xe3, 0x5f, 0xe2, 0x8c];
    var w2 := XorWord(prev[8..12], w1);
    assert w2 == [0x44, 0x0a, 0xdf, 0x4d];
    var w3 := XorWord(prev[12..16], w2);
    assert w3 == [0x4e, 0xa9, 0xc0, 0x26];
  }

  /** Round key 7 of the expanded example key. */
  lemma KnownRoundKey7()
    ensures RoundKey(ExpandKey(KEY), 7) == [0x14, 0xf9, 0x70, 0x1a, 0xe3, 0x5f, 0xe2, 0x8c,
                                            0x44, 0x0a, 0xdf, 0x4d, 0x4e, 0xa9, 0xc0, 0x26]
  {
    KnownRoundKey6();
    ExpandKeyIsSchedule(KEY);
    RoundKeyFromPrevious(SBox, ExpandKey(KEY), 7);
    KeyStep7();
  }

  /** The S-box entries that round key 8 looks up. */
  lemma KeyStep8SBox()
    ensures SBox(0xa9) == 0xd3 && SBox(0xc0) == 0xba &&
      SBox(0x26) == 0xf7 && SBox(0x4e) == 0x2f
  {
  }

  /** The word that opens round key 8: the last word of round key 7 rotated, substituted and with its round constant added. */
  lemma KeyStep8Temp()
    ensures KeyTemp(SBox, [0x4e, 0xa9, 0xc0, 0x26], 128) == [0x53, 0xba, 0xf7, 0x2f]
  {
    KeyStep8SBox();
  }

  /** Round key 8 of the example from round key 7. */
  lemma KeyStep8()
    ensures NextRoundKey(SBox, [0x14, 0xf9, 0x70, 0x1a, 0xe3, 0x5f, 0xe2, 0x8c,
                                0x44, 0x0a, 0xdf, 0x4d, 0x4e, 0xa9, 0xc0, 0x26], 8)
         == [0x47, 0x43, 0x87, 0x35, 0xa4, 0x1c, 0x65, 0xb9,
             0xe0, 0x16, 0xba, 0xf4, 0xae, 0xbf, 0x7a, 0xd2]
  {
    var prev := [0x14, 0xf9, 0x70, 0x1a, 0xe3, 0x5f, 0xe2, 0x8c,
                 0x44, 0x0a, 0xdf, 0x4d, 0x4e, 0xa9, 0xc0, 0x26];
    assert prev[12..16] == [0x4e, 0xa9, 0xc0, 0x26];
    KeyStep8Temp();
    var w0 := XorWord(prev[0..4], [0x53, 0xba, 0xf7, 0x2f]);
    assert w0 == [0x47, 0x43, 0x87, 0x35];
    var w1 := XorWord(prev[4..8], w0);
    assert w1 == [0xa4, 0x1c, 0x65, 0xb9];
    var w2 := XorWord(prev[8..12], w1);
    assert w2 == [0xe0, 0x16, 0xba, 0xf4];
    var w3 := XorWord(prev[12..16], w2);
    assert w3 == [0xae, 0xbf, 0x7a, 0xd2];
  }

  /** Round key 8 of the expanded example key. */
  lemma KnownRoundKey8()
    ensures RoundKey(ExpandKey(KEY), 8) == [0x47, 0x43, 0x87, 0x35, 0xa4, 0x1c, 0x65, 0xb9,
                                            0xe0, 0x16, 0xba, 0xf4, 0xae, 0xbf, 0x7a, 0xd2]
  {
    KnownRoundKey7();
    ExpandKeyIsSchedule(KEY);
    RoundKeyFromPrevious(SBox, ExpandKey(KEY), 8);
    KeyStep8();
  }

  /** The S-box entries that round key 9 looks up. */
  lemma KeyStep9SBox()
    ensures SBox(0xbf) == 0x08 && SBox(0x7a) == 0xda &&
      SBox(0xd2) == 0xb5 && SBox(0xae) == 0xe4
  {
  }

  /** The word that opens round key 9: the last word of round key 8 rotated, substituted and with its round constant added. */
  lemma KeyStep9Temp()
    ensures KeyTemp(SBox, [0xae, 0xbf, 0x7a, 0xd2], 144) == [0x13, 0xda, 0xb5, 0xe4]
  {
    KeyStep9SBox();
  }

  /** Round key 9 of the example from round key 8. */
  lemma KeyStep9()
    ensures NextRoundKey(SBox, [0x47, 0x43, 0x87, 0x35, 0xa4, 0x1c, 0x65, 0xb9,
                                0xe0, 0x16, 0xba, 0xf4, 0xae, 0xbf, 0x7a, 0xd2], 9)
         == [0x54, 0x99, 0x32, 0xd1, 0xf0, 0x85, 0x57, 0x68,
             0x10, 0x93, 0xed, 0x9c, 0xbe, 0x2c, 0x97, 0x4e]
  {
    var prev := [0x47, 0x43, 0x87, 0x35, 0xa4, 0x1c, 0x65, 0xb9,
                 0xe0, 0x16, 0xba, 0xf4, 0xae, 0xbf, 0x7a, 0xd2];
    assert prev[12..16] == [0xae, 0xbf, 0x7a, 0xd2];
    KeyStep9Temp();
    var w0 := XorWord(prev[0..4], [0x13, 0xda, 0xb5, 0xe4]);
    assert w0 == [0x54, 0x99, 0x32, 0xd1];
    var w1 := XorWord(prev[4..8], w0);
    assert w1 == [0xf0, 0x85, 0x57, 0x68];
    var w2 := XorWord(prev[8..12], w1);
    assert w2 == [0x10, 0x93, 0xed, 0x9c];
    var w3 := XorWord(prev[12..16], w2);
    assert w3 == [0xbe, 0x2c, 0x97, 0x4e];
  }

  /** Round key 9 of the expanded example key. */
  lemma KnownRoundKey9()
    ensures RoundKey(ExpandKey(KEY), 9) == [0x54, 0x99, 0x32, 0xd1, 0xf0, 0x85, 0x57, 0x68,
                                            0x10, 0x93, 0xed, 0x9c, 0xbe, 0x2c, 0x97, 0x4e]
  {
    KnownRoundKey8();
    ExpandKeyIsSchedule(KEY);
    RoundKeyFromPrevious(SBox, ExpandKey(KEY), 9);
    KeyStep9();
  }

  /** The S-box entries that round key 10 looks up. */
  lemma KeyStep10SBox()
    ensures SBox(0x2c) == 0x71 && SBox(0x97) == 0x88 &&
      SBox(0x4e) == 0x2f && SBox(0xbe) == 0xae
  {
  }

  /** The word that opens round key 10: the last word of round key 9 rotated, substituted and with its round constant added. */
  lemma KeyStep10Temp()
    ensures KeyTemp(SBox, [0xbe, 0x2c, 0x97, 0x4e], 160) == [0x47, 0x88, 0x2f, 0xae]
  {
    KeyStep10SBox();
  }

  /** Round key 10 of the example from round key 9. */
  lemma KeyStep10()
    ensures NextRoundKey(SBox, [0x54, 0x99, 0x32, 0xd1, 0xf0, 0x85, 0x57, 0x68,
                                0x10, 0x93, 0xed, 0x9c, 0xbe, 0x2c, 0x97, 0x4e], 10)
         == [0x13, 0x11, 0x1d, 0x7f, 0xe3, 0x94, 0x4a, 0x17,
             0xf3, 0x07, 0xa7, 0x8b, 0x4d, 0x2b, 0x30, 0xc5]
  {
    var prev := [0x54, 0x99, 0x32, 0xd1, 0xf0, 0x85, 0x57, 0x68,
                 0x10, 0x93, 0xed, 0x9c, 0xbe, 0x2c, 0x97, 0x4e];
    assert prev[12..16] == [0xbe, 0x2c, 0x97, 0x4e];
    KeyStep10Temp();
    var w0 := XorWord(prev[0..4], [0x47, 0x88, 0x2f, 0xae]);
    assert w0 == [0x13, 0x11, 0x1d, 0x7f];
    var w1 := XorWord(prev[4..8], w0);
    assert w1 == [0xe3, 0x94, 0x4a, 0x17];
    var w2 := XorWord(prev[8..12], w1);
    assert w2 == [0xf3, 0x07, 0xa7, 0x8b];
    var w3 := XorWord(prev[12..16], w2);
    assert w3 == [0x4d, 0x2b, 0x30, 0xc5];
  }

  /** Round key 10 of the expanded example key. */
  lemma KnownRoundKey10()
    ensures RoundKey(ExpandKey(KEY), 10) == [0x13, 0x11, 0x1d, 0x7f, 0xe3, 0x94, 0x4a, 0x17,
                                             0xf3, 0x07, 0xa7, 0x8b, 0x4d, 0x2b, 0x30, 0xc5]
  {
    KnownRoundKey9();
    ExpandKeyIsSchedule(KEY);
    RoundKeyFromPrevious(SBox, ExpandKey(KEY), 10);
    KeyStep10();
  }

  /* ---------------- The rounds of the example ---------------- */

  /** The input row of round 1: the plaintext plus round key 0. */
  lemma AfterRounds0()
    ensures AfterRounds(ToState(PLAINTEXT), ExpandKey(KEY), 0)
         == ToState([0x00, 0x10, 0x20, 0x30, 0x40, 0x50, 0x60, 0x70,
                     0x80, 0x90, 0xa0, 0xb0, 0xc0, 0xd0, 0xe0, 0xf0])
  {
    KnownRoundKey0();
    AddRoundKeyBlock(PLAINTEXT, KEY);
    Spelled(XorBlock(PLAINTEXT, KEY));
    assert XorBlock(PLAINTEXT, KEY) == [0x00, 0x10, 0x20, 0x30, 0x40, 0x50, 0x60, 0x70,
                                        0x80, 0x90, 0xa0, 0xb0, 0xc0, 0xd0, 0xe0, 0xf0];
  }

  /** The S-box entries that round 1 looks up for column 0. */
  lemma Round1SBoxColumn0()
    ensures SBox(0x00) == 0x63 && SBox(0x10) == 0xca &&
      SBox(0x20) == 0xb7 && SBox(0x30) == 0x04
  {
  }

  /** The S-box entries that round 1 looks up for column 1. */
  lemma Round1SBoxColumn1()
    ensures SBox(0x40) == 0x09 && SBox(0x50) == 0x53 &&
      SBox(0x60) == 0xd0 && SBox(0x70) == 0x51
  {
  }

  /** The S-box entries that round 1 looks up for column 2. */
  lemma Round1SBoxColumn2()
    ensures SBox(0x80) == 0xcd && SBox(0x90) == 0x60 &&
      SBox(0xa0) == 0xe0 && SBox(0xb0) == 0xe7
  {
  }

  /** The S-box entries that round 1 looks up for column 3. */
  lemma Round1SBoxColumn3()
    ensures SBox(0xc0) == 0xba && SBox(0xd0) == 0x70 &&
      SBox(0xe0) == 0xe1 && SBox(0xf0) == 0x8c
  {
  }

  /** Round 1: the rows "start of round" and "after SubBytes". */
  lemma Round1Sub()
    ensures SubBytes(ToState([0x00, 0x10, 0x20, 0x30, 0x40, 0x50, 0x60, 0x70,
                              0x80, 0x90, 0xa0, 0xb0, 0xc0, 0xd0, 0xe0, 0xf0]))
         == ToState([0x63, 0xca, 0xb7, 0x04, 0x09, 0x53, 0xd0, 0x51,
                     0xcd, 0x60, 0xe0, 0xe7, 0xba, 0x70, 0xe1, 0x8c])
  {
    var start := [0x00, 0x10, 0x20, 0x30, 0x40, 0x50, 0x60, 0x70,
                  0x80, 0x90, 0xa0, 0xb0, 0xc0, 0xd0, 0xe0, 0xf0];
    SubBytesBlock(start);
    Spelled(SubBlock(SBox, start));
    assert SubBlock(SBox, start) == [SBox(0x00), SBox(0x10), SBox(0x20), SBox(0x30),
                                     SBox(0x40), SBox(0x50), SBox(0x60), SBox(0x70),
                                     SBox(0x80), SBox(0x90), SBox(0xa0), SBox(0xb0),
                                     SBox(0xc0), SBox(0xd0), SBox(0xe0), SBox(0xf0)];
    Round1SBoxColumn0();
    Round1SBoxColumn1();
    Round1SBoxColumn2();
    Round1SBoxColumn3();
  }

  /** Round 1: the row "after ShiftRows". */
  lemma Round1Shift()
    ensures ShiftRows(ToState([0x63, 0xca, 0xb7, 0x04, 0x09, 0x53, 0xd0, 0x51,
                               0xcd, 0x60, 0xe0, 0xe7, 0xba, 0x70, 0xe1, 0x8c]))
         == ToState([0x63, 0x53, 0xe0, 0x8c, 0x09, 0x60, 0xe1, 0x04,
                     0xcd, 0x70, 0xb7, 0x51, 0xba, 0xca, 0xd0, 0xe7])
  {
    var substituted := [0x63, 0xca, 0xb7, 0x04, 0x09, 0x53, 0xd0, 0x51,
                        0xcd, 0x60, 0xe0, 0xe7, 0xba, 0x70, 0xe1, 0x8c];
    ShiftRowsBlock(substituted);
    ShiftBlockBytes(substituted);
    assert ShiftBlock(substituted) == [0x63, 0x53, 0xe0, 0x8c, 0x09, 0x60, 0xe1, 0x04,
                                       0xcd, 0x70, 0xb7, 0x51, 0xba, 0xca, 0xd0, 0xe7];
  }

  /** Round 1: the four columns through the column mix. */
  lemma Round1MixedColumns()
    ensures MixedColumn(0x63, 0x53, 0xe0, 0x8c) == [0x5f, 0x72, 0x64, 0x15] &&
      MixedColumn(0x09, 0x60, 0xe1, 0x04) == [0x57, 0xf5, 0xbc, 0x92] &&
      MixedColumn(0xcd, 0x70, 0xb7, 0x51) == [0xf7, 0xbe, 0x3b, 0x29] &&
      MixedColumn(0xba, 0xca, 0xd0, 0xe7) == [0x1d, 0xb9, 0xf9, 0x1a]
  {
  }

  /** Round 1: the row "after MixColumns". */
  lemma Round1Mix()
    ensures MixColumns(ToState([0x63, 0x53, 0xe0, 0x8c, 0x09, 0x60, 0xe1, 0x04,
                                0xcd, 0x70, 0xb7, 0x51, 0xba, 0xca, 0xd0, 0xe7]))
         == ToState([0x5f, 0x72, 0x64, 0x15, 0x57, 0xf5, 0xbc, 0x92,
                     0xf7, 0xbe, 0x3b, 0x29, 0x1d, 0xb9, 0xf9, 0x1a])
  {
    var shifted := [0x63, 0x53, 0xe0, 0x8c, 0x09, 0x60, 0xe1, 0x04,
                    0xcd, 0x70, 0xb7, 0x51, 0xba, 0xca, 0xd0, 0xe7];
    var mixed := [0x5f, 0x72, 0x64, 0x15, 0x57, 0xf5, 0xbc, 0x92,
                  0xf7, 0xbe, 0x3b, 0x29, 0x1d, 0xb9, 0xf9, 0x1a];
    Round1MixedColumns();
    MixColumnsByColumns(shifted, mixed);
  }

  /** Round 1: the row "round key value" and the start of round 2. */
  lemma Round1Add()
    ensures AddRoundKey(ToState([0x5f, 0x72, 0x64, 0x15, 0x57, 0xf5, 0xbc, 0x92,
                                 0xf7, 0xbe, 0x3b, 0x29, 0x1d, 0xb9, 0xf9, 0x1a]),
                        [0xd6, 0xaa, 0x74, 0xfd, 0xd2, 0xaf, 0x72, 0xfa,
                         0xda, 0xa6, 0x78, 0xf1, 0xd6, 0xab, 0x76, 0xfe])
         == ToState([0x89, 0xd8, 0x10, 0xe8, 0x85, 0x5a, 0xce, 0x68,
                     0x2d, 0x18, 0x43, 0xd8, 0xcb, 0x12, 0x8f, 0xe4])
  {
    var mixed := [0x5f, 0x72, 0x64, 0x15, 0x57, 0xf5, 0xbc, 0x92,
                  0xf7, 0xbe, 0x3b, 0x29, 0x1d, 0xb9, 0xf9, 0x1a];
    var key := [0xd6, 0xaa, 0x74, 0xfd, 0xd2, 0xaf, 0x72, 0xfa,
                0xda, 0xa6, 0x78, 0xf1, 0xd6, 0xab, 0x76, 0xfe];
    AddRoundKeyBlock(mixed, key);
    Spelled(XorBlock(mixed, key));
  }

  /** Round 1 as a whole. */
  lemma Round1()
    ensures FullRound(ToState([0x00, 0x10, 0x20, 0x30, 0x40, 0x50, 0x60, 0x70,
                               0x80, 0x90, 0xa0, 0xb0, 0xc0, 0xd0, 0xe0, 0xf0]),
                      [0xd6, 0xaa, 0x74, 0xfd, 0xd2, 0xaf, 0x72, 0xfa,
                       0xda, 0xa6, 0x78, 0xf1, 0xd6, 0xab, 0x76, 0xfe])
         == ToState([0x89, 0xd8, 0x10, 0xe8, 0x85, 0x5a, 0xce, 0x68,
                     0x2d, 0x18, 0x43, 0xd8, 0xcb, 0x12, 0x8f, 0xe4])
  {
    Round1Sub();
    Round1Shift();
    Round1Mix();
    Round1Add();
  }

  /** The state of the example after round 1: the start of round 2. */
  lemma AfterRounds1()
    ensures AfterRounds(ToState(PLAINTEXT), ExpandKey(KEY), 1)
         == ToState([0x89, 0xd8, 0x10, 0xe8, 0x85, 0x5a, 0xce, 0x68,
                     0x2d, 0x18, 0x43, 0xd8, 0xcb, 0x12, 0x8f, 0xe4])
  {
    AfterRounds0();
    KnownRoundKey1();
    Round1();
  }

  /** The S-box entries that round 2 looks up for column 0. */
  lemma Round2SBoxColumn0()
    ensures SBox(0x89) == 0xa7 && SBox(0xd8) == 0x61 &&
      SBox(0x10) == 0xca && SBox(0xe8) == 0x9b
  {
  }

  /** The S-box entries that round 2 looks up for column 1. */
  lemma Round2SBoxColumn1()
    ensures SBox(0x85) == 0x97 && SBox(0x5a) == 0xbe &&
      SBox(0xce) == 0x8b && SBox(0x68) == 0x45
  {
  }

  /** The S-box entries that round 2 looks up for column 2. */
  lemma Round2SBoxColumn2()
    ensures SBox(0x2d) == 0xd8 && SBox(0x18) == 0xad &&
      SBox(0x43) == 0x1a && SBox(0xd8) == 0x61
  {
  }

  /** The S-box entries that round 2 looks up for column 3. */
  lemma Round2SBoxColumn3()
    ensures SBox(0xcb) == 0x1f && SBox(0x12) == 0xc9 &&
      SBox(0x8f) == 0x73 && SBox(0xe4) == 0x69
  {
  }

  /** Round 2: the rows "start of round" and "after SubBytes". */
  lemma Round2Sub()
    ensures SubBytes(ToState([0x89, 0xd8, 0x10, 0xe8, 0x85, 0x5a, 0xce, 0x68,
                              0x2d, 0x18, 0x43, 0xd8, 0xcb, 0x12, 0x8f, 0xe4]))
         == ToState([0xa7, 0x61, 0xca, 0x9b, 0x97, 0xbe, 0x8b, 0x45,
                     0xd8, 0xad, 0x1a, 0x61, 0x1f, 0xc9, 0x73, 0x69])
  {
    var start := [0x89, 0xd8, 0x10, 0xe8, 0x85, 0x5a, 0xce, 0x68,
                  0x2d, 0x18, 0x43, 0xd8, 0xcb, 0x12, 0x8f, 0xe4];
    SubBytesBlock(start);
    Spelled(SubBlock(SBox, start));
    assert SubBlock(SBox, start) == [SBox(0x89), SBox(0xd8), SBox(0x10), SBox(0xe8),
                                     SBox(0x85), SBox(0x5a), SBox(0xce), SBox(0x68),
                                     SBox(0x2d), SBox(0x18), SBox(0x43), SBox(0xd8),
                                     SBox(0xcb), SBox(0x12), SBox(0x8f), SBox(0xe4)];
    Round2SBoxColumn0();
    Round2SBoxColumn1();
    Round2SBoxColumn2();
    Round2SBoxColumn3();
  }

  /** Round 2: the row "after ShiftRows". */
  lemma Round2Shift()
    ensures ShiftRows(ToState([0xa7, 0x61, 0xca, 0x9b, 0x97, 0xbe, 0x8b, 0x45,
                               0xd8, 0xad, 0x1a, 0x61, 0x1f, 0xc9, 0x73, 0x69]))
         == ToState([0xa7, 0xbe, 0x1a, 0x69, 0x97, 0xad, 0x73, 0x9b,
                     0xd8, 0xc9, 0xca, 0x45, 0x1f, 0x61, 0x8b, 0x61])
  {
    var substituted := [0xa7, 0x61, 0xca, 0x9b, 0x97, 0xbe, 0x8b, 0x45,
                        0xd8, 0xad, 0x1a, 0x61, 0x1f, 0xc9, 0x73, 0x69];
    ShiftRowsBlock(substituted);
    ShiftBlockBytes(substituted);
    assert ShiftBlock(substituted) == [0xa7, 0xbe, 0x1a, 0x69, 0x97, 0xad, 0x73, 0x9b,
                                       0xd8, 0xc9, 0xca, 0x45, 0x1f, 0x61, 0x8b, 0x61];
  }

  /** Round 2: the four columns through the column mix. */
  lemma Round2MixedColumns()
    ensures MixedColumn(0xa7, 0xbe, 0x1a, 0x69) == [0xff, 0x87, 0x96, 0x84] &&
      MixedColumn(0x97, 0xad, 0x73, 0x9b) == [0x31, 0xd8, 0x6a, 0x51] &&
      MixedColumn(0xd8, 0xc9, 0xca, 0x45) == [0x64, 0x51, 0x51, 0xfa] &&
      MixedColumn(0x1f, 0x61, 0x8b, 0x61) == [0x77, 0x3a, 0xd0, 0x09]
  {
  }

  /** Round 2: the row "after MixColumns". */
  lemma Round2Mix()
    ensures MixColumns(ToState([0xa7, 0xbe, 0x1a, 0x69, 0x97, 0xad, 0x73, 0x9b,
                                0xd8, 0xc9, 0xca, 0x45, 0x1f, 0x61, 0x8b, 0x61]))
         == ToState([0xff, 0x87, 0x96, 0x84, 0x31, 0xd8, 0x6a, 0x51,
                     0x64, 0x51, 0x51, 0xfa, 0x77, 0x3a, 0xd0, 0x09])
  {
    var shifted := [0xa7, 0xbe, 0x1a, 0x69, 0x97, 0xad, 0x73, 0x9b,
                    0xd8, 0xc9, 0xca, 0x45, 0x1f, 0x61, 0x8b, 0x61];
    var mixed := [0xff, 0x87, 0x96, 0x84, 0x31, 0xd8, 0x6a, 0x51,
                  0x64, 0x51, 0x51, 0xfa, 0x77, 0x3a, 0xd0, 0x09];
    Round2MixedColumns();
    MixColumnsByColumns(shifted, mixed);
  }

  /** Round 2: the row "round key value" and the start of round 3. */
  lemma Round2Add()
    ensures AddRoundKey(ToState([0xff, 0x87, 0x96, 0x84, 0x31, 0xd8, 0x6a, 0x51,
                                 0x64, 0x51, 0x51, 0xfa, 0x77, 0x3a, 0xd0, 0x09]),
                        [0xb6, 0x92, 0xcf, 0x0b, 0x64, 0x3d, 0xbd, 0xf1,
                         0xbe, 0x9b, 0xc5, 0x00, 0x68, 0x30, 0xb3, 0xfe])
         == ToState([0x49, 0x15, 0x59, 0x8f, 0x55, 0xe5, 0xd7, 0xa0,
                     0xda, 0xca, 0x94, 0xfa, 0x1f, 0x0a, 0x63, 0xf7])
  {
    var mixed := [0xff, 0x87, 0x96, 0x84, 0x31, 0xd8, 0x6a, 0x51,
                  0x64, 0x51, 0x51, 0xfa, 0x77, 0x3a, 0xd0, 0x09];
    var key := [0xb6, 0x92, 0xcf, 0x0b, 0x64, 0x3d, 0xbd, 0xf1,
                0xbe, 0x9b, 0xc5, 0x00, 0x68, 0x30, 0xb3, 0xfe];
    AddRoundKeyBlock(mixed, key);
    Spelled(XorBlock(mixed, key));
  }

  /** Round 2 as a whole. */
  lemma Round2()
    ensures FullRound(ToState([0x89, 0xd8, 0x10, 0xe8, 0x85, 0x5a, 0xce, 0x68,
                               0x2d, 0x18, 0x43, 0xd8, 0xcb, 0x12, 0x8f, 0xe4]),
                      [0xb6, 0x92, 0xcf, 0x0b, 0x64, 0x3d, 0xbd, 0xf1,
                       0xbe, 0x9b, 0xc5, 0x00, 0x68, 0x30, 0xb3, 0xfe])
         == ToState([0x49, 0x15, 0x59, 0x8f, 0x55, 0xe5, 0xd7, 0xa0,
                     0xda, 0xca, 0x94, 0xfa, 0x1f, 0x0a, 0x63, 0xf7])
  {
    Round2Sub();
    Round2Shift();
    Round2Mix();
    Round2Add();
  }

  /** The state of the example after round 2: the start of round 3. */
  lemma AfterRounds2()
    ensures AfterRounds(ToState(PLAINTEXT), ExpandKey(KEY), 2)
         == ToState([0x49, 0x15, 0x59, 0x8f, 0x55, 0xe5, 0xd7, 0xa0,
                     0xda, 0xca, 0x94, 0xfa, 0x1f, 0x0a, 0x63, 0xf7])
  {
    AfterRounds1();
    KnownRoundKey2();
    Round2();
  }

  /** The S-box entries that round 3 looks up for column 0. */
  lemma Round3SBoxColumn0()
    ensures SBox(0x49) == 0x3b && SBox(0x15) == 0x59 &&
      SBox(0x59) == 0xcb && SBox(0x8f) == 0x73
  {
  }

  /** The S-box entries that round 3 looks up for column 1. */
  lemma Round3SBoxColumn1()
    ensures SBox(0x55) == 0xfc && SBox(0xe5) == 0xd9 &&
      SBox(0xd7) == 0x0e && SBox(0xa0) == 0xe0
  {
  }

  /** The S-box entries that round 3 looks up for column 2. */
  lemma Round3SBoxColumn2()
    ensures SBox(0xda) == 0x57 && SBox(0xca) == 0x74 &&
      SBox(0x94) == 0x22 && SBox(0xfa) == 0x2d
  {
  }

  /** The S-box entries that round 3 looks up for column 3. */
  lemma Round3SBoxColumn3()
    ensures SBox(0x1f) == 0xc0 && SBox(0x0a) == 0x67 &&
      SBox(0x63) == 0xfb && SBox(0xf7) == 0x68
  {
  }

  /** Round 3: the rows "start of round" and "after SubBytes". */
  lemma Round3Sub()
    ensures SubBytes(ToState([0x49, 0x15, 0x59, 0x8f, 0x55, 0xe5, 0xd7, 0xa0,
                              0xda, 0xca, 0x94, 0xfa, 0x1f, 0x0a, 0x63, 0xf7]))
         == ToState([0x3b, 0x59, 0xcb, 0x73, 0xfc, 0xd9, 0x0e, 0xe0,
                     0x57, 0x74, 0x22, 0x2d, 0xc0, 0x67, 0xfb, 0x68])
  {
    var start := [0x49, 0x15, 0x59, 0x8f, 0x55, 0xe5, 0xd7, 0xa0,
                  0xda, 0xca, 0x94, 0xfa, 0x1f, 0x0a, 0x63, 0xf7];
    SubBytesBlock(start);
    Spelled(SubBlock(SBox, start));
    assert SubBlock(SBox, start) == [SBox(0x49), SBox(0x15), SBox(0x59), SBox(0x8f),
                                     SBox(0x55), SBox(0xe5), SBox(0xd7), SBox(0xa0),
                                     SBox(0xda), SBox(0xca), SBox(0x94), SBox(0xfa),
                                     SBox(0x1f), SBox(0x0a), SBox(0x63), SBox(0xf7)];
    Round3SBoxColumn0();
    Round3SBoxColumn1();
    Round3SBoxColumn2();
    Round3SBoxColumn3();
  }

  /** Round 3: the row "after ShiftRows". */
  lemma Round3Shift()
    ensures ShiftRows(ToState([0x3b, 0x59, 0xcb, 0x73, 0xfc, 0xd9, 0x0e, 0xe0,
                               0x57, 0x74, 0x22, 0x2d, 0xc0, 0x67, 0xfb, 0x68]))
         == ToState([0x3b, 0xd9, 0x22, 0x68, 0xfc, 0x74, 0xfb, 0x73,
                     0x57, 0x67, 0xcb, 0xe0, 0xc0, 0x59, 0x0e, 0x2d])
  {
    var substituted := [0x3b, 0x59, 0xcb, 0x73, 0xfc, 0xd9, 0x0e, 0xe0,
                        0x57, 0x74, 0x22, 0x2d, 0xc0, 0x67, 0xfb, 0x68];
    ShiftRowsBlock(substituted);
    ShiftBlockBytes(substituted);
    assert ShiftBlock(substituted) == [0x3b, 0xd9, 0x22, 0x68, 0xfc, 0x74, 0xfb, 0x73,
                                       0x57, 0x67, 0xcb, 0xe0, 0xc0, 0x59, 0x0e, 0x2d];
  }

  /** Round 3: the four columns through the column mix. */
  lemma Round3MixedColumns()
    ensures MixedColumn(0x3b, 0xd9, 0x22, 0x68) == [0x4c, 0x9c, 0x1e, 0x66] &&
      MixedColumn(0xfc, 0x74, 0xfb, 0x73) == [0xf7, 0x71, 0xf0, 0x76] &&
      MixedColumn(0x57, 0x67, 0xcb, 0xe0) == [0x2c, 0x3f, 0x86, 0x8e] &&
      MixedColumn(0xc0, 0x59, 0x0e, 0x2d) == [0x53, 0x4d, 0xf2, 0x56]
  {
  }

  /** Round 3: the row "after MixColumns". */
  lemma Round3Mix()
    ensures MixColumns(ToState([0x3b, 0xd9, 0x22, 0x68, 0xfc, 0x74, 0xfb, 0x73,
                                0x57, 0x67, 0xcb, 0xe0, 0xc0, 0x59, 0x0e, 0x2d]))
         == ToState([0x4c, 0x9c, 0x1e, 0x66, 0xf7, 0x71, 0xf0, 0x76,
                     0x2c, 0x3f, 0x86, 0x8e, 0x53, 0x4d, 0xf2, 0x56])
  {
    var shifted := [0x3b, 0xd9, 0x22, 0x68, 0xfc, 0x74, 0xfb, 0x73,
                    0x57, 0x67, 0xcb, 0xe0, 0xc0, 0x59, 0x0e, 0x2d];
    var mixed := [0x4c, 0x9c, 0x1e, 0x66, 0xf7, 0x71, 0xf0, 0x76,
                  0x2c, 0x3f, 0x86, 0x8e, 0x53, 0x4d, 0xf2, 0x56];
    Round3MixedColumns();
    MixColumnsByColumns(shifted, mixed);
  }

  /** Round 3: the row "round key value" and the start of round 4. */
  lemma Round3Add()
    ensures AddRoundKey(ToState([0x4c, 0x9c, 0x1e, 0x66, 0xf7, 0x71, 0xf0, 0x76,
                                 0x2c, 0x3f, 0x86, 0x8e, 0x53, 0x4d, 0xf2, 0x56]),
                        [0xb6, 0xff, 0x74, 0x4e, 0xd2, 0xc2, 0xc9, 0xbf,
                         0x6c, 0x59, 0x0c, 0xbf, 0x04, 0x69, 0xbf, 0x41])
         == ToState([0xfa, 0x63, 0x6a, 0x28, 0x25, 0xb3, 0x39, 0xc9,
                     0x40, 0x66, 0x8a, 0x31, 0x57, 0x24, 0x4d, 0x17])
  {
    var mixed := [0x4c, 0x9c, 0x1e, 0x66, 0xf7, 0x71, 0xf0, 0x76,
                  0x2c, 0x3f, 0x86, 0x8e, 0x53, 0x4d, 0xf2, 0x56];
    var key := [0xb6, 0xff, 0x74, 0x4e, 0xd2, 0xc2, 0xc9, 0xbf,
                0x6c, 0x59, 0x0c, 0xbf, 0x04, 0x69, 0xbf, 0x41];
    AddRoundKeyBlock(mixed, key);
    Spelled(XorBlock(mixed, key));
  }

  /** Round 3 as a whole. */
  lemma Round3()
    ensures FullRound(ToState([0x49, 0x15, 0x59, 0x8f, 0x55, 0xe5, 0xd7, 0xa0,
                               0xda, 0xca, 0x94, 0xfa, 0x1f, 0x0a, 0x63, 0xf7]),
                      [0xb6, 0xff, 0x74, 0x4e, 0xd2, 0xc2, 0xc9, 0xbf,
                       0x6c, 0x59, 0x0c, 0xbf, 0x04, 0x69, 0xbf, 0x41])
         == ToState([0xfa, 0x63, 0x6a, 0x28, 0x25, 0xb3, 0x39, 0xc9,
                     0x40, 0x66, 0x8a, 0x31, 0x57, 0x24, 0x4d, 0x17])
  {
    Round3Sub();
    Round3Shift();
    Round3Mix();
    Round3Add();
  }

  /** The state of the example after round 3: the start of round 4. */
  lemma AfterRounds3()
    ensures AfterRounds(ToState(PLAINTEXT), ExpandKey(KEY), 3)
         == ToState([0xfa, 0x63, 0x6a, 0x28, 0x25, 0xb3, 0x39, 0xc9,
                     0x40, 0x66, 0x8a, 0x31, 0x57, 0x24, 0x4d, 0x17])
  {
    AfterRounds2();
    KnownRoundKey3();
    Round3();
  }

  /** The S-box entries that round 4 looks up for column 0. */
  lemma Round4SBoxColumn0()
    ensures SBox(0xfa) == 0x2d && SBox(0x63) == 0xfb &&
      SBox(0x6a) == 0x02 && SBox(0x28) == 0x34
  {
  }

  /** The S-box entries that round 4 looks up for column 1. */
  lemma Round4SBoxColumn1()
    ensures SBox(0x25) == 0x3f && SBox(0xb3) == 0x6d &&
      SBox(0x39) == 0x12 && SBox(0xc9) == 0xdd
  {
  }

  /** The S-box entries that round 4 looks up for column 2. */
  lemma Round4SBoxColumn2()
    ensures SBox(0x40) == 0x09 && SBox(0x66) == 0x33 &&
      SBox(0x8a) == 0x7e && SBox(0x31) == 0xc7
  {
  }

  /** The S-box entries that round 4 looks up for column 3. */
  lemma Round4SBoxColumn3()
    ensures SBox(0x57) == 0x5b && SBox(0x24) == 0x36 &&
      SBox(0x4d) == 0xe3 && SBox(0x17) == 0xf0
  {
  }

  /** Round 4: the rows "start of round" and "after SubBytes". */
  lemma Round4Sub()
    ensures SubBytes(ToState([0xfa, 0x63, 0x6a, 0x28, 0x25, 0xb3, 0x39, 0xc9,
                              0x40, 0x66, 0x8a, 0x31, 0x57, 0x24, 0x4d, 0x17]))
         == ToState([0x2d, 0xfb, 0x02, 0x34, 0x3f, 0x6d, 0x12, 0xdd,
                     0x09, 0x33, 0x7e, 0xc7, 0x5b, 0x36, 0xe3, 0xf0])
  {
    var start := [0xfa, 0x63, 0x6a, 0x28, 0x25, 0xb3, 0x39, 0xc9,
                  0x40, 0x66, 0x8a, 0x31, 0x57, 0x24, 0x4d, 0x17];
    SubBytesBlock(start);
    Spelled(SubBlock(SBox, start));
    assert SubBlock(SBox, start) == [SBox(0xfa), SBox(0x63), SBox(0x6a), SBox(0x28),
                                     SBox(0x25), SBox(0xb3), SBox(0x39), SBox(0xc9),
                                     SBox(0x40), SBox(0x66), SBox(0x8a), SBox(0x31),
                                     SBox(0x57), SBox(0x24), SBox(0x4d), SBox(0x17)];
    Round4SBoxColumn0();
    Round4SBoxColumn1();
    Round4SBoxColumn2();
    Round4SBoxColumn3();
  }

  /** Round 4: the row "after ShiftRows". */
  lemma Round4Shift()
    ensures ShiftRows(ToState([0x2d, 0xfb, 0x02, 0x34, 0x3f, 0x6d, 0x12, 0xdd,
                               0x09, 0x33, 0x7e, 0xc7, 0x5b, 0x36, 0xe3, 0xf0]))
         == ToState([0x2d, 0x6d, 0x7e, 0xf0, 0x3f, 0x33, 0xe3, 0x34,
                     0x09, 0x36, 0x02, 0xdd, 0x5b, 0xfb, 0x12, 0xc7])
  {
    var substituted := [0x2d, 0xfb, 0x02, 0x34, 0x3f, 0x6d, 0x12, 0xdd,
                        0x09, 0x33, 0x7e, 0xc7, 0x5b, 0x36, 0xe3, 0xf0];
    ShiftRowsBlock(substituted);
    ShiftBlockBytes(substituted);
    assert ShiftBlock(substituted) == [0x2d, 0x6d, 0x7e, 0xf0, 0x3f, 0x33, 0xe3, 0x34,
                                       0x09, 0x36, 0x02, 0xdd, 0x5b, 0xfb, 0x12, 0xc7];
  }

  /** Round 4: the four columns through the column mix. */
  lemma Round4MixedColumns()
    ensures MixedColumn(0x2d, 0x6d, 0x7e, 0xf0) == [0x63, 0x85, 0xb7, 0x9f] &&
      MixedColumn(0x3f, 0x33, 0xe3, 0x34) == [0xfc, 0x53, 0x8d, 0xf9] &&
      MixedColumn(0x09, 0x36, 0x02, 0xdd) == [0x97, 0xbe, 0x47, 0x8e] &&
      MixedColumn(0x5b, 0xfb, 0x12, 0xc7) == [0x75, 0x47, 0xd6, 0x91]
  {
  }

  /** Round 4: the row "after MixColumns". */
  lemma Round4Mix()
    ensures MixColumns(ToState([0x2d, 0x6d, 0x7e, 0xf0, 0x3f, 0x33, 0xe3, 0x34,
                                0x09, 0x36, 0x02, 0xdd, 0x5b, 0xfb, 0x12, 0xc7]))
         == ToState([0x63, 0x85, 0xb7, 0x9f, 0xfc, 0x53, 0x8d, 0xf9,
                     0x97, 0xbe, 0x47, 0x8e, 0x75, 0x47, 0xd6, 0x91])
  {
    var shifted := [0x2d, 0x6d, 0x7e, 0xf0, 0x3f, 0x33, 0xe3, 0x34,
                    0x09, 0x36, 0x02, 0xdd, 0x5b, 0xfb, 0x12, 0xc7];
    var mixed := [0x63, 0x85, 0xb7, 0x9f, 0xfc, 0x53, 0x8d, 0xf9,
                  0x97, 0xbe, 0x47, 0x8e, 0x75, 0x47, 0xd6, 0x91];
    Round4MixedColumns();
    MixColumnsByColumns(shifted, mixed);
  }

  /** Round 4: the row "round key value" and the start of round 5. */
  lemma Round4Add()
    ensures AddRoundKey(ToState([0x63, 0x85, 0xb7, 0x9f, 0xfc, 0x53, 0x8d, 0xf9,
                                 0x97, 0xbe, 0x47, 0x8e, 0x75, 0x47, 0xd6, 0x91]),
                        [0x47, 0xf7, 0xf7, 0xbc, 0x95, 0x35, 0x3e, 0x03,
                         0xf9, 0x6c, 0x32, 0xbc, 0xfd, 0x05, 0x8d, 0xfd])
         == ToState([0x24, 0x72, 0x40, 0x23, 0x69, 0x66, 0xb3, 0xfa,
                     0x6e, 0xd2, 0x75, 0x32, 0x88, 0x42, 0x5b, 0x6c])
  {
    var mixed := [0x63, 0x85, 0xb7, 0x9f, 0xfc, 0x53, 0x8d, 0xf9,
                  0x97, 0xbe, 0x47, 0x8e, 0x75, 0x47, 0xd6, 0x91];
    var key := [0x47, 0xf7, 0xf7, 0xbc, 0x95, 0x35, 0x3e, 0x03,
                0xf9, 0x6c, 0x32, 0xbc, 0xfd, 0x05, 0x8d, 0xfd];
    AddRoundKeyBlock(mixed, key);
    Spelled(XorBlock(mixed, key));
  }

  /** Round 4 as a whole. */
  lemma Round4()
    ensures FullRound(ToState([0xfa, 0x63, 0x6a, 0x28, 0x25, 0xb3, 0x39, 0xc9,
                               0x40, 0x66, 0x8a, 0x31, 0x57, 0x24, 0x4d, 0x17]),
                      [0x47, 0xf7, 0xf7, 0xbc, 0x95, 0x35, 0x3e, 0x03,
                       0xf9, 0x6c, 0x32, 0xbc, 0xfd, 0x05, 0x8d, 0xfd])
         == ToState([0x24, 0x72, 0x40, 0x23, 0x69, 0x66, 0xb3, 0xfa,
                     0x6e, 0xd2, 0x75, 0x32, 0x88, 0x42, 0x5b, 0x6c])
  {
    Round4Sub();
    Round4Shift();
    Round4Mix();
    Round4Add();
  }

  /** The state of the example after round 4: the start of round 5. */
  lemma AfterRounds4()
    ensures AfterRounds(ToState(PLAINTEXT), ExpandKey(KEY), 4)
         == ToState([0x24, 0x72, 0x40, 0x23, 0x69, 0x66, 0xb3, 0xfa,
                     0x6e, 0xd2, 0x75, 0x32, 0x88, 0x42, 0x5b, 0x6c])
  {
    AfterRounds3();
    KnownRoundKey4();
    Round4();
  }

  /** The S-box entries that round 5 looks up for column 0. */
  lemma Round5SBoxColumn0()
    ensures SBox(0x24) == 0x36 && SBox(0x72) == 0x40 &&
      SBox(0x40) == 0x09 && SBox(0x23) == 0x26
  {
  }

  /** The S-box entries that round 5 looks up for column 1. */
  lemma Round5SBoxColumn1()
    ensures SBox(0x69) == 0xf9 && SBox(0x66) == 0x33 &&
      SBox(0xb3) == 0x6d && SBox(0xfa) == 0x2d
  {
  }

  /** The S-box entries that round 5 looks up for column 2. */
  lemma Round5SBoxColumn2()
    ensures SBox(0x6e) == 0x9f && SBox(0xd2) == 0xb5 &&
      SBox(0x75) == 0x9d && SBox(0x32) == 0x23
  {
  }

  /** The S-box entries that round 5 looks up for column 3. */
  lemma Round5SBoxColumn3()
    ensures SBox(0x88) == 0xc4 && SBox(0x42) == 0x2c &&
      SBox(0x5b) == 0x39 && SBox(0x6c) == 0x50
  {
  }

  /** Round 5: the rows "start of round" and "after SubBytes". */
  lemma Round5Sub()
    ensures SubBytes(ToState([0x24, 0x72, 0x40, 0x23, 0x69, 0x66, 0xb3, 0xfa,
                              0x6e, 0xd2, 0x75, 0x32, 0x88, 0x42, 0x5b, 0x6c]))
         == ToState([0x36, 0x40, 0x09, 0x26, 0xf9, 0x33, 0x6d, 0x2d,
                     0x9f, 0xb5, 0x9d, 0x23, 0xc4, 0x2c, 0x39, 0x50])
  {
    var start := [0x24, 0x72, 0x40, 0x23, 0x69, 0x66, 0xb3, 0xfa,
                  0x6e, 0xd2, 0x75, 0x32, 0x88, 0x42, 0x5b, 0x6c];
    SubBytesBlock(start);
    Spelled(SubBlock(SBox, start));
    assert SubBlock(SBox, start) == [SBox(0x24), SBox(0x72), SBox(0x40), SBox(0x23),
                                     SBox(0x69), SBox(0x66), SBox(0xb3), SBox(0xfa),
                                     SBox(0x6e), SBox(0xd2), SBox(0x75), SBox(0x32),
                                     SBox(0x88), SBox(0x42), SBox(0x5b), SBox(0x6c)];
    Round5SBoxColumn0();
    Round5SBoxColumn1();
    Round5SBoxColumn2();
    Round5SBoxColumn3();
  }

  /** Round 5: the row "after ShiftRows". */
  lemma Round5Shift()
    ensures ShiftRows(ToState([0x36, 0x40, 0x09, 0x26, 0xf9, 0x33, 0x6d, 0x2d,
                               0x9f, 0xb5, 0x9d, 0x23, 0xc4, 0x2c, 0x39, 0x50]))
         == ToState([0x36, 0x33, 0x9d, 0x50, 0xf9, 0xb5, 0x39, 0x26,
                     0x9f, 0x2c, 0x09, 0x2d, 0xc4, 0x40, 0x6d, 0x23])
  {
    var substituted := [0x36, 0x40, 0x09, 0x26, 0xf9, 0x33, 0x6d, 0x2d,
                        0x9f, 0xb5, 0x9d, 0x23, 0xc4, 0x2c, 0x39, 0x50];
    ShiftRowsBlock(substituted);
    ShiftBlockBytes(substituted);
    assert ShiftBlock(substituted) == [0x36, 0x33, 0x9d, 0x50, 0xf9, 0xb5, 0x39, 0x26,
                                       0x9f, 0x2c, 0x09, 0x2d, 0xc4, 0x40, 0x6d, 0x23];
  }

  /** Round 5: the four columns through the column mix. */
  lemma Round5MixedColumns()
    ensures MixedColumn(0x36, 0x33, 0x9d, 0x50) == [0xf4, 0xbc, 0xd4, 0x54] &&
      MixedColumn(0xf9, 0xb5, 0x39, 0x26) == [0x32, 0xe5, 0x54, 0xd0] &&
      MixedColumn(0x9f, 0x2c, 0x09, 0x2d) == [0x75, 0xf1, 0xd6, 0xc5] &&
      MixedColumn(0xc4, 0x40, 0x6d, 0x23) == [0x1d, 0xd0, 0x3b, 0x3c]
  {
  }

  /** Round 5: the row "after MixColumns". */
  lemma Round5Mix()
    ensures MixColumns(ToState([0x36, 0x33, 0x9d, 0x50, 0xf9, 0xb5, 0x39, 0x26,
                                0x9f, 0x2c, 0x09, 0x2d, 0xc4, 0x40, 0x6d, 0x23]))
         == ToState([0xf4, 0xbc, 0xd4, 0x54, 0x32, 0xe5, 0x54, 0xd0,
                     0x75, 0xf1, 0xd6, 0xc5, 0x1d, 0xd0, 0x3b, 0x3c])
  {
    var shifted := [0x36, 0x33, 0x9d, 0x50, 0xf9, 0xb5, 0x39, 0x26,
                    0x9f, 0x2c, 0x09, 0x2d, 0xc4, 0x40, 0x6d, 0x23];
    var mixed := [0xf4, 0xbc, 0xd4, 0x54, 0x32, 0xe5, 0x54, 0xd0,
                  0x75, 0xf1, 0xd6, 0xc5, 0x1d, 0xd0, 0x3b, 0x3c];
    Round5MixedColumns();
    MixColumnsByColumns(shifted, mixed);
  }

  /** Round 5: the row "round key value" and the start of round 6. */
  lemma Round5Add()
    ensures AddRoundKey(ToState([0xf4, 0xbc, 0xd4, 0x54, 0x32, 0xe5, 0x54, 0xd0,
                                 0x75, 0xf1, 0xd6, 0xc5, 0x1d, 0xd0, 0x3b, 0x3c]),
                        [0x3c, 0xaa, 0xa3, 0xe8, 0xa9, 0x9f, 0x9d, 0xeb,
                         0x50, 0xf3, 0xaf, 0x57, 0xad, 0xf6, 0x22, 0xaa])
         == ToState([0xc8, 0x16, 0x77, 0xbc, 0x9b, 0x7a, 0xc9, 0x3b,
                     0x25, 0x02, 0x79, 0x92, 0xb0, 0x26, 0x19, 0x96])
  {
    var mixed := [0xf4, 0xbc, 0xd4, 0x54, 0x32, 0xe5, 0x54, 0xd0,
                  0x75, 0xf1, 0xd6, 0xc5, 0x1d, 0xd0, 0x3b, 0x3c];
    var key := [0x3c, 0xaa, 0xa3, 0xe8, 0xa9, 0x9f, 0x9d, 0xeb,
                0x50, 0xf3, 0xaf, 0x57, 0xad, 0xf6, 0x22, 0xaa];
    AddRoundKeyBlock(mixed, key);
    Spelled(XorBlock(mixed, key));
  }

  /** Round 5 as a whole. */
  lemma Round5()
    ensures FullRound(ToState([0x24, 0x72, 0x40, 0x23, 0x69, 0x66, 0xb3, 0xfa,
                               0x6e, 0xd2, 0x75, 0x32, 0x88, 0x42, 0x5b, 0x6c]),
                      [0x3c, 0xaa, 0xa3, 0xe8, 0xa9, 0x9f, 0x9d, 0xeb,
                       0x50, 0xf3, 0xaf, 0x57, 0xad, 0xf6, 0x22, 0xaa])
         == ToState([0xc8, 0x16, 0x77, 0xbc, 0x9b, 0x7a, 0xc9, 0x3b,
                     0x25, 0x02, 0x79, 0x92, 0xb0, 0x26, 0x19, 0x96])
  {
    Round5Sub();
    Round5Shift();
    Round5Mix();
    Round5Add();
  }

  /** The state of the example after round 5: the start of round 6. */
  lemma AfterRounds5()
    ensures AfterRounds(ToState(PLAINTEXT), ExpandKey(KEY), 5)
         == ToState([0xc8, 0x16, 0x77, 0xbc, 0x9b, 0x7a, 0xc9, 0x3b,
                     0x25, 0x02, 0x79, 0x92, 0xb0, 0x26, 0x19, 0x96])
  {
    AfterRounds4();
    KnownRoundKey5();
    Round5();
  }

  /** The S-box entries that round 6 looks up for column 0. */
  lemma Round6SBoxColumn0()
    ensures SBox(0xc8) == 0xe8 && SBox(0x16) == 0x47 &&
      SBox(0x77) == 0xf5 && SBox(0xbc) == 0x65
  {
  }

  /** The S-box entries that round 6 looks up for column 1. */
  lemma Round6SBoxColumn1()
    ensures SBox(0x9b) == 0x14 && SBox(0x7a) == 0xda &&
      SBox(0xc9) == 0xdd && SBox(0x3b) == 0xe2
  {
  }

  /** The S-box entries that round 6 looks up for column 2. */
  lemma Round6SBoxColumn2()
    ensures SBox(0x25) == 0x3f && SBox(0x02) == 0x77 &&
      SBox(0x79) == 0xb6 && SBox(0x92) == 0x4f
  {
  }

  /** The S-box entries that round 6 looks up for column 3. */
  lemma Round6SBoxColumn3()
    ensures SBox(0xb0) == 0xe7 && SBox(0x26) == 0xf7 &&
      SBox(0x19) == 0xd4 && SBox(0x96) == 0x90
  {
  }

  /** Round 6: the rows "start of round" and "after SubBytes". */
  lemma Round6Sub()
    ensures SubBytes(ToState([0xc8, 0x16, 0x77, 0xbc, 0x9b, 0x7a, 0xc9, 0x3b,
                              0x25, 0x02, 0x79, 0x92, 0xb0, 0x26, 0x19, 0x96]))
         == ToState([0xe8, 0x47, 0xf5, 0x65, 0x14, 0xda, 0xdd, 0xe2,
                     0x3f, 0x77, 0xb6, 0x4f, 0xe7, 0xf7, 0xd4, 0x90])
  {
    var start := [0xc8, 0x16, 0x77, 0xbc, 0x9b, 0x7a, 0xc9, 0x3b,
                  0x25, 0x02, 0x79, 0x92, 0xb0, 0x26, 0x19, 0x96];
    SubBytesBlock(start);
    Spelled(SubBlock(SBox, start));
    assert SubBlock(SBox, start) == [SBox(0xc8), SBox(0x16), SBox(0x77), SBox(0xbc),
                                     SBox(0x9b), SBox(0x7a), SBox(0xc9), SBox(0x3b),
                                     SBox(0x25), SBox(0x02), SBox(0x79), SBox(0x92),
                                     SBox(0xb0), SBox(0x26), SBox(0x19), SBox(0x96)];
    Round6SBoxColumn0();
    Round6SBoxColumn1();
    Round6SBoxColumn2();
    Round6SBoxColumn3();
  }

  /** Round 6: the row "after ShiftRows". */
  lemma Round6Shift()
    ensures ShiftRows(ToState([0xe8, 0x47, 0xf5, 0x65, 0x14, 0xda, 0xdd, 0xe2,
                               0x3f, 0x77, 0xb6, 0x4f, 0xe7, 0xf7, 0xd4, 0x90]))
         == ToState([0xe8, 0xda, 0xb6, 0x90, 0x14, 0x77, 0xd4, 0x65,
                     0x3f, 0xf7, 0xf5, 0xe2, 0xe7, 0x47, 0xdd, 0x4f])
  {
    var substituted := [0xe8, 0x47, 0xf5, 0x65, 0x14, 0xda, 0xdd, 0xe2,
                        0x3f, 0x77, 0xb6, 0x4f, 0xe7, 0xf7, 0xd4, 0x90];
    ShiftRowsBlock(substituted);
    ShiftBlockBytes(substituted);
    assert ShiftBlock(substituted) == [0xe8, 0xda, 0xb6, 0x90, 0x14, 0x77, 0xd4, 0x65,
                                       0x3f, 0xf7, 0xf5, 0xe2, 0xe7, 0x47, 0xdd, 0x4f];
  }

  /** Round 6: the four columns through the column mix. */
  lemma Round6MixedColumns()
    ensures MixedColumn(0xe8, 0xda, 0xb6, 0x90) == [0x98, 0x16, 0xee, 0x74] &&
      MixedColumn(0x14, 0x77, 0xd4, 0x65) == [0x00, 0xf8, 0x7f, 0x55] &&
      MixedColumn(0x3f, 0xf7, 0xf5, 0xe2) == [0x6b, 0x2c, 0x04, 0x9c] &&
      MixedColumn(0xe7, 0x47, 0xdd, 0x4f) == [0x8e, 0x5a, 0xd0, 0x36]
  {
  }

  /** Round 6: the row "after MixColumns". */
  lemma Round6Mix()
    ensures MixColumns(ToState([0xe8, 0xda, 0xb6, 0x90, 0x14, 0x77, 0xd4, 0x65,
                                0x3f, 0xf7, 0xf5, 0xe2, 0xe7, 0x47, 0xdd, 0x4f]))
         == ToState([0x98, 0x16, 0xee, 0x74, 0x00, 0xf8, 0x7f, 0x55,
                     0x6b, 0x2c, 0x04, 0x9c, 0x8e, 0x5a, 0xd0, 0x36])
  {
    var shifted := [0xe8, 0xda, 0xb6, 0x90, 0x14, 0x77, 0xd4, 0x65,
                    0x3f, 0xf7, 0xf5, 0xe2, 0xe7, 0x47, 0xdd, 0x4f];
    var mixed := [0x98, 0x16, 0xee, 0x74, 0x00, 0xf8, 0x7f, 0x55,
                  0x6b, 0x2c, 0x04, 0x9c, 0x8e, 0x5a, 0xd0, 0x36];
    Round6MixedColumns();
    MixColumnsByColumns(shifted, mixed);
  }

  /** Round 6: the row "round key value" and the start of round 7. */
  lemma Round6Add()
    ensures AddRoundKey(ToState([0x98, 0x16, 0xee, 0x74, 0x00, 0xf8, 0x7f, 0x55,
                                 0x6b, 0x2c, 0x04, 0x9c, 0x8e, 0x5a, 0xd0, 0x36]),
                        [0x5e, 0x39, 0x0f, 0x7d, 0xf7, 0xa6, 0x92, 0x96,
                         0xa7, 0x55, 0x3d, 0xc1, 0x0a, 0xa3, 0x1f, 0x6b])
         == ToState([0xc6, 0x2f, 0xe1, 0x09, 0xf7, 0x5e, 0xed, 0xc3,
                     0xcc, 0x79, 0x39, 0x5d, 0x84, 0xf9, 0xcf, 0x5d])
  {
    var mixed := [0x98, 0x16, 0xee, 0x74, 0x00, 0xf8, 0x7f, 0x55,
                  0x6b, 0x2c, 0x04, 0x9c, 0x8e, 0x5a, 0xd0, 0x36];
    var key := [0x5e, 0x39, 0x0f, 0x7d, 0xf7, 0xa6, 0x92, 0x96,
                0xa7, 0x55, 0x3d, 0xc1, 0x0a, 0xa3, 0x1f, 0x6b];
    AddRoundKeyBlock(mixed, key);
    Spelled(XorBlock(mixed, key));
  }

  /** Round 6 as a whole. */
  lemma Round6()
    ensures FullRound(ToState([0xc8, 0x16, 0x77, 0xbc, 0x9b, 0x7a, 0xc9, 0x3b,
                               0x25, 0x02, 0x79, 0x92, 0xb0, 0x26, 0x19, 0x96]),
                      [0x5e, 0x39, 0x0f, 0x7d, 0xf7, 0xa6, 0x92, 0x96,
                       0xa7, 0x55, 0x3d, 0xc1, 0x0a, 0xa3, 0x1f, 0x6b])
         == ToState([0xc6, 0x2f, 0xe1, 0x09, 0xf7, 0x5e, 0xed, 0xc3,
                     0xcc, 0x79, 0x39, 0x5d, 0x84, 0xf9, 0xcf, 0x5d])
  {
    Round6Sub();
    Round6Shift();
    Round6Mix();
    Round6Add();
  }

  /** The state of the example after round 6: the start of round 7. */
  lemma AfterRounds6()
    ensures AfterRounds(ToState(PLAINTEXT), ExpandKey(KEY), 6)
         == ToState([0xc6, 0x2f, 0xe1, 0x09, 0xf7, 0x5e, 0xed, 0xc3,
                     0xcc, 0x79, 0x39, 0x5d, 0x84, 0xf9, 0xcf, 0x5d])
  {
    AfterRounds5();
    KnownRoundKey6();
    Round6();
  }

  /** The S-box entries that round 7 looks up for column 0. */
  lemma Round7SBoxColumn0()
    ensures SBox(0xc6) == 0xb4 && SBox(0x2f) == 0x15 &&
      SBox(0xe1) == 0xf8 && SBox(0x09) == 0x01
  {
  }

  /** The S-box entries that round 7 looks up for column 1. */
  lemma Round7SBoxColumn1()
    ensures SBox(0xf7) == 0x68 && SBox(0x5e) == 0x58 &&
      SBox(0xed) == 0x55 && SBox(0xc3) == 0x2e
  {
  }

  /** The S-box entries that round 7 looks up for column 2. */
  lemma Round7SBoxColumn2()
    ensures SBox(0xcc) == 0x4b && SBox(0x79) == 0xb6 &&
      SBox(0x39) == 0x12 && SBox(0x5d) == 0x4c
  {
  }

  /** The S-box entries that round 7 looks up for column 3. */
  lemma Round7SBoxColumn3()
    ensures SBox(0x84) == 0x5f && SBox(0xf9) == 0x99 &&
      SBox(0xcf) == 0x8a && SBox(0x5d) == 0x4c
  {
  }

  /** Round 7: the rows "start of round" and "after SubBytes". */
  lemma Round7Sub()
    ensures SubBytes(ToState([0xc6, 0x2f, 0xe1, 0x09, 0xf7, 0x5e, 0xed, 0xc3,
                              0xcc, 0x79, 0x39, 0x5d, 0x84, 0xf9, 0xcf, 0x5d]))
         == ToState([0xb4, 0x15, 0xf8, 0x01, 0x68, 0x58, 0x55, 0x2e,
                     0x4b, 0xb6, 0x12, 0x4c, 0x5f, 0x99, 0x8a, 0x4c])
  {
    var start := [0xc6, 0x2f, 0xe1, 0x09, 0xf7, 0x5e, 0xed, 0xc3,
                  0xcc, 0x79, 0x39, 0x5d, 0x84, 0xf9, 0xcf, 0x5d];
    SubBytesBlock(start);
    Spelled(SubBlock(SBox, start));
    assert SubBlock(SBox, start) == [SBox(0xc6), SBox(0x2f), SBox(0xe1), SBox(0x09),
                                     SBox(0xf7), SBox(0x5e), SBox(0xed), SBox(0xc3),
                                     SBox(0xcc), SBox(0x79), SBox(0x39), SBox(0x5d),
                                     SBox(0x84), SBox(0xf9), SBox(0xcf), SBox(0x5d)];
    Round7SBoxColumn0();
    Round7SBoxColumn1();
    Round7SBoxColumn2();
    Round7SBoxColumn3();
  }

  /** Round 7: the row "after ShiftRows". */
  lemma Round7Shift()
    ensures ShiftRows(ToState([0xb4, 0x15, 0xf8, 0x01, 0x68, 0x58, 0x55, 0x2e,
                               0x4b, 0xb6, 0x12, 0x4c, 0x5f, 0x99, 0x8a, 0x4c]))
         == ToState([0xb4, 0x58, 0x12, 0x4c, 0x68, 0xb6, 0x8a, 0x01,
                     0x4b, 0x99, 0xf8, 0x2e, 0x5f, 0x15, 0x55, 0x4c])
  {
    var substituted := [0xb4, 0x15, 0xf8, 0x01, 0x68, 0x58, 0x55, 0x2e,
                        0x4b, 0xb6, 0x12, 0x4c, 0x5f, 0x99, 0x8a, 0x4c];
    ShiftRowsBlock(substituted);
    ShiftBlockBytes(substituted);
    assert ShiftBlock(substituted) == [0xb4, 0x58, 0x12, 0x4c, 0x68, 0xb6, 0x8a, 0x01,
                                       0x4b, 0x99, 0xf8, 0x2e, 0x5f, 0x15, 0x55, 0x4c];
  }

  /** Round 7: the four columns through the column mix. */
  lemma Round7MixedColumns()
    ensures MixedColumn(0xb4, 0x58, 0x12, 0x4c) == [0xc5, 0x7e, 0x1c, 0x15] &&
      MixedColumn(0x68, 0xb6, 0x8a, 0x01) == [0x9a, 0x9b, 0xd2, 0x86] &&
      MixedColumn(0x4b, 0x99, 0xf8, 0x2e) == [0xf0, 0x5f, 0x4b, 0xe0] &&
      MixedColumn(0x5f, 0x15, 0x55, 0x4c) == [0x98, 0xc6, 0x34, 0x39]
  {
  }

  /** Round 7: the row "after MixColumns". */
  lemma Round7Mix()
    ensures MixColumns(ToState([0xb4, 0x58, 0x12, 0x4c, 0x68, 0xb6, 0x8a, 0x01,
                                0x4b, 0x99, 0xf8, 0x2e, 0x5f, 0x15, 0x55, 0x4c]))
         == ToState([0xc5, 0x7e, 0x1c, 0x15, 0x9a, 0x9b, 0xd2, 0x86,
                     0xf0, 0x5f, 0x4b, 0xe0, 0x98, 0xc6, 0x34, 0x39])
  {
    var shifted := [0xb4, 0x58, 0x12, 0x4c, 0x68, 0xb6, 0x8a, 0x01,
                    0x4b, 0x99, 0xf8, 0x2e, 0x5f, 0x15, 0x55, 0x4c];
    var mixed := [0xc5, 0x7e, 0x1c, 0x15, 0x9a, 0x9b, 0xd2, 0x86,
                  0xf0, 0x5f, 0x4b, 0xe0, 0x98, 0xc6, 0x34, 0x39];
    Round7MixedColumns();
    MixColumnsByColumns(shifted, mixed);
  }

  /** Round 7: the row "round key value" and the start of round 8. */
  lemma Round7Add()
    ensures AddRoundKey(ToState([0xc5, 0x7e, 0x1c, 0x15, 0x9a, 0x9b, 0xd2, 0x86,
                                 0xf0, 0x5f, 0x4b, 0xe0, 0x98, 0xc6, 0x34, 0x39]),
                        [0x14, 0xf9, 0x70, 0x1a, 0xe3, 0x5f, 0xe2, 0x8c,
                         0x44, 0x0a, 0xdf, 0x4d, 0x4e, 0xa9, 0xc0, 0x26])
         == ToState([0xd1, 0x87, 0x6c, 0x0f, 0x79, 0xc4, 0x30, 0x0a,
                     0xb4, 0x55, 0x94, 0xad, 0xd6, 0x6f, 0xf4, 0x1f])
  {
    var mixed := [0xc5, 0x7e, 0x1c, 0x15, 0x9a, 0x9b, 0xd2, 0x86,
                  0xf0, 0x5f, 0x4b, 0xe0, 0x98, 0xc6, 0x34, 0x39];
    var key := [0x14, 0xf9, 0x70, 0x1a, 0xe3, 0x5f, 0xe2, 0x8c,
                0x44, 0x0a, 0xdf, 0x4d, 0x4e, 0xa9, 0xc0, 0x26];
    AddRoundKeyBlock(mixed, key);
    Spelled(XorBlock(mixed, key));
  }

  /** Round 7 as a whole. */
  lemma Round7()
    ensures FullRound(ToState([0xc6, 0x2f, 0xe1, 0x09, 0xf7, 0x5e, 0xed, 0xc3,
                               0xcc, 0x79, 0x39, 0x5d, 0x84, 0xf9, 0xcf, 0x5d]),
                      [0x14, 0xf9, 0x70, 0x1a, 0xe3, 0x5f, 0xe2, 0x8c,
                       0x44, 0x0a, 0xdf, 0x4d, 0x4e, 0xa9, 0xc0, 0x26])
         == ToState([0xd1, 0x87, 0x6c, 0x0f, 0x79, 0xc4, 0x30, 0x0a,
                     0xb4, 0x55, 0x94, 0xad, 0xd6, 0x6f, 0xf4, 0x1f])
  {
    Round7Sub();
    Round7Shift();
    Round7Mix();
    Round7Add();
  }

  /** The state of the example after round 7: the start of round 8. */
  lemma AfterRounds7()
    ensures AfterRounds(ToState(PLAINTEXT), ExpandKey(KEY), 7)
         == ToState([0xd1, 0x87, 0x6c, 0x0f, 0x79, 0xc4, 0x30, 0x0a,
                     0xb4, 0x55, 0x94, 0xad, 0xd6, 0x6f, 0xf4, 0x1f])
  {
    AfterRounds6();
    KnownRoundKey7();
    Round7();
  }

  /** The S-box entries that round 8 looks up for column 0. */
  lemma Round8SBoxColumn0()
    ensures SBox(0xd1) == 0x3e && SBox(0x87) == 0x17 &&
      SBox(0x6c) == 0x50 && SBox(0x0f) == 0x76
  {
  }

  /** The S-box entries that round 8 looks up for column 1. */
  lemma Round8SBoxColumn1()
    ensures SBox(0x79) == 0xb6 && SBox(0xc4) == 0x1c &&
      SBox(0x30) == 0x04 && SBox(0x0a) == 0x67
  {
  }

  /** The S-box entries that round 8 looks up for column 2. */
  lemma Round8SBoxColumn2()
    ensures SBox(0xb4) == 0x8d && SBox(0x55) == 0xfc &&
      SBox(0x94) == 0x22 && SBox(0xad) == 0x95
  {
  }

  /** The S-box entries that round 8 looks up for column 3. */
  lemma Round8SBoxColumn3()
    ensures SBox(0xd6) == 0xf6 && SBox(0x6f) == 0xa8 &&
      SBox(0xf4) == 0xbf && SBox(0x1f) == 0xc0
  {
  }

  /** Round 8: the rows "start of round" and "after SubBytes". */
  lemma Round8Sub()
    ensures SubBytes(ToState([0xd1, 0x87, 0x6c, 0x0f, 0x79, 0xc4, 0x30, 0x0a,
                              0xb4, 0x55, 0x94, 0xad, 0xd6, 0x6f, 0xf4, 0x1f]))
         == ToState([0x3e, 0x17, 0x50, 0x76, 0xb6, 0x1c, 0x04, 0x67,
                     0x8d, 0xfc, 0x22, 0x95, 0xf6, 0xa8, 0xbf, 0xc0])
  {
    var start := [0xd1, 0x87, 0x6c, 0x0f, 0x79, 0xc4, 0x30, 0x0a,
                  0xb4, 0x55, 0x94, 0xad, 0xd6, 0x6f, 0xf4, 0x1f];
    SubBytesBlock(start);
    Spelled(SubBlock(SBox, start));
    assert SubBlock(SBox, start) == [SBox(0xd1), SBox(0x87), SBox(0x6c), SBox(0x0f),
                                     SBox(0x79), SBox(0xc4), SBox(0x30), SBox(0x0a),
                                     SBox(0xb4), SBox(0x55), SBox(0x94), SBox(0xad),
                                     SBox(0xd6), SBox(0x6f), SBox(0xf4), SBox(0x1f)];
    Round8SBoxColumn0();
    Round8SBoxColumn1();
    Round8SBoxColumn2();
    Round8SBoxColumn3();
  }

  /** Round 8: the row "after ShiftRows". */
  lemma Round8Shift()
    ensures ShiftRows(ToState([0x3e, 0x17, 0x50, 0x76, 0xb6, 0x1c, 0x04, 0x67,
                               0x8d, 0xfc, 0x22, 0x95, 0xf6, 0xa8, 0xbf, 0xc0]))
         == ToState([0x3e, 0x1c, 0x22, 0xc0, 0xb6, 0xfc, 0xbf, 0x76,
                     0x8d, 0xa8, 0x50, 0x67, 0xf6, 0x17, 0x04, 0x95])
  {
    var substituted := [0x3e, 0x17, 0x50, 0x76, 0xb6, 0x1c, 0x04, 0x67,
                        0x8d, 0xfc, 0x22, 0x95, 0xf6, 0xa8, 0xbf, 0xc0];
    ShiftRowsBlock(substituted);
    ShiftBlockBytes(substituted);
    assert ShiftBlock(substituted) == [0x3e, 0x1c, 0x22, 0xc0, 0xb6, 0xfc, 0xbf, 0x76,
                                       0x8d, 0xa8, 0x50, 0x67, 0xf6, 0x17, 0x04, 0x95];
  }

  /** Round 8: the four columns through the column mix. */
  lemma Round8MixedColumns()
    ensures MixedColumn(0x3e, 0x1c, 0x22, 0xc0) == [0xba, 0xa0, 0x3d, 0xe7] &&
      MixedColumn(0xb6, 0xfc, 0xbf, 0x76) == [0xa1, 0xf9, 0xb5, 0x6e] &&
      MixedColumn(0x8d, 0xa8, 0x50, 0x67) == [0xd5, 0x51, 0x2c, 0xba] &&
      MixedColumn(0xf6, 0x17, 0x04, 0x95) == [0x5f, 0x41, 0x4d, 0x23]
  {
  }

  /** Round 8: the row "after MixColumns". */
  lemma Round8Mix()
    ensures MixColumns(ToState([0x3e, 0x1c, 0x22, 0xc0, 0xb6, 0xfc, 0xbf, 0x76,
                                0x8d, 0xa8, 0x50, 0x67, 0xf6, 0x17, 0x04, 0x95]))
         == ToState([0xba, 0xa0, 0x3d, 0xe7, 0xa1, 0xf9, 0xb5, 0x6e,
                     0xd5, 0x51, 0x2c, 0xba, 0x5f, 0x41, 0x4d, 0x23])
  {
    var shifted := [0x3e, 0x1c, 0x22, 0xc0, 0xb6, 0xfc, 0xbf, 0x76,
                    0x8d, 0xa8, 0x50, 0x67, 0xf6, 0x17, 0x04, 0x95];
    var mixed := [0xba, 0xa0, 0x3d, 0xe7, 0xa1, 0xf9, 0xb5, 0x6e,
                  0xd5, 0x51, 0x2c, 0xba, 0x5f, 0x41, 0x4d, 0x23];
    Round8MixedColumns();
    MixColumnsByColumns(shifted, mixed);
  }

  /** Round 8: the row "round key value" and the start of round 9. */
  lemma Round8Add()
    ensures AddRoundKey(ToState([0xba, 0xa0, 0x3d, 0xe7, 0xa1, 0xf9, 0xb5, 0x6e,
                                 0xd5, 0x51, 0x2c, 0xba, 0x5f, 0x41, 0x4d, 0x23]),
                        [0x47, 0x43, 0x87, 0x35, 0xa4, 0x1c, 0x65, 0xb9,
                         0xe0, 0x16, 0xba, 0xf4, 0xae, 0xbf, 0x7a, 0xd2])
         == ToState([0xfd, 0xe3, 0xba, 0xd2, 0x05, 0xe5, 0xd0, 0xd7,
                     0x35, 0x47, 0x96, 0x4e, 0xf1, 0xfe, 0x37, 0xf1])
  {
    var mixed := [0xba, 0xa0, 0x3d, 0xe7, 0xa1, 0xf9, 0xb5, 0x6e,
                  0xd5, 0x51, 0x2c, 0xba, 0x5f, 0x41, 0x4d, 0x23];
    var key := [0x47, 0x43, 0x87, 0x35, 0xa4, 0x1c, 0x65, 0xb9,
                0xe0, 0x16, 0xba, 0xf4, 0xae, 0xbf, 0x7a, 0xd2];
    AddRoundKeyBlock(mixed, key);
    Spelled(XorBlock(mixed, key));
  }

  /** Round 8 as a whole. */
  lemma Round8()
    ensures FullRound(ToState([0xd1, 0x87, 0x6c, 0x0f, 0x79, 0xc4, 0x30, 0x0a,
                               0xb4, 0x55, 0x94, 0xad, 0xd6, 0x6f, 0xf4, 0x1f]),
                      [0x47, 0x43, 0x87, 0x35, 0xa4, 0x1c, 0x65, 0xb9,
                       0xe0, 0x16, 0xba, 0xf4, 0xae, 0xbf, 0x7a, 0xd2])
         == ToState([0xfd, 0xe3, 0xba, 0xd2, 0x05, 0xe5, 0xd0, 0xd7,
                     0x35, 0x47, 0x96, 0x4e, 0xf1, 0xfe, 0x37, 0xf1])
  {
    Round8Sub();
    Round8Shift();
    Round8Mix();
    Round8Add();
  }

  /** The state of the example after round 8: the start of round 9. */
  lemma AfterRounds8()
    ensures AfterRounds(ToState(PLAINTEXT), ExpandKey(KEY), 8)
         == ToState([0xfd, 0xe3, 0xba, 0xd2, 0x05, 0xe5, 0xd0, 0xd7,
                     0x35, 0x47, 0x96, 0x4e, 0xf1, 0xfe, 0x37, 0xf1])
  {
    AfterRounds7();
    KnownRoundKey8();
    Round8();
  }

  /** The S-box entries that round 9 looks up for column 0. */
  lemma Round9SBoxColumn0()
    ensures SBox(0xfd) == 0x54 && SBox(0xe3) == 0x11 &&
      SBox(0xba) == 0xf4 && SBox(0xd2) == 0xb5
  {
  }

  /** The S-box entries that round 9 looks up for column 1. */
  lemma Round9SBoxColumn1()
    ensures SBox(0x05) == 0x6b && SBox(0xe5) == 0xd9 &&
      SBox(0xd0) == 0x70 && SBox(0xd7) == 0x0e
  {
  }

  /** The S-box entries that round 9 looks up for column 2. */
  lemma Round9SBoxColumn2()
    ensures SBox(0x35) == 0x96 && SBox(0x47) == 0xa0 &&
      SBox(0x96) == 0x90 && SBox(0x4e) == 0x2f
  {
  }

  /** The S-box entries that round 9 looks up for column 3. */
  lemma Round9SBoxColumn3()
    ensures SBox(0xf1) == 0xa1 && SBox(0xfe) == 0xbb &&
      SBox(0x37) == 0x9a && SBox(0xf1) == 0xa1
  {
  }

  /** Round 9: the rows "start of round" and "after SubBytes". */
  lemma Round9Sub()
    ensures SubBytes(ToState([0xfd, 0xe3, 0xba, 0xd2, 0x05, 0xe5, 0xd0, 0xd7,
                              0x35, 0x47, 0x96, 0x4e, 0xf1, 0xfe, 0x37, 0xf1]))
         == ToState([0x54, 0x11, 0xf4, 0xb5, 0x6b, 0xd9, 0x70, 0x0e,
                     0x96, 0xa0, 0x90, 0x2f, 0xa1, 0xbb, 0x9a, 0xa1])
  {
    var start := [0xfd, 0xe3, 0xba, 0xd2, 0x05, 0xe5, 0xd0, 0xd7,
                  0x35, 0x47, 0x96, 0x4e, 0xf1, 0xfe, 0x37, 0xf1];
    SubBytesBlock(start);
    Spelled(SubBlock(SBox, start));
    assert SubBlock(SBox, start) == [SBox(0xfd), SBox(0xe3), SBox(0xba), SBox(0xd2),
                                     SBox(0x05), SBox(0xe5), SBox(0xd0), SBox(0xd7),
                                     SBox(0x35), SBox(0x47), SBox(0x96), SBox(0x4e),
                                     SBox(0xf1), SBox(0xfe), SBox(0x37), SBox(0xf1)];
    Round9SBoxColumn0();
    Round9SBoxColumn1();
    Round9SBoxColumn2();
    Round9SBoxColumn3();
  }

  /** Round 9: the row "after ShiftRows". */
  lemma Round9Shift()
    ensures ShiftRows(ToState([0x54, 0x11, 0xf4, 0xb5, 0x6b, 0xd9, 0x70, 0x0e,
                               0x96, 0xa0, 0x90, 0x2f, 0xa1, 0xbb, 0x9a, 0xa1]))
         == ToState([0x54, 0xd9, 0x90, 0xa1, 0x6b, 0xa0, 0x9a, 0xb5,
                     0x96, 0xbb, 0xf4, 0x0e, 0xa1, 0x11, 0x70, 0x2f])
  {
    var substituted := [0x54, 0x11, 0xf4, 0xb5, 0x6b, 0xd9, 0x70, 0x0e,
                        0x96, 0xa0, 0x90, 0x2f, 0xa1, 0xbb, 0x9a, 0xa1];
    ShiftRowsBlock(substituted);
    ShiftBlockBytes(substituted);
    assert ShiftBlock(substituted) == [0x54, 0xd9, 0x90, 0xa1, 0x6b, 0xa0, 0x9a, 0xb5,
                                       0x96, 0xbb, 0xf4, 0x0e, 0xa1, 0x11, 0x70, 0x2f];
  }

  /** Round 9: the four columns through the column mix. */
  lemma Round9MixedColumns()
    ensures MixedColumn(0x54, 0xd9, 0x90, 0xa1) == [0xe9, 0xf7, 0x4e, 0xec] &&
      MixedColumn(0x6b, 0xa0, 0x9a, 0xb5) == [0x02, 0x30, 0x20, 0xf6] &&
      MixedColumn(0x96, 0xbb, 0xf4, 0x0e) == [0x1b, 0xf2, 0xcc, 0xf2] &&
      MixedColumn(0xa1, 0x11, 0x70, 0x2f) == [0x35, 0x3c, 0x21, 0xc7]
  {
  }

  /** Round 9: the row "after MixColumns". */
  lemma Round9Mix()
    ensures MixColumns(ToState([0x54, 0xd9, 0x90, 0xa1, 0x6b, 0xa0, 0x9a, 0xb5,
                                0x96, 0xbb, 0xf4, 0x0e, 0xa1, 0x11, 0x70, 0x2f]))
         == ToState([0xe9, 0xf7, 0x4e, 0xec, 0x02, 0x30, 0x20, 0xf6,
                     0x1b, 0xf2, 0xcc, 0xf2, 0x35, 0x3c, 0x21, 0xc7])
  {
    var shifted := [0x54, 0xd9, 0x90, 0xa1, 0x6b, 0xa0, 0x9a, 0xb5,
                    0x96, 0xbb, 0xf4, 0x0e, 0xa1, 0x11, 0x70, 0x2f];
    var mixed := [0xe9, 0xf7, 0x4e, 0xec, 0x02, 0x30, 0x20, 0xf6,
                  0x1b, 0xf2, 0xcc, 0xf2, 0x35, 0x3c, 0x21, 0xc7];
    Round9MixedColumns();
    MixColumnsByColumns(shifted, mixed);
  }

  /** Round 9: the row "round key value" and the start of round 10. */
  lemma Round9Add()
    ensures AddRoundKey(ToState([0xe9, 0xf7, 0x4e, 0xec, 0x02, 0x30, 0x20, 0xf6,
                                 0x1b, 0xf2, 0xcc, 0xf2, 0x35, 0x3c, 0x21, 0xc7]),
                        [0x54, 0x99, 0x32, 0xd1, 0xf0, 0x85, 0x57, 0x68,
                         0x10, 0x93, 0xed, 0x9c, 0xbe, 0x2c, 0x97, 0x4e])
         == ToState([0xbd, 0x6e, 0x7c, 0x3d, 0xf2, 0xb5, 0x77, 0x9e,
                     0x0b, 0x61, 0x21, 0x6e, 0x8b, 0x10, 0xb6, 0x89])
  {
    var mixed := [0xe9, 0xf7, 0x4e, 0xec, 0x02, 0x30, 0x20, 0xf6,
                  0x1b, 0xf2, 0xcc, 0xf2, 0x35, 0x3c, 0x21, 0xc7];
    var key := [0x54, 0x99, 0x32, 0xd1, 0xf0, 0x85, 0x57, 0x68,
                0x10, 0x93, 0xed, 0x9c, 0xbe, 0x2c, 0x97, 0x4e];
    AddRoundKeyBlock(mixed, key);
    Spelled(XorBlock(mixed, key));
  }

  /** Round 9 as a whole. */
  lemma Round9()
    ensures FullRound(ToState([0xfd, 0xe3, 0xba, 0xd2, 0x05, 0xe5, 0xd0, 0xd7,
                               0x35, 0x47, 0x96, 0x4e, 0xf1, 0xfe, 0x37, 0xf1]),
                      [0x54, 0x99, 0x32, 0xd1, 0xf0, 0x85, 0x57, 0x68,
                       0x10, 0x93, 0xed, 0x9c, 0xbe, 0x2c, 0x97, 0x4e])
         == ToState([0xbd, 0x6e, 0x7c, 0x3d, 0xf2, 0xb5, 0x77, 0x9e,
                     0x0b, 0x61, 0x21, 0x6e, 0x8b, 0x10, 0xb6, 0x89])
  {
    Round9Sub();
    Round9Shift();
    Round9Mix();
    Round9Add();
  }

  /** The state of the example after round 9: the start of round 10. */
  lemma AfterRounds9()
    ensures AfterRounds(ToState(PLAINTEXT), ExpandKey(KEY), 9)
         == ToState([0xbd, 0x6e, 0x7c, 0x3d, 0xf2, 0xb5, 0x77, 0x9e,
                     0x0b, 0x61, 0x21, 0x6e, 0x8b, 0x10, 0xb6, 0x89])
  {
    AfterRounds8();
    KnownRoundKey9();
    Round9();
  }

  /** The S-box entries that round 10 looks up for column 0. */
  lemma Round10SBoxColumn0()
    ensures SBox(0xbd) == 0x7a && SBox(0x6e) == 0x9f &&
      SBox(0x7c) == 0x10 && SBox(0x3d) == 0x27
  {
  }

  /** The S-box entries that round 10 looks up for column 1. */
  lemma Round10SBoxColumn1()
    ensures SBox(0xf2) == 0x89 && SBox(0xb5) == 0xd5 &&
      SBox(0x77) == 0xf5 && SBox(0x9e) == 0x0b
  {
  }

  /** The S-box entries that round 10 looks up for column 2. */
  lemma Round10SBoxColumn2()
    ensures SBox(0x0b) == 0x2b && SBox(0x61) == 0xef &&
      SBox(0x21) == 0xfd && SBox(0x6e) == 0x9f
  {
  }

  /** The S-box entries that round 10 looks up for column 3. */
  lemma Round10SBoxColumn3()
    ensures SBox(0x8b) == 0x3d && SBox(0x10) == 0xca &&
      SBox(0xb6) == 0x4e && SBox(0x89) == 0xa7
  {
  }

  /** Round 10: the rows "start of round" and "after SubBytes". */
  lemma Round10Sub()
    ensures SubBytes(ToState([0xbd, 0x6e, 0x7c, 0x3d, 0xf2, 0xb5, 0x77, 0x9e,
                              0x0b, 0x61, 0x21, 0x6e, 0x8b, 0x10, 0xb6, 0x89]))
         == ToState([0x7a, 0x9f, 0x10, 0x27, 0x89, 0xd5, 0xf5, 0x0b,
                     0x2b, 0xef, 0xfd, 0x9f, 0x3d, 0xca, 0x4e, 0xa7])
  {
    var start := [0xbd, 0x6e, 0x7c, 0x3d, 0xf2, 0xb5, 0x77, 0x9e,
                  0x0b, 0x61, 0x21, 0x6e, 0x8b, 0x10, 0xb6, 0x89];
    SubBytesBlock(start);
    Spelled(SubBlock(SBox, start));
    assert SubBlock(SBox, start) == [SBox(0xbd), SBox(0x6e), SBox(0x7c), SBox(0x3d),
                                     SBox(0xf2), SBox(0xb5), SBox(0x77), SBox(0x9e),
                                     SBox(0x0b), SBox(0x61), SBox(0x21), SBox(0x6e),
                                     SBox(0x8b), SBox(0x10), SBox(0xb6), SBox(0x89)];
    Round10SBoxColumn0();
    Round10SBoxColumn1();
    Round10SBoxColumn2();
    Round10SBoxColumn3();
  }

  /** Round 10: the row "after ShiftRows". */
  lemma Round10Shift()
    ensures ShiftRows(ToState([0x7a, 0x9f, 0x10, 0x27, 0x89, 0xd5, 0xf5, 0x0b,
                               0x2b, 0xef, 0xfd, 0x9f, 0x3d, 0xca, 0x4e, 0xa7]))
         == ToState([0x7a, 0xd5, 0xfd, 0xa7, 0x89, 0xef, 0x4e, 0x27,
                     0x2b, 0xca, 0x10, 0x0b, 0x3d, 0x9f, 0xf5, 0x9f])
  {
    var substituted := [0x7a, 0x9f, 0x10, 0x27, 0x89, 0xd5, 0xf5, 0x0b,
                        0x2b, 0xef, 0xfd, 0x9f, 0x3d, 0xca, 0x4e, 0xa7];
    ShiftRowsBlock(substituted);
    ShiftBlockBytes(substituted);
    assert ShiftBlock(substituted) == [0x7a, 0xd5, 0xfd, 0xa7, 0x89, 0xef, 0x4e, 0x27,
                                       0x2b, 0xca, 0x10, 0x0b, 0x3d, 0x9f, 0xf5, 0x9f];
  }

  /** The final round, which leaves out MixColumns, ends in the ciphertext. */
  lemma Round10()
    ensures FinalRound(ToState([0xbd, 0x6e, 0x7c, 0x3d, 0xf2, 0xb5, 0x77, 0x9e,
                                0x0b, 0x61, 0x21, 0x6e, 0x8b, 0x10, 0xb6, 0x89]),
                       [0x13, 0x11, 0x1d, 0x7f, 0xe3, 0x94, 0x4a, 0x17,
                        0xf3, 0x07, 0xa7, 0x8b, 0x4d, 0x2b, 0x30, 0xc5])
         == ToState(CIPHERTEXT)
  {
    Round10Sub();
    Round10Shift();
    var shifted := [0x7a, 0xd5, 0xfd, 0xa7, 0x89, 0xef, 0x4e, 0x27,
                    0x2b, 0xca, 0x10, 0x0b, 0x3d, 0x9f, 0xf5, 0x9f];
    var key := [0x13, 0x11, 0x1d, 0x7f, 0xe3, 0x94, 0x4a, 0x17,
                0xf3, 0x07, 0xa7, 0x8b, 0x4d, 0x2b, 0x30, 0xc5];
    AddRoundKeyBlock(shifted, key);
    Spelled(XorBlock(shifted, key));
  }

  /** The output of appendix C.1 of FIPS-197. */
  lemma CipherKnownAnswer()
    ensures Cipher(PLAINTEXT, KEY) == CIPHERTEXT
  {
    AfterRounds9();
    KnownRoundKey10();
    Round10();
    FromToState(CIPHERTEXT);
  }

  /** The last state of the trace of the example is its ciphertext. */
  lemma TraceKnownAnswer()
    ensures FromState(ExpectedTrace(PLAINTEXT, KEY)[TRACE_LENGTH - 1].state) == CIPHERTEXT
  {
    TraceEndsInCiphertext(PLAINTEXT, KEY);
    CipherKnownAnswer();
  }
}
