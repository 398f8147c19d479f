/** The known-answer vector of FIPS 197: the cipher key of Appendix A.1
    expanded into its eleven round keys, and the plaintext of Appendix B
    taken through the cipher round by round, ending in the ciphertext
    3925841d 02dc09fb dc118597 196a0b32. These are the key and block that
    FastAes's Interactive program encrypts with LoadKey and EncryptBlock.

    Every fact about the literal values is stated one column of four bytes
    at a time, and a block is put together from its columns with
    ColumnsDetermine, so that the S-box and MixColumns are only ever
    evaluated on literal bytes. */
module KnownAnswer {
  import opened GF256
  import opened Fips197
  import opened Intrinsics
  import opened BaseStaticsX86

  // ---------------------------------------------------------------------------
  // A round from its columns.

  /** Column 0 of ShiftRows(s) holds bytes 0, 5, 10 and 15 of s: row r comes
      from column 0 + r. */
  lemma ShiftRowsColumn0(s: Block)
    ensures Column(ShiftRows(s), 0) == [s[0], s[5], s[10], s[15]]
  {
    var u := ShiftRows(s);
    assert u[0] == s[0] && u[1] == s[5] && u[2] == s[10] && u[3] == s[15];
  }

  /** Column 1 of ShiftRows(s) holds bytes 4, 9, 14 and 3 of s: row r comes
      from column 1 + r. */
  lemma ShiftRowsColumn1(s: Block)
    ensures Column(ShiftRows(s), 1) == [s[4], s[9], s[14], s[3]]
  {
    var u := ShiftRows(s);
    assert u[4] == s[4] && u[5] == s[9] && u[6] == s[14] && u[7] == s[3];
  }

  /** Column 2 of ShiftRows(s) holds bytes 8, 13, 2 and 7 of s: row r comes
      from column 2 + r. */
  lemma ShiftRowsColumn2(s: Block)
    ensures Column(ShiftRows(s), 2) == [s[8], s[13], s[2], s[7]]
  {
    var u := ShiftRows(s);
    assert u[8] == s[8] && u[9] == s[13] && u[10] == s[2] && u[11] == s[7];
  }

  /** Column 3 of ShiftRows(s) holds bytes 12, 1, 6 and 11 of s: row r comes
      from column 3 + r. */
  lemma ShiftRowsColumn3(s: Block)
    ensures Column(ShiftRows(s), 3) == [s[12], s[1], s[6], s[11]]
  {
    var u := ShiftRows(s);
    assert u[12] == s[12] && u[13] == s[1] && u[14] == s[6] && u[15] == s[11];
  }

  /** Column c of a cipher round is MixColumn of column c of the shifted,
      substituted State, plus column c of the round key. */
  lemma RoundColumn(s: Block, k: Block, c: int, u: Word, kc: Word, y: Word)
    requires 0 <= c < 4 && Column(ShiftRows(SubBytes(s)), c) == u && Column(k, c) == kc
    requires AddWord(MixColumn(u), kc) == y
    ensures Column(Round(s, k), c) == y
  {
    var v := ShiftRows(SubBytes(s));
    ColumnAddRoundKey(MixColumns(v), k, c);
    ColumnMixColumns(v, c);
  }

  /** Column c of the final round is column c of the shifted, substituted
      State plus column c of the round key. */
  lemma FinalRoundColumn(s: Block, k: Block, c: int, u: Word, kc: Word, y: Word)
    requires 0 <= c < 4 && Column(ShiftRows(SubBytes(s)), c) == u && Column(k, c) == kc
    requires AddWord(u, kc) == y
    ensures Column(FinalRound(s, k), c) == y
  {
    ColumnAddRoundKey(ShiftRows(SubBytes(s)), k, c);
  }

  // ---------------------------------------------------------------------------
  // The vector.

  /** The cipher key, 2b7e1516 28aed2a6 abf71588 09cf4f3c (Appendix A.1). */
  const CipherKey: Block := [0x2b, 0x7e, 0x15, 0x16] + [0x28, 0xae, 0xd2, 0xa6] + [0xab, 0xf7, 0x15, 0x88] + [0x09, 0xcf, 0x4f, 0x3c]

  /** The plaintext, 3243f6a8 885a308d 313198a2 e0370734 (Appendix B). */
  const Input: Block := [0x32, 0x43, 0xf6, 0xa8] + [0x88, 0x5a, 0x30, 0x8d] + [0x31, 0x31, 0x98, 0xa2] + [0xe0, 0x37, 0x07, 0x34]

  /** The ciphertext, 3925841d 02dc09fb dc118597 196a0b32 (Appendix B). */
  const Output: Block := [0x39, 0x25, 0x84, 0x1d] + [0x02, 0xdc, 0x09, 0xfb] + [0xdc, 0x11, 0x85, 0x97] + [0x19, 0x6a, 0x0b, 0x32]

  /** Round key 1, a0fafe17 88542cb1 23a33939 2a6c7605 (Appendix A.1). */
  const Key1: Block := [0xa0, 0xfa, 0xfe, 0x17] + [0x88, 0x54, 0x2c, 0xb1] + [0x23, 0xa3, 0x39, 0x39] + [0x2a, 0x6c, 0x76, 0x05]

  /** Round key 2, f2c295f2 7a96b943 5935807a 7359f67f (Appendix A.1). */
  const Key2: Block := [0xf2, 0xc2, 0x95, 0xf2] + [0x7a, 0x96, 0xb9, 0x43] + [0x59, 0x35, 0x80, 0x7a] + [0x73, 0x59, 0xf6, 0x7f]

  /** Round key 3, 3d80477d 4716fe3e 1e237e44 6d7a883b (Appendix A.1). */
  const Key3: Block := [0x3d, 0x80, 0x47, 0x7d] + [0x47, 0x16, 0xfe, 0x3e] + [0x1e, 0x23, 0x7e, 0x44] + [0x6d, 0x7a, 0x88, 0x3b]

  /** Round key 4, ef44a541 a8525b7f b671253b db0bad00 (Appendix A.1). */
  const Key4: Block := [0xef, 0x44, 0xa5, 0x41] + [0xa8, 0x52, 0x5b, 0x7f] + [0xb6, 0x71, 0x25, 0x3b] + [0xdb, 0x0b, 0xad, 0x00]

  /** Round key 5, d4d1c6f8 7c839d87 caf2b8bc 11f915bc (Appendix A.1). */
  const Key5: Block := [0xd4, 0xd1, 0xc6, 0xf8] + [0x7c, 0x83, 0x9d, 0x87] + [0xca, 0xf2, 0xb8, 0xbc] + [0x11, 0xf9, 0x15, 0xbc]

  /** Round key 6, 6d88a37a 110b3efd dbf98641 ca0093fd (Appendix A.1). */
  const Key6: Block := [0x6d, 0x88, 0xa3, 0x7a] + [0x11, 0x0b, 0x3e, 0xfd] + [0xdb, 0xf9, 0x86, 0x41] + [0xca, 0x00, 0x93, 0xfd]

  /** Round key 7, 4e54f70e 5f5fc9f3 84a64fb2 4ea6dc4f (Appendix A.1). */
  const Key7: Block := [0x4e, 0x54, 0xf7, 0x0e] + [0x5f, 0x5f, 0xc9, 0xf3] + [0x84, 0xa6, 0x4f, 0xb2] + [0x4e, 0xa6, 0xdc, 0x4f]

  /** Round key 8, ead27321 b58dbad2 312bf560 7f8d292f (Appendix A.1). */
  const Key8: Block := [0xea, 0xd2, 0x73, 0x21] + [0xb5, 0x8d, 0xba, 0xd2] + [0x31, 0x2b, 0xf5, 0x60] + [0x7f, 0x8d, 0x29, 0x2f]

  /** Round key 9, ac7766f3 19fadc21 28d12941 575c006e (Appendix A.1). */
  const Key9: Block := [0xac, 0x77, 0x66, 0xf3] + [0x19, 0xfa, 0xdc, 0x21] + [0x28, 0xd1, 0x29, 0x41] + [0x57, 0x5c, 0x00, 0x6e]

  /** Round key 10, d014f9a8 c9ee2589 e13f0cc8 b6630ca6 (Appendix A.1). */
  const Key10: Block := [0xd0, 0x14, 0xf9, 0xa8] + [0xc9, 0xee, 0x25, 0x89] + [0xe1, 0x3f, 0x0c, 0xc8] + [0xb6, 0x63, 0x0c, 0xa6]

  /** The State at the start of round 1, 193de3be a0f4e22b 9ac68d2a e9f84808 (Appendix B). */
  const Start1: Block := [0x19, 0x3d, 0xe3, 0xbe] + [0xa0, 0xf4, 0xe2, 0x2b] + [0x9a, 0xc6, 0x8d, 0x2a] + [0xe9, 0xf8, 0x48, 0x08]

  /** The State at the start of round 2, a49c7ff2 689f352b 6b5bea43 026a5049 (Appendix B). */
  const Start2: Block := [0xa4, 0x9c, 0x7f, 0xf2] + [0x68, 0x9f, 0x35, 0x2b] + [0x6b, 0x5b, 0xea, 0x43] + [0x02, 0x6a, 0x50, 0x49]

  /** The State at the start of round 3, aa8f5f03 61dde3ef 82d24ad2 6832469a (Appendix B). */
  const Start3: Block := [0xaa, 0x8f, 0x5f, 0x03] + [0x61, 0xdd, 0xe3, 0xef] + [0x82, 0xd2, 0x4a, 0xd2] + [0x68, 0x32, 0x46, 0x9a]

  /** The State at the start of round 4, 486c4eee 671d9d0d 4de3b138 d65f58e7 (Appendix B). */
  const Start4: Block := [0x48, 0x6c, 0x4e, 0xee] + [0x67, 0x1d, 0x9d, 0x0d] + [0x4d, 0xe3, 0xb1, 0x38] + [0xd6, 0x5f, 0x58, 0xe7]

  /** The State at the start of round 5, e0927fe8 c86363c0 d9b13550 85b8be01 (Appendix B). */
  const Start5: Block := [0xe0, 0x92, 0x7f, 0xe8] + [0xc8, 0x63, 0x63, 0xc0] + [0xd9, 0xb1, 0x35, 0x50] + [0x85, 0xb8, 0xbe, 0x01]

  /** The State at the start of round 6, f1006f55 c1924cef 7cc88b32 5db5d50c (Appendix B). */
  const Start6: Block := [0xf1, 0x00, 0x6f, 0x55] + [0xc1, 0x92, 0x4c, 0xef] + [0x7c, 0xc8, 0x8b, 0x32] + [0x5d, 0xb5, 0xd5, 0x0c]

  /** The State at the start of round 7, 260e2e17 3d41b77d e86472a9 fdd28b25 (Appendix B). */
  const Start7: Block := [0x26, 0x0e, 0x2e, 0x17] + [0x3d, 0x41, 0xb7, 0x7d] + [0xe8, 0x64, 0x72, 0xa9] + [0xfd, 0xd2, 0x8b, 0x25]

  /** The State at the start of round 8, 5a4142b1 1949dc1f a3e01965 7a8c040c (Appendix B). */
  const Start8: Block := [0x5a, 0x41, 0x42, 0xb1] + [0x19, 0x49, 0xdc, 0x1f] + [0xa3, 0xe0, 0x19, 0x65] + [0x7a, 0x8c, 0x04, 0x0c]

  /** The State at the start of round 9, ea835cf0 0445332d 655d98ad 8596b0c5 (Appendix B). */
  const Start9: Block := [0xea, 0x83, 0x5c, 0xf0] + [0x04, 0x45, 0x33, 0x2d] + [0x65, 0x5d, 0x98, 0xad] + [0x85, 0x96, 0xb0, 0xc5]

  /** The State at the start of round 10, eb40f21e 592e3884 8ba113e7 1bc342d2 (Appendix B). */
  const Start10: Block := [0xeb, 0x40, 0xf2, 0x1e] + [0x59, 0x2e, 0x38, 0x84] + [0x8b, 0xa1, 0x13, 0xe7] + [0x1b, 0xc3, 0x42, 0xd2]

  // ---------------------------------------------------------------------------
  // The key expansion of Appendix A.1.

  /** The eleven round keys of Appendix A.1, round key 0 being the cipher key. */
  const RoundKeys: seq<Block> := [CipherKey, Key1, Key2, Key3, Key4, Key5, Key6, Key7, Key8, Key9, Key10]

  /** Round key 1 from round key 0, with round constant 01. */
  lemma KeyStep1()
    ensures NextRoundKey(CipherKey, 0x01) == Key1
  {
    NextRoundKeyWords([0x2b, 0x7e, 0x15, 0x16], [0x28, 0xae, 0xd2, 0xa6], [0xab, 0xf7, 0x15, 0x88], [0x09, 0xcf, 0x4f, 0x3c],
      0x01, [0xa0, 0xfa, 0xfe, 0x17], [0x88, 0x54, 0x2c, 0xb1], [0x23, 0xa3, 0x39, 0x39], [0x2a, 0x6c, 0x76, 0x05]);
  }

  /** Round key 2 from round key 1, with round constant 02. */
  lemma KeyStep2()
    ensures NextRoundKey(Key1, 0x02) == Key2
  {
    NextRoundKeyWords([0xa0, 0xfa, 0xfe, 0x17], [0x88, 0x54, 0x2c, 0xb1], [0x23, 0xa3, 0x39, 0x39], [0x2a, 0x6c, 0x76, 0x05],
      0x02, [0xf2, 0xc2, 0x95, 0xf2], [0x7a, 0x96, 0xb9, 0x43], [0x59, 0x35, 0x80, 0x7a], [0x73, 0x59, 0xf6, 0x7f]);
  }

  /** Round key 3 from round key 2, with round constant 04. */
  lemma KeyStep3()
    ensures NextRoundKey(Key2, 0x04) == Key3
  {
    NextRoundKeyWords([0xf2, 0xc2, 0x95, 0xf2], [0x7a, 0x96, 0xb9, 0x43], [0x59, 0x35, 0x80, 0x7a], [0x73, 0x59, 0xf6, 0x7f],
      0x04, [0x3d, 0x80, 0x47, 0x7d], [0x47, 0x16, 0xfe, 0x3e], [0x1e, 0x23, 0x7e, 0x44], [0x6d, 0x7a, 0x88, 0x3b]);
  }

  /** Round key 4 from round key 3, with round constant 08. */
  lemma KeyStep4()
    ensures NextRoundKey(Key3, 0x08) == Key4
  {
    NextRoundKeyWords([0x3d, 0x80, 0x47, 0x7d], [0x47, 0x16, 0xfe, 0x3e], [0x1e, 0x23, 0x7e, 0x44], [0x6d, 0x7a, 0x88, 0x3b],
      0x08, [0xef, 0x44, 0xa5, 0x41], [0xa8, 0x52, 0x5b, 0x7f], [0xb6, 0x71, 0x25, 0x3b], [0xdb, 0x0b, 0xad, 0x00]);
  }

  /** Round key 5 from round key 4, with round constant 10. */
  lemma KeyStep5()
    ensures NextRoundKey(Key4, 0x10) == Key5
  {
    NextRoundKeyWords([0xef, 0x44, 0xa5, 0x41], [0xa8, 0x52, 0x5b, 0x7f], [0xb6, 0x71, 0x25, 0x3b], [0xdb, 0x0b, 0xad, 0x00],
      0x10, [0xd4, 0xd1, 0xc6, 0xf8], [0x7c, 0x83, 0x9d, 0x87], [0xca, 0xf2, 0xb8, 0xbc], [0x11, 0xf9, 0x15, 0xbc]);
  }

  /** Round key 6 from round key 5, with round constant 20. */
  lemma KeyStep6()
    ensures NextRoundKey(Key5, 0x20) == Key6
  {
    NextRoundKeyWords([0xd4, 0xd1, 0xc6, 0xf8], [0x7c, 0x83, 0x9d, 0x87], [0xca, 0xf2, 0xb8, 0xbc], [0x11, 0xf9, 0x15, 0xbc],
      0x20, [0x6d, 0x88, 0xa3, 0x7a], [0x11, 0x0b, 0x3e, 0xfd], [0xdb, 0xf9, 0x86, 0x41], [0xca, 0x00, 0x93, 0xfd]);
  }

  /** Round key 7 from round key 6, with round constant 40. */
  lemma KeyStep7()
    ensures NextRoundKey(Key6, 0x40) == Key7
  {
    NextRoundKeyWords([0x6d, 0x88, 0xa3, 0x7a], [0x11, 0x0b, 0x3e, 0xfd], [0xdb, 0xf9, 0x86, 0x41], [0xca, 0x00, 0x93, 0xfd],
      0x40, [0x4e, 0x54, 0xf7, 0x0e], [0x5f, 0x5f, 0xc9, 0xf3], [0x84, 0xa6, 0x4f, 0xb2], [0x4e, 0xa6, 0xdc, 0x4f]);
  }

  /** Round key 8 from round key 7, with round constant 80. */
  lemma KeyStep8()
    ensures NextRoundKey(Key7, 0x80) == Key8
  {
    NextRoundKeyWords([0x4e, 0x54, 0xf7, 0x0e], [0x5f, 0x5f, 0xc9, 0xf3], [0x84, 0xa6, 0x4f, 0xb2], [0x4e, 0xa6, 0xdc, 0x4f],
      0x80, [0xea, 0xd2, 0x73, 0x21], [0xb5, 0x8d, 0xba, 0xd2], [0x31, 0x2b, 0xf5, 0x60], [0x7f, 0x8d, 0x29, 0x2f]);
  }

  /** Round key 9 from round key 8, with round constant 1b. */
  lemma KeyStep9()
    ensures NextRoundKey(Key8, 0x1b) == Key9
  {
    NextRoundKeyWords([0xea, 0xd2, 0x73, 0x21], [0xb5, 0x8d, 0xba, 0xd2], [0x31, 0x2b, 0xf5, 0x60], [0x7f, 0x8d, 0x29, 0x2f],
      0x1b, [0xac, 0x77, 0x66, 0xf3], [0x19, 0xfa, 0xdc, 0x21], [0x28, 0xd1, 0x29, 0x41], [0x57, 0x5c, 0x00, 0x6e]);
  }

  /** Round key 10 from round key 9, with round constant 36. */
  lemma KeyStep10()
    ensures NextRoundKey(Key9, 0x36) == Key10
  {
    NextRoundKeyWords([0xac, 0x77, 0x66, 0xf3], [0x19, 0xfa, 0xdc, 0x21], [0x28, 0xd1, 0x29, 0x41], [0x57, 0x5c, 0x00, 0x6e],
      0x36, [0xd0, 0x14, 0xf9, 0xa8], [0xc9, 0xee, 0x25, 0x89], [0xe1, 0x3f, 0x0c, 0xc8], [0xb6, 0x63, 0x0c, 0xa6]);
  }

  /** Round key r is the key-expansion step of round key r - 1, whatever
      their values. */
  lemma RoundKeyFrom(key: Block, r: nat, prev: Block, rc: Byte, next: Block)
    requires 1 <= r && RoundKey(key, r - 1) == prev && rc == RC(r) && NextRoundKey(prev, rc) == next
    ensures RoundKey(key, r) == next
  {
    RoundKeyNext(key, r);
  }

  /** Each round key of Appendix A.1 after the first is the key-expansion
      step of the one before, with the round constant of its round. */
  lemma KeyStep(r: nat)
    requires 1 <= r <= Nr
    ensures NextRoundKey(RoundKeys[r - 1], RoundConstants[r - 1]) == RoundKeys[r]
  {
    if r == 1 {
      assert RoundKeys[r - 1] == CipherKey && RoundKeys[r] == Key1 && RoundConstants[r - 1] == 0x01;
      KeyStep1();
    } else if r == 2 {
      assert RoundKeys[r - 1] == Key1 && RoundKeys[r] == Key2 && RoundConstants[r - 1] == 0x02;
      KeyStep2();
    } else if r == 3 {
      assert RoundKeys[r - 1] == Key2 && RoundKeys[r] == Key3 && RoundConstants[r - 1] == 0x04;
      KeyStep3();
    } else if r == 4 {
      assert RoundKeys[r - 1] == Key3 && RoundKeys[r] == Key4 && RoundConstants[r - 1] == 0x08;
      KeyStep4();
    } else if r == 5 {
      assert RoundKeys[r - 1] == Key4 && RoundKeys[r] == Key5 && RoundConstants[r - 1] == 0x10;
      KeyStep5();
    } else if r == 6 {
      assert RoundKeys[r - 1] == Key5 && RoundKeys[r] == Key6 && RoundConstants[r - 1] == 0x20;
      KeyStep6();
    } else if r == 7 {
      assert RoundKeys[r - 1] == Key6 && RoundKeys[r] == Key7 && RoundConstants[r - 1] == 0x40;
      KeyStep7();
    } else if r == 8 {
      assert RoundKeys[r - 1] == Key7 && RoundKeys[r] == Key8 && RoundConstants[r - 1] == 0x80;
      KeyStep8();
    } else if r == 9 {
      assert RoundKeys[r - 1] == Key8 && RoundKeys[r] == Key9 && RoundConstants[r - 1] == 0x1b;
      KeyStep9();
    } else {
      assert RoundKeys[r - 1] == Key9 && RoundKeys[r] == Key10 && RoundConstants[r - 1] == 0x36;
      KeyStep10();
    }
  }

  /** The key expansion of the cipher key agrees with Appendix A.1 up to
      round key r. */
  lemma {:induction false} KeyExpansionPrefix(r: nat)
    requires r <= Nr
    ensures RoundKey(CipherKey, r) == RoundKeys[r]
  {
    if r == 0 {
      RoundKeyZero(CipherKey);
    } else {
      KeyExpansionPrefix(r - 1);
      RoundConstantsRC(r);
      KeyStep(r);
      RoundKeyFrom(CipherKey, r, RoundKeys[r - 1], RoundConstants[r - 1], RoundKeys[r]);
    }
  }

  /** KeyExpansion of the cipher key of Appendix A.1 yields its eleven round keys. */
  lemma KeyExpansionKeys()
    ensures KeyExpansion(CipherKey) == RoundKeys
  {
    var w := KeyExpansion(CipherKey);
    forall r | 0 <= r <= Nr
      ensures w[r] == RoundKeys[r]
    {
      KeyExpansionPrefix(r);
    }
  }

  // ---------------------------------------------------------------------------
  // The cipher of Appendix B.

  /** The round key of round 0 added to the input. */
  lemma CipherStart()
    ensures AddRoundKey(Input, CipherKey) == Start1
  {
    ColumnsConcat([0x32, 0x43, 0xf6, 0xa8], [0x88, 0x5a, 0x30, 0x8d], [0x31, 0x31, 0x98, 0xa2], [0xe0, 0x37, 0x07, 0x34]);
    ColumnsConcat([0x2b, 0x7e, 0x15, 0x16], [0x28, 0xae, 0xd2, 0xa6], [0xab, 0xf7, 0x15, 0x88], [0x09, 0xcf, 0x4f, 0x3c]);
    ColumnsConcat([0x19, 0x3d, 0xe3, 0xbe], [0xa0, 0xf4, 0xe2, 0x2b], [0x9a, 0xc6, 0x8d, 0x2a], [0xe9, 0xf8, 0x48, 0x08]);
    ColumnAddRoundKey(Input, CipherKey, 0);
    ColumnAddRoundKey(Input, CipherKey, 1);
    ColumnAddRoundKey(Input, CipherKey, 2);
    ColumnAddRoundKey(Input, CipherKey, 3);
    ColumnsDetermine(AddRoundKey(Input, CipherKey), Start1);
  }

  /** Column 0 after round 1. */
  lemma CipherRound1Column0()
    ensures Column(Round(Start1, Key1), 0) == [0xa4, 0x9c, 0x7f, 0xf2]
  {
    ColumnsConcat([0xa0, 0xfa, 0xfe, 0x17], [0x88, 0x54, 0x2c, 0xb1], [0x23, 0xa3, 0x39, 0x39], [0x2a, 0x6c, 0x76, 0x05]);
    assert Start1[0] == 0x19 && Start1[5] == 0xf4 && Start1[10] == 0x8d && Start1[15] == 0x08;
    ShiftRowsColumn0(SubBytes(Start1));
    RoundColumn(Start1, Key1, 0, [0xd4, 0xbf, 0x5d, 0x30], [0xa0, 0xfa, 0xfe, 0x17], [0xa4, 0x9c, 0x7f, 0xf2]);
  }

  /** Column 1 after round 1. */
  lemma CipherRound1Column1()
    ensures Column(Round(Start1, Key1), 1) == [0x68, 0x9f, 0x35, 0x2b]
  {
    ColumnsConcat([0xa0, 0xfa, 0xfe, 0x17], [0x88, 0x54, 0x2c, 0xb1], [0x23, 0xa3, 0x39, 0x39], [0x2a, 0x6c, 0x76, 0x05]);
    assert Start1[4] == 0xa0 && Start1[9] == 0xc6 && Start1[14] == 0x48 && Start1[3] == 0xbe;
    ShiftRowsColumn1(SubBytes(Start1));
    RoundColumn(Start1, Key1, 1, [0xe0, 0xb4, 0x52, 0xae], [0x88, 0x54, 0x2c, 0xb1], [0x68, 0x9f, 0x35, 0x2b]);
  }

  /** Column 2 after round 1. */
  lemma CipherRound1Column2()
    ensures Column(Round(Start1, Key1), 2) == [0x6b, 0x5b, 0xea, 0x43]
  {
    ColumnsConcat([0xa0, 0xfa, 0xfe, 0x17], [0x88, 0x54, 0x2c, 0xb1], [0x23, 0xa3, 0x39, 0x39], [0x2a, 0x6c, 0x76, 0x05]);
    assert Start1[8] == 0x9a && Start1[13] == 0xf8 && Start1[2] == 0xe3 && Start1[7] == 0x2b;
    ShiftRowsColumn2(SubBytes(Start1));
    RoundColumn(Start1, Key1, 2, [0xb8, 0x41, 0x11, 0xf1], [0x23, 0xa3, 0x39, 0x39], [0x6b, 0x5b, 0xea, 0x43]);
  }

  /** Column 3 after round 1. */
  lemma CipherRound1Column3()
    ensures Column(Round(Start1, Key1), 3) == [0x02, 0x6a, 0x50, 0x49]
  {
    ColumnsConcat([0xa0, 0xfa, 0xfe, 0x17], [0x88, 0x54, 0x2c, 0xb1], [0x23, 0xa3, 0x39, 0x39], [0x2a, 0x6c, 0x76, 0x05]);
    assert Start1[12] == 0xe9 && Start1[1] == 0x3d && Start1[6] == 0xe2 && Start1[11] == 0x2a;
    ShiftRowsColumn3(SubBytes(Start1));
    RoundColumn(Start1, Key1, 3, [0x1e, 0x27, 0x98, 0xe5], [0x2a, 0x6c, 0x76, 0x05], [0x02, 0x6a, 0x50, 0x49]);
  }

  /** Round 1. */
  lemma CipherRound1()
    ensures Round(Start1, Key1) == Start2
  {
    CipherRound1Column0();
    CipherRound1Column1();
    CipherRound1Column2();
    CipherRound1Column3();
    ColumnsConcat([0xa4, 0x9c, 0x7f, 0xf2], [0x68, 0x9f, 0x35, 0x2b], [0x6b, 0x5b, 0xea, 0x43], [0x02, 0x6a, 0x50, 0x49]);
    ColumnsDetermine(Round(Start1, Key1), Start2);
  }

  /** Column 0 after round 2. */
  lemma CipherRound2Column0()
    ensures Column(Round(Start2, Key2), 0) == [0xaa, 0x8f, 0x5f, 0x03]
  {
    ColumnsConcat([0xf2, 0xc2, 0x95, 0xf2], [0x7a, 0x96, 0xb9, 0x43], [0x59, 0x35, 0x80, 0x7a], [0x73, 0x59, 0xf6, 0x7f]);
    assert Start2[0] == 0xa4 && Start2[5] == 0x9f && Start2[10] == 0xea && Start2[15] == 0x49;
    ShiftRowsColumn0(SubBytes(Start2));
    RoundColumn(Start2, Key2, 0, [0x49, 0xdb, 0x87, 0x3b], [0xf2, 0xc2, 0x95, 0xf2], [0xaa, 0x8f, 0x5f, 0x03]);
  }

  /** Column 1 after round 2. */
  lemma CipherRound2Column1()
    ensures Column(Round(Start2, Key2), 1) == [0x61, 0xdd, 0xe3, 0xef]
  {
    ColumnsConcat([0xf2, 0xc2, 0x95, 0xf2], [0x7a, 0x96, 0xb9, 0x43], [0x59, 0x35, 0x80, 0x7a], [0x73, 0x59, 0xf6, 0x7f]);
    assert Start2[4] == 0x68 && Start2[9] == 0x5b && Start2[14] == 0x50 && Start2[3] == 0xf2;
    ShiftRowsColumn1(SubBytes(Start2));
    RoundColumn(Start2, Key2, 1, [0x45, 0x39, 0x53, 0x89], [0x7a, 0x96, 0xb9, 0x43], [0x61, 0xdd, 0xe3, 0xef]);
  }

  /** Column 2 after round 2. */
  lemma CipherRound2Column2()
    ensures Column(Round(Start2, Key2), 2) == [0x82, 0xd2, 0x4a, 0xd2]
  {
    ColumnsConcat([0xf2, 0xc2, 0x95, 0xf2], [0x7a, 0x96, 0xb9, 0x43], [0x59, 0x35, 0x80, 0x7a], [0x73, 0x59, 0xf6, 0x7f]);
    assert Start2[8] == 0x6b && Start2[13] == 0x6a && Start2[2] == 0x7f && Start2[7] == 0x2b;
    ShiftRowsColumn2(SubBytes(Start2));
    RoundColumn(Start2, Key2, 2, [0x7f, 0x02, 0xd2, 0xf1], [0x59, 0x35, 0x80, 0x7a], [0x82, 0xd2, 0x4a, 0xd2]);
  }

  /** Column 3 after round 2. */
  lemma CipherRound2Column3()
    ensures Column(Round(Start2, Key2), 3) == [0x68, 0x32, 0x46, 0x9a]
  {
    ColumnsConcat([0xf2, 0xc2, 0x95, 0xf2], [0x7a, 0x96, 0xb9, 0x43], [0x59, 0x35, 0x80, 0x7a], [0x73, 0x59, 0xf6, 0x7f]);
    assert Start2[12] == 0x02 && Start2[1] == 0x9c && Start2[6] == 0x35 && Start2[11] == 0x43;
    ShiftRowsColumn3(SubBytes(Start2));
    RoundColumn(Start2, Key2, 3, [0x77, 0xde, 0x96, 0x1a], [0x73, 0x59, 0xf6, 0x7f], [0x68, 0x32, 0x46, 0x9a]);
  }

  /** Round 2. */
  lemma CipherRound2()
    ensures Round(Start2, Key2) == Start3
  {
    CipherRound2Column0();
    CipherRound2Column1();
    CipherRound2Column2();
    CipherRound2Column3();
    ColumnsConcat([0xaa, 0x8f, 0x5f, 0x03], [0x61, 0xdd, 0xe3, 0xef], [0x82, 0xd2, 0x4a, 0xd2], [0x68, 0x32, 0x46, 0x9a]);
    ColumnsDetermine(Round(Start2, Key2), Start3);
  }

  /** Column 0 after round 3. */
  lemma CipherRound3Column0()
    ensures Column(Round(Start3, Key3), 0) == [0x48, 0x6c, 0x4e, 0xee]
  {
    ColumnsConcat([0x3d, 0x80, 0x47, 0x7d], [0x47, 0x16, 0xfe, 0x3e], [0x1e, 0x23, 0x7e, 0x44], [0x6d, 0x7a, 0x88, 0x3b]);
    assert Start3[0] == 0xaa && Start3[5] == 0xdd && Start3[10] == 0x4a && Start3[15] == 0x9a;
    ShiftRowsColumn0(SubBytes(Start3));
    RoundColumn(Start3, Key3, 0, [0xac, 0xc1, 0xd6, 0xb8], [0x3d, 0x80, 0x47, 0x7d], [0x48, 0x6c, 0x4e, 0xee]);
  }

  /** Column 1 after round 3. */
  lemma CipherRound3Column1()
    ensures Column(Round(Start3, Key3), 1) == [0x67, 0x1d, 0x9d, 0x0d]
  {
    ColumnsConcat([0x3d, 0x80, 0x47, 0x7d], [0x47, 0x16, 0xfe, 0x3e], [0x1e, 0x23, 0x7e, 0x44], [0x6d, 0x7a, 0x88, 0x3b]);
    assert Start3[4] == 0x61 && Start3[9] == 0xd2 && Start3[14] == 0x46 && Start3[3] == 0x03;
    ShiftRowsColumn1(SubBytes(Start3));
    RoundColumn(Start3, Key3, 1, [0xef, 0xb5, 0x5a, 0x7b], [0x47, 0x16, 0xfe, 0x3e], [0x67, 0x1d, 0x9d, 0x0d]);
  }

  /** Column 2 after round 3. */
  lemma CipherRound3Column2()
    ensures Column(Round(Start3, Key3), 2) == [0x4d, 0xe3, 0xb1, 0x38]
  {
    ColumnsConcat([0x3d, 0x80, 0x47, 0x7d], [0x47, 0x16, 0xfe, 0x3e], [0x1e, 0x23, 0x7e, 0x44], [0x6d, 0x7a, 0x88, 0x3b]);
    assert Start3[8] == 0x82 && Start3[13] == 0x32 && Start3[2] == 0x5f && Start3[7] == 0xef;
    ShiftRowsColumn2(SubBytes(Start3));
    RoundColumn(Start3, Key3, 2, [0x13, 0x23, 0xcf, 0xdf], [0x1e, 0x23, 0x7e, 0x44], [0x4d, 0xe3, 0xb1, 0x38]);
  }

  /** Column 3 after round 3. */
  lemma CipherRound3Column3()
    ensures Column(Round(Start3, Key3), 3) == [0xd6, 0x5f, 0x58, 0xe7]
  {
    ColumnsConcat([0x3d, 0x80, 0x47, 0x7d], [0x47, 0x16, 0xfe, 0x3e], [0x1e, 0x23, 0x7e, 0x44], [0x6d, 0x7a, 0x88, 0x3b]);
    assert Start3[12] == 0x68 && Start3[1] == 0x8f && Start3[6] == 0xe3 && Start3[11] == 0xd2;
    ShiftRowsColumn3(SubBytes(Start3));
    RoundColumn(Start3, Key3, 3, [0x45, 0x73, 0x11, 0xb5], [0x6d, 0x7a, 0x88, 0x3b], [0xd6, 0x5f, 0x58, 0xe7]);
  }

  /** Round 3. */
  lemma CipherRound3()
    ensures Round(Start3, Key3) == Start4
  {
    CipherRound3Column0();
    CipherRound3Column1();
    CipherRound3Column2();
    CipherRound3Column3();
    ColumnsConcat([0x48, 0x6c, 0x4e, 0xee], [0x67, 0x1d, 0x9d, 0x0d], [0x4d, 0xe3, 0xb1, 0x38], [0xd6, 0x5f, 0x58, 0xe7]);
    ColumnsDetermine(Round(Start3, Key3), Start4);
  }

  /** Column 0 after round 4. */
  lemma CipherRound4Column0()
    ensures Column(Round(Start4, Key4), 0) == [0xe0, 0x92, 0x7f, 0xe8]
  {
    ColumnsConcat([0xef, 0x44, 0xa5, 0x41], [0xa8, 0x52, 0x5b, 0x7f], [0xb6, 0x71, 0x25, 0x3b], [0xdb, 0x0b, 0xad, 0x00]);
    assert Start4[0] == 0x48 && Start4[5] == 0x1d && Start4[10] == 0xb1 && Start4[15] == 0xe7;
    ShiftRowsColumn0(SubBytes(Start4));
    RoundColumn(Start4, Key4, 0, [0x52, 0xa4, 0xc8, 0x94], [0xef, 0x44, 0xa5, 0x41], [0xe0, 0x92, 0x7f, 0xe8]);
  }

  /** Column 1 after round 4. */
  lemma CipherRound4Column1()
    ensures Column(Round(Start4, Key4), 1) == [0xc8, 0x63, 0x63, 0xc0]
  {
    ColumnsConcat([0xef, 0x44, 0xa5, 0x41], [0xa8, 0x52, 0x5b, 0x7f], [0xb6, 0x71, 0x25, 0x3b], [0xdb, 0x0b, 0xad, 0x00]);
    assert Start4[4] == 0x67 && Start4[9] == 0xe3 && Start4[14] == 0x58 && Start4[3] == 0xee;
    ShiftRowsColumn1(SubBytes(Start4));
    RoundColumn(Start4, Key4, 1, [0x85, 0x11, 0x6a, 0x28], [0xa8, 0x52, 0x5b, 0x7f], [0xc8, 0x63, 0x63, 0xc0]);
  }

  /** Column 2 after round 4. */
  lemma CipherRound4Column2()
    ensures Column(Round(Start4, Key4), 2) == [0xd9, 0xb1, 0x35, 0x50]
  {
    ColumnsConcat([0xef, 0x44, 0xa5, 0x41], [0xa8, 0x52, 0x5b, 0x7f], [0xb6, 0x71, 0x25, 0x3b], [0xdb, 0x0b, 0xad, 0x00]);
    assert Start4[8] == 0x4d && Start4[13] == 0x5f && Start4[2] == 0x4e && Start4[7] == 0x0d;
    ShiftRowsColumn2(SubBytes(Start4));
    RoundColumn(Start4, Key4, 2, [0xe3, 0xcf, 0x2f, 0xd7], [0xb6, 0x71, 0x25, 0x3b], [0xd9, 0xb1, 0x35, 0x50]);
  }

  /** Column 3 after round 4. */
  lemma CipherRound4Column3()
    ensures Column(Round(Start4, Key4), 3) == [0x85, 0xb8, 0xbe, 0x01]
  {
    ColumnsConcat([0xef, 0x44, 0xa5, 0x41], [0xa8, 0x52, 0x5b, 0x7f], [0xb6, 0x71, 0x25, 0x3b], [0xdb, 0x0b, 0xad, 0x00]);
    assert Start4[12] == 0xd6 && Start4[1] == 0x6c && Start4[6] == 0x9d && Start4[11] == 0x38;
    ShiftRowsColumn3(SubBytes(Start4));
    RoundColumn(Start4, Key4, 3, [0xf6, 0x50, 0x5e, 0x07], [0xdb, 0x0b, 0xad, 0x00], [0x85, 0xb8, 0xbe, 0x01]);
  }

  /** Round 4. */
  lemma CipherRound4()
    ensures Round(Start4, Key4) == Start5
  {
    CipherRound4Column0();
    CipherRound4Column1();
    CipherRound4Column2();
    CipherRound4Column3();
    ColumnsConcat([0xe0, 0x92, 0x7f, 0xe8], [0xc8, 0x63, 0x63, 0xc0], [0xd9, 0xb1, 0x35, 0x50], [0x85, 0xb8, 0xbe, 0x01]);
    ColumnsDetermine(Round(Start4, Key4), Start5);
  }

  /** Column 0 after round 5. */
  lemma CipherRound5Column0()
    ensures Column(Round(Start5, Key5), 0) == [0xf1, 0x00, 0x6f, 0x55]
  {
    ColumnsConcat([0xd4, 0xd1, 0xc6, 0xf8], [0x7c, 0x83, 0x9d, 0x87], [0xca, 0xf2, 0xb8, 0xbc], [0x11, 0xf9, 0x15, 0xbc]);
    assert Start5[0] == 0xe0 && Start5[5] == 0x63 && Start5[10] == 0x35 && Start5[15] == 0x01;
    ShiftRowsColumn0(SubBytes(Start5));
    RoundColumn(Start5, Key5, 0, [0xe1, 0xfb, 0x96, 0x7c], [0xd4, 0xd1, 0xc6, 0xf8], [0xf1, 0x00, 0x6f, 0x55]);
  }

  /** Column 1 after round 5. */
  lemma CipherRound5Column1()
    ensures Column(Round(Start5, Key5), 1) == [0xc1, 0x92, 0x4c, 0xef]
  {
    ColumnsConcat([0xd4, 0xd1, 0xc6, 0xf8], [0x7c, 0x83, 0x9d, 0x87], [0xca, 0xf2, 0xb8, 0xbc], [0x11, 0xf9, 0x15, 0xbc]);
    assert Start5[4] == 0xc8 && Start5[9] == 0xb1 && Start5[14] == 0xbe && Start5[3] == 0xe8;
    ShiftRowsColumn1(SubBytes(Start5));
    RoundColumn(Start5, Key5, 1, [0xe8, 0xc8, 0xae, 0x9b], [0x7c, 0x83, 0x9d, 0x87], [0xc1, 0x92, 0x4c, 0xef]);
  }

  /** Column 2 after round 5. */
  lemma CipherRound5Column2()
    ensures Column(Round(Start5, Key5), 2) == [0x7c, 0xc8, 0x8b, 0x32]
  {
    ColumnsConcat([0xd4, 0xd1, 0xc6, 0xf8], [0x7c, 0x83, 0x9d, 0x87], [0xca, 0xf2, 0xb8, 0xbc], [0x11, 0xf9, 0x15, 0xbc]);
    assert Start5[8] == 0xd9 && Start5[13] == 0xb8 && Start5[2] == 0x7f && Start5[7] == 0xc0;
    ShiftRowsColumn2(SubBytes(Start5));
    RoundColumn(Start5, Key5, 2, [0x35, 0x6c, 0xd2, 0xba], [0xca, 0xf2, 0xb8, 0xbc], [0x7c, 0xc8, 0x8b, 0x32]);
  }

  /** Column 3 after round 5. */
  lemma CipherRound5Column3()
    ensures Column(Round(Start5, Key5), 3) == [0x5d, 0xb5, 0xd5, 0x0c]
  {
    ColumnsConcat([0xd4, 0xd1, 0xc6, 0xf8], [0x7c, 0x83, 0x9d, 0x87], [0xca, 0xf2, 0xb8, 0xbc], [0x11, 0xf9, 0x15, 0xbc]);
    assert Start5[12] == 0x85 && Start5[1] == 0x92 && Start5[6] == 0x63 && Start5[11] == 0x50;
    ShiftRowsColumn3(SubBytes(Start5));
    RoundColumn(Start5, Key5, 3, [0x97, 0x4f, 0xfb, 0x53], [0x11, 0xf9, 0x15, 0xbc], [0x5d, 0xb5, 0xd5, 0x0c]);
  }

  /** Round 5. */
  lemma CipherRound5()
    ensures Round(Start5, Key5) == Start6
  {
    CipherRound5Column0();
    CipherRound5Column1();
    CipherRound5Column2();
    CipherRound5Column3();
    ColumnsConcat([0xf1, 0x00, 0x6f, 0x55], [0xc1, 0x92, 0x4c, 0xef], [0x7c, 0xc8, 0x8b, 0x32], [0x5d, 0xb5, 0xd5, 0x0c]);
    ColumnsDetermine(Round(Start5, Key5), Start6);
  }

  /** Column 0 after round 6. */
  lemma CipherRound6Column0()
    ensures Column(Round(Start6, Key6), 0) == [0x26, 0x0e, 0x2e, 0x17]
  {
    ColumnsConcat([0x6d, 0x88, 0xa3, 0x7a], [0x11, 0x0b, 0x3e, 0xfd], [0xdb, 0xf9, 0x86, 0x41], [0xca, 0x00, 0x93, 0xfd]);
    assert Start6[0] == 0xf1 && Start6[5] == 0x92 && Start6[10] == 0x8b && Start6[15] == 0x0c;
    ShiftRowsColumn0(SubBytes(Start6));
    RoundColumn(Start6, Key6, 0, [0xa1, 0x4f, 0x3d, 0xfe], [0x6d, 0x88, 0xa3, 0x7a], [0x26, 0x0e, 0x2e, 0x17]);
  }

  /** Column 1 after round 6. */
  lemma CipherRound6Column1()
    ensures Column(Round(Start6, Key6), 1) == [0x3d, 0x41, 0xb7, 0x7d]
  {
    ColumnsConcat([0x6d, 0x88, 0xa3, 0x7a], [0x11, 0x0b, 0x3e, 0xfd], [0xdb, 0xf9, 0x86, 0x41], [0xca, 0x00, 0x93, 0xfd]);
    assert Start6[4] == 0xc1 && Start6[9] == 0xc8 && Start6[14] == 0xd5 && Start6[3] == 0x55;
    ShiftRowsColumn1(SubBytes(Start6));
    RoundColumn(Start6, Key6, 1, [0x78, 0xe8, 0x03, 0xfc], [0x11, 0x0b, 0x3e, 0xfd], [0x3d, 0x41, 0xb7, 0x7d]);
  }

  /** Column 2 after round 6. */
  lemma CipherRound6Column2()
    ensures Column(Round(Start6, Key6), 2) == [0xe8, 0x64, 0x72, 0xa9]
  {
    ColumnsConcat([0x6d, 0x88, 0xa3, 0x7a], [0x11, 0x0b, 0x3e, 0xfd], [0xdb, 0xf9, 0x86, 0x41], [0xca, 0x00, 0x93, 0xfd]);
    assert Start6[8] == 0x7c && Start6[13] == 0xb5 && Start6[2] == 0x6f && Start6[7] == 0xef;
    ShiftRowsColumn2(SubBytes(Start6));
    RoundColumn(Start6, Key6, 2, [0x10, 0xd5, 0xa8, 0xdf], [0xdb, 0xf9, 0x86, 0x41], [0xe8, 0x64, 0x72, 0xa9]);
  }

  /** Column 3 after round 6. */
  lemma CipherRound6Column3()
    ensures Column(Round(Start6, Key6), 3) == [0xfd, 0xd2, 0x8b, 0x25]
  {
    ColumnsConcat([0x6d, 0x88, 0xa3, 0x7a], [0x11, 0x0b, 0x3e, 0xfd], [0xdb, 0xf9, 0x86, 0x41], [0xca, 0x00, 0x93, 0xfd]);
    assert Start6[12] == 0x5d && Start6[1] == 0x00 && Start6[6] == 0x4c && Start6[11] == 0x32;
    ShiftRowsColumn3(SubBytes(Start6));
    RoundColumn(Start6, Key6, 3, [0x4c, 0x63, 0x29, 0x23], [0xca, 0x00, 0x93, 0xfd], [0xfd, 0xd2, 0x8b, 0x25]);
  }

  /** Round 6. */
  lemma CipherRound6()
    ensures Round(Start6, Key6) == Start7
  {
    CipherRound6Column0();
    CipherRound6Column1();
    CipherRound6Column2();
    CipherRound6Column3();
    ColumnsConcat([0x26, 0x0e, 0x2e, 0x17], [0x3d, 0x41, 0xb7, 0x7d], [0xe8, 0x64, 0x72, 0xa9], [0xfd, 0xd2, 0x8b, 0x25]);
    ColumnsDetermine(Round(Start6, Key6), Start7);
  }

  /** Column 0 after round 7. */
  lemma CipherRound7Column0()
    ensures Column(Round(Start7, Key7), 0) == [0x5a, 0x41, 0x42, 0xb1]
  {
    ColumnsConcat([0x4e, 0x54, 0xf7, 0x0e], [0x5f, 0x5f, 0xc9, 0xf3], [0x84, 0xa6, 0x4f, 0xb2], [0x4e, 0xa6, 0xdc, 0x4f]);
    assert Start7[0] == 0x26 && Start7[5] == 0x41 && Start7[10] == 0x72 && Start7[15] == 0x25;
    ShiftRowsColumn0(SubBytes(Start7));
    RoundColumn(Start7, Key7, 0, [0xf7, 0x83, 0x40, 0x3f], [0x4e, 0x54, 0xf7, 0x0e], [0x5a, 0x41, 0x42, 0xb1]);
  }

  /** Column 1 after round 7. */
  lemma CipherRound7Column1()
    ensures Column(Round(Start7, Key7), 1) == [0x19, 0x49, 0xdc, 0x1f]
  {
    ColumnsConcat([0x4e, 0x54, 0xf7, 0x0e], [0x5f, 0x5f, 0xc9, 0xf3], [0x84, 0xa6, 0x4f, 0xb2], [0x4e, 0xa6, 0xdc, 0x4f]);
    assert Start7[4] == 0x3d && Start7[9] == 0x64 && Start7[14] == 0x8b && Start7[3] == 0x17;
    ShiftRowsColumn1(SubBytes(Start7));
    RoundColumn(Start7, Key7, 1, [0x27, 0x43, 0x3d, 0xf0], [0x5f, 0x5f, 0xc9, 0xf3], [0x19, 0x49, 0xdc, 0x1f]);
  }

  /** Column 2 after round 7. */
  lemma CipherRound7Column2()
    ensures Column(Round(Start7, Key7), 2) == [0xa3, 0xe0, 0x19, 0x65]
  {
    ColumnsConcat([0x4e, 0x54, 0xf7, 0x0e], [0x5f, 0x5f, 0xc9, 0xf3], [0x84, 0xa6, 0x4f, 0xb2], [0x4e, 0xa6, 0xdc, 0x4f]);
    assert Start7[8] == 0xe8 && Start7[13] == 0xd2 && Start7[2] == 0x2e && Start7[7] == 0x7d;
    ShiftRowsColumn2(SubBytes(Start7));
    RoundColumn(Start7, Key7, 2, [0x9b, 0xb5, 0x31, 0xff], [0x84, 0xa6, 0x4f, 0xb2], [0xa3, 0xe0, 0x19, 0x65]);
  }

  /** Column 3 after round 7. */
  lemma CipherRound7Column3()
    ensures Column(Round(Start7, Key7), 3) == [0x7a, 0x8c, 0x04, 0x0c]
  {
    ColumnsConcat([0x4e, 0x54, 0xf7, 0x0e], [0x5f, 0x5f, 0xc9, 0xf3], [0x84, 0xa6, 0x4f, 0xb2], [0x4e, 0xa6, 0xdc, 0x4f]);
    assert Start7[12] == 0xfd && Start7[1] == 0x0e && Start7[6] == 0xb7 && Start7[11] == 0xa9;
    ShiftRowsColumn3(SubBytes(Start7));
    RoundColumn(Start7, Key7, 3, [0x54, 0xab, 0xa9, 0xd3], [0x4e, 0xa6, 0xdc, 0x4f], [0x7a, 0x8c, 0x04, 0x0c]);
  }

  /** Round 7. */
  lemma CipherRound7()
    ensures Round(Start7, Key7) == Start8
  {
    CipherRound7Column0();
    CipherRound7Column1();
    CipherRound7Column2();
    CipherRound7Column3();
    ColumnsConcat([0x5a, 0x41, 0x42, 0xb1], [0x19, 0x49, 0xdc, 0x1f], [0xa3, 0xe0, 0x19, 0x65], [0x7a, 0x8c, 0x04, 0x0c]);
    ColumnsDetermine(Round(Start7, Key7), Start8);
  }

  /** Column 0 after round 8. */
  lemma CipherRound8Column0()
    ensures Column(Round(Start8, Key8), 0) == [0xea, 0x83, 0x5c, 0xf0]
  {
    ColumnsConcat([0xea, 0xd2, 0x73, 0x21], [0xb5, 0x8d, 0xba, 0xd2], [0x31, 0x2b, 0xf5, 0x60], [0x7f, 0x8d, 0x29, 0x2f]);
    assert Start8[0] == 0x5a && Start8[5] == 0x49 && Start8[10] == 0x19 && Start8[15] == 0x0c;
    ShiftRowsColumn0(SubBytes(Start8));
    RoundColumn(Start8, Key8, 0, [0xbe, 0x3b, 0xd4, 0xfe], [0xea, 0xd2, 0x73, 0x21], [0xea, 0x83, 0x5c, 0xf0]);
  }

  /** Column 1 after round 8. */
  lemma CipherRound8Column1()
    ensures Column(Round(Start8, Key8), 1) == [0x04, 0x45, 0x33, 0x2d]
  {
    ColumnsConcat([0xea, 0xd2, 0x73, 0x21], [0xb5, 0x8d, 0xba, 0xd2], [0x31, 0x2b, 0xf5, 0x60], [0x7f, 0x8d, 0x29, 0x2f]);
    assert Start8[4] == 0x19 && Start8[9] == 0xe0 && Start8[14] == 0x04 && Start8[3] == 0xb1;
    ShiftRowsColumn1(SubBytes(Start8));
    RoundColumn(Start8, Key8, 1, [0xd4, 0xe1, 0xf2, 0xc8], [0xb5, 0x8d, 0xba, 0xd2], [0x04, 0x45, 0x33, 0x2d]);
  }

  /** Column 2 after round 8. */
  lemma CipherRound8Column2()
    ensures Column(Round(Start8, Key8), 2) == [0x65, 0x5d, 0x98, 0xad]
  {
    ColumnsConcat([0xea, 0xd2, 0x73, 0x21], [0xb5, 0x8d, 0xba, 0xd2], [0x31, 0x2b, 0xf5, 0x60], [0x7f, 0x8d, 0x29, 0x2f]);
    assert Start8[8] == 0xa3 && Start8[13] == 0x8c && Start8[2] == 0x42 && Start8[7] == 0x1f;
    ShiftRowsColumn2(SubBytes(Start8));
    RoundColumn(Start8, Key8, 2, [0x0a, 0x64, 0x2c, 0xc0], [0x31, 0x2b, 0xf5, 0x60], [0x65, 0x5d, 0x98, 0xad]);
  }

  /** Column 3 after round 8. */
  lemma CipherRound8Column3()
    ensures Column(Round(Start8, Key8), 3) == [0x85, 0x96, 0xb0, 0xc5]
  {
    ColumnsConcat([0xea, 0xd2, 0x73, 0x21], [0xb5, 0x8d, 0xba, 0xd2], [0x31, 0x2b, 0xf5, 0x60], [0x7f, 0x8d, 0x29, 0x2f]);
    assert Start8[12] == 0x7a && Start8[1] == 0x41 && Start8[6] == 0xdc && Start8[11] == 0x65;
    ShiftRowsColumn3(SubBytes(Start8));
    RoundColumn(Start8, Key8, 3, [0xda, 0x83, 0x86, 0x4d], [0x7f, 0x8d, 0x29, 0x2f], [0x85, 0x96, 0xb0, 0xc5]);
  }

  /** Round 8. */
  lemma CipherRound8()
    ensures Round(Start8, Key8) == Start9
  {
    CipherRound8Column0();
    CipherRound8Column1();
    CipherRound8Column2();
    CipherRound8Column3();
    ColumnsConcat([0xea, 0x83, 0x5c, 0xf0], [0x04, 0x45, 0x33, 0x2d], [0x65, 0x5d, 0x98, 0xad], [0x85, 0x96, 0xb0, 0xc5]);
    ColumnsDetermine(Round(Start8, Key8), Start9);
  }

  /** Column 0 after round 9. */
  lemma CipherRound9Column0()
    ensures Column(Round(Start9, Key9), 0) == [0xeb, 0x40, 0xf2, 0x1e]
  {
    ColumnsConcat([0xac, 0x77, 0x66, 0xf3], [0x19, 0xfa, 0xdc, 0x21], [0x28, 0xd1, 0x29, 0x41], [0x57, 0x5c, 0x00, 0x6e]);
    assert Start9[0] == 0xea && Start9[5] == 0x45 && Start9[10] == 0x98 && Start9[15] == 0xc5;
    ShiftRowsColumn0(SubBytes(Start9));
    RoundColumn(Start9, Key9, 0, [0x87, 0x6e, 0x46, 0xa6], [0xac, 0x77, 0x66, 0xf3], [0xeb, 0x40, 0xf2, 0x1e]);
  }

  /** Column 1 after round 9. */
  lemma CipherRound9Column1()
    ensures Column(Round(Start9, Key9), 1) == [0x59, 0x2e, 0x38, 0x84]
  {
    ColumnsConcat([0xac, 0x77, 0x66, 0xf3], [0x19, 0xfa, 0xdc, 0x21], [0x28, 0xd1, 0x29, 0x41], [0x57, 0x5c, 0x00, 0x6e]);
    assert Start9[4] == 0x04 && Start9[9] == 0x5d && Start9[14] == 0xb0 && Start9[3] == 0xf0;
    ShiftRowsColumn1(SubBytes(Start9));
    RoundColumn(Start9, Key9, 1, [0xf2, 0x4c, 0xe7, 0x8c], [0x19, 0xfa, 0xdc, 0x21], [0x59, 0x2e, 0x38, 0x84]);
  }

  /** Column 2 after round 9. */
  lemma CipherRound9Column2()
    ensures Column(Round(Start9, Key9), 2) == [0x8b, 0xa1, 0x13, 0xe7]
  {
    ColumnsConcat([0xac, 0x77, 0x66, 0xf3], [0x19, 0xfa, 0xdc, 0x21], [0x28, 0xd1, 0x29, 0x41], [0x57, 0x5c, 0x00, 0x6e]);
    assert Start9[8] == 0x65 && Start9[13] == 0x96 && Start9[2] == 0x5c && Start9[7] == 0x2d;
    ShiftRowsColumn2(SubBytes(Start9));
    RoundColumn(Start9, Key9, 2, [0x4d, 0x90, 0x4a, 0xd8], [0x28, 0xd1, 0x29, 0x41], [0x8b, 0xa1, 0x13, 0xe7]);
  }

  /** Column 3 after round 9. */
  lemma CipherRound9Column3()
    ensures Column(Round(Start9, Key9), 3) == [0x1b, 0xc3, 0x42, 0xd2]
  {
    ColumnsConcat([0xac, 0x77, 0x66, 0xf3], [0x19, 0xfa, 0xdc, 0x21], [0x28, 0xd1, 0x29, 0x41], [0x57, 0x5c, 0x00, 0x6e]);
    assert Start9[12] == 0x85 && Start9[1] == 0x83 && Start9[6] == 0x33 && Start9[11] == 0xad;
    ShiftRowsColumn3(SubBytes(Start9));
    RoundColumn(Start9, Key9, 3, [0x97, 0xec, 0xc3, 0x95], [0x57, 0x5c, 0x00, 0x6e], [0x1b, 0xc3, 0x42, 0xd2]);
  }

  /** Round 9. */
  lemma CipherRound9()
    ensures Round(Start9, Key9) == Start10
  {
    CipherRound9Column0();
    CipherRound9Column1();
    CipherRound9Column2();
    CipherRound9Column3();
    ColumnsConcat([0xeb, 0x40, 0xf2, 0x1e], [0x59, 0x2e, 0x38, 0x84], [0x8b, 0xa1, 0x13, 0xe7], [0x1b, 0xc3, 0x42, 0xd2]);
    ColumnsDetermine(Round(Start9, Key9), Start10);
  }

  /** Column 0 after the final round. */
  lemma CipherRound10Column0()
    ensures Column(FinalRound(Start10, Key10), 0) == [0x39, 0x25, 0x84, 0x1d]
  {
    ColumnsConcat([0xd0, 0x14, 0xf9, 0xa8], [0xc9, 0xee, 0x25, 0x89], [0xe1, 0x3f, 0x0c, 0xc8], [0xb6, 0x63, 0x0c, 0xa6]);
    assert Start10[0] == 0xeb && Start10[5] == 0x2e && Start10[10] == 0x13 && Start10[15] == 0xd2;
    ShiftRowsColumn0(SubBytes(Start10));
    FinalRoundColumn(Start10, Key10, 0, [0xe9, 0x31, 0x7d, 0xb5], [0xd0, 0x14, 0xf9, 0xa8], [0x39, 0x25, 0x84, 0x1d]);
  }

  /** Column 1 after the final round. */
  lemma CipherRound10Column1()
    ensures Column(FinalRound(Start10, Key10), 1) == [0x02, 0xdc, 0x09, 0xfb]
  {
    ColumnsConcat([0xd0, 0x14, 0xf9, 0xa8], [0xc9, 0xee, 0x25, 0x89], [0xe1, 0x3f, 0x0c, 0xc8], [0xb6, 0x63, 0x0c, 0xa6]);
    assert Start10[4] == 0x59 && Start10[9] == 0xa1 && Start10[14] == 0x42 && Start10[3] == 0x1e;
    ShiftRowsColumn1(SubBytes(Start10));
    FinalRoundColumn(Start10, Key10, 1, [0xcb, 0x32, 0x2c, 0x72], [0xc9, 0xee, 0x25, 0x89], [0x02, 0xdc, 0x09, 0xfb]);
  }

  /** Column 2 after the final round. */
  lemma CipherRound10Column2()
    ensures Column(FinalRound(Start10, Key10), 2) == [0xdc, 0x11, 0x85, 0x97]
  {
    ColumnsConcat([0xd0, 0x14, 0xf9, 0xa8], [0xc9, 0xee, 0x25, 0x89], [0xe1, 0x3f, 0x0c, 0xc8], [0xb6, 0x63, 0x0c, 0xa6]);
    assert Start10[8] == 0x8b && Start10[13] == 0xc3 && Start10[2] == 0xf2 && Start10[7] == 0x84;
    ShiftRowsColumn2(SubBytes(Start10));
    FinalRoundColumn(Start10, Key10, 2, [0x3d, 0x2e, 0x89, 0x5f], [0xe1, 0x3f, 0x0c, 0xc8], [0xdc, 0x11, 0x85, 0x97]);
  }

  /** Column 3 after the final round. */
  lemma CipherRound10Column3()
    ensures Column(FinalRound(Start10, Key10), 3) == [0x19, 0x6a, 0x0b, 0x32]
  {
    ColumnsConcat([0xd0, 0x14, 0xf9, 0xa8], [0xc9, 0xee, 0x25, 0x89], [0xe1, 0x3f, 0x0c, 0xc8], [0xb6, 0x63, 0x0c, 0xa6]);
    assert Start10[12] == 0x1b && Start10[1] == 0x40 && Start10[6] == 0x38 && Start10[11] == 0xe7;
    ShiftRowsColumn3(SubBytes(Start10));
    FinalRoundColumn(Start10, Key10, 3, [0xaf, 0x09, 0x07, 0x94], [0xb6, 0x63, 0x0c, 0xa6], [0x19, 0x6a, 0x0b, 0x32]);
  }

  /** The final round. */
  lemma CipherRound10()
    ensures FinalRound(Start10, Key10) == Output
  {
    CipherRound10Column0();
    CipherRound10Column1();
    CipherRound10Column2();
    CipherRound10Column3();
    ColumnsConcat([0x39, 0x25, 0x84, 0x1d], [0x02, 0xdc, 0x09, 0xfb], [0xdc, 0x11, 0x85, 0x97], [0x19, 0x6a, 0x0b, 0x32]);
    ColumnsDetermine(FinalRound(Start10, Key10), Output);
  }
  /** The cipher of FIPS 197 takes the plaintext of Appendix B under the key
      of Appendix A.1 to the ciphertext of Appendix B. */
  lemma CipherKnownAnswer()
    ensures Cipher(Input, KeyExpansion(CipherKey)) == Output
  {
    KeyExpansionKeys();
    var w := RoundKeys;
    var s := AddRoundKey(Input, w[0]);
    CipherStart();
    CipherRoundsNext(s, w, 1, Start1);
    CipherRound1();
    CipherRoundsNext(s, w, 2, Start2);
    CipherRound2();
    CipherRoundsNext(s, w, 3, Start3);
    CipherRound3();
    CipherRoundsNext(s, w, 4, Start4);
    CipherRound4();
    CipherRoundsNext(s, w, 5, Start5);
    CipherRound5();
    CipherRoundsNext(s, w, 6, Start6);
    CipherRound6();
    CipherRoundsNext(s, w, 7, Start7);
    CipherRound7();
    CipherRoundsNext(s, w, 8, Start8);
    CipherRound8();
    CipherRoundsNext(s, w, 9, Start9);
    CipherRound9();
    CipherRound10();
  }

  // ---------------------------------------------------------------------------
  // The same vector through BaseStaticsX86.

  /** RawEncryptBlock, with a schedule whose first eleven slots hold the
      expansion of the cipher key, takes the plaintext to the ciphertext. */
  lemma RawEncryptBlockKnownAnswer(key: Block, keySchedule: seq<Vector>)
    requires key == CipherKey && |keySchedule| >= 11 && keySchedule[..11] == KeyExpansion(key)
    ensures RawEncryptBlock(Input, keySchedule) == Output
  {
    RawEncryptBlockCipher(Input, keySchedule);
    CipherKnownAnswer();
  }

  /** RawDecryptBlock, with the schedule LoadKey fills in for the cipher key,
      takes the ciphertext back to the plaintext. */
  lemma RawDecryptBlockKnownAnswer(key: Block, keySchedule: seq<Vector>)
    requires key == CipherKey && DecryptionSlots(keySchedule) && keySchedule[..11] == KeyExpansion(key)
    ensures RawDecryptBlock(Output, keySchedule) == Input
  {
    RawEncryptBlockKnownAnswer(key, keySchedule);
    RawDecryptBlockRawEncryptBlock(Input, keySchedule);
  }

  /** The EncryptIntrinsic benchmark of the Interactive program: the key and
      plaintext above are loaded into stack buffers, LoadKey fills a
      twenty-slot schedule and EncryptBlock writes the ciphertext. */
  method EncryptIntrinsic() returns (cipherText: array<Byte>)
    ensures cipherText.Length == 16 && cipherText[..] == Output
  {
    var truePlainText := new Byte[16] [0x32, 0x43, 0xf6, 0xa8, 0x88, 0x5a, 0x30, 0x8d, 0x31, 0x31, 0x98, 0xa2, 0xe0, 0x37, 0x07, 0x34];
    var key := new Byte[16] [0x2b, 0x7e, 0x15, 0x16, 0x28, 0xae, 0xd2, 0xa6, 0xab, 0xf7, 0x15, 0x88, 0x09, 0xcf, 0x4f, 0x3c];
    cipherText := new Byte[16];
    var keySchedule := new Vector[20](_ => seq(16, _ => 0 as Byte));
    ghost var k: Block, pt: Block := key[..16], truePlainText[..16];
    assert k == CipherKey && pt == Input;
    LoadKey(key, keySchedule);
    ghost var ks := keySchedule[..11];
    assert ks == KeyExpansion(k);
    EncryptBlock(keySchedule, truePlainText, cipherText);
    assert cipherText[..16] == Cipher(pt, ks);
    assert cipherText[..] == cipherText[..16];
    CipherKnownAnswer();
  }
}
