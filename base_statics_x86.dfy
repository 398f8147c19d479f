/** The AES-128 block cipher of FastAes's BaseStaticsX86, built from the
    AES-NI and SSE2 instructions.

    A key schedule is a span of vectors. LoadEncryptionKeyOnly fills slots
    0 .. 10 with the round keys of the cipher; LoadKey also fills slots
    11 .. 19 with InvMixColumns of round keys 9 down to 1, so that slot 10,
    slots 11 .. 19 and slot 0, in that order, are the round keys of the
    equivalent inverse cipher of FIPS 197 (section 5.3.5). RawEncryptBlock
    and RawDecryptBlock run the rounds on a vector; EncryptBlock and
    DecryptBlock load a 16-byte block from memory, run them, and store the
    result. Memory is an array of bytes; a span of vectors is an array of
    vectors. */
module BaseStaticsX86 {
  import opened GF256
  import opened Fips197
  import opened Intrinsics

  // ---------------------------------------------------------------------------
  // Rounds.

  /** RawEncryptBlock: the round key of slot 0 added, nine AESENC rounds
      with slots 1 .. 9, and AESENCLAST with slot 10. */
  function RawEncryptBlock(block: Vector, keySchedule: seq<Vector>): Vector
    requires |keySchedule| >= 11
  {
    var b0 := Xor(block, keySchedule[0]);
    var b1 := AesEnc(b0, keySchedule[1]);
    var b2 := AesEnc(b1, keySchedule[2]);
    var b3 := AesEnc(b2, keySchedule[3]);
    var b4 := AesEnc(b3, keySchedule[4]);
    var b5 := AesEnc(b4, keySchedule[5]);
    var b6 := AesEnc(b5, keySchedule[6]);
    var b7 := AesEnc(b6, keySchedule[7]);
    var b8 := AesEnc(b7, keySchedule[8]);
    var b9 := AesEnc(b8, keySchedule[9]);
    AesEncLast(b9, keySchedule[10])
  }

  /** RawDecryptBlock: the round key of slot 10 added, nine AESDEC rounds
      with slots 11 .. 19, and AESDECLAST with slot 0. */
  function RawDecryptBlock(block: Vector, keySchedule: seq<Vector>): Vector
    requires |keySchedule| >= 20
  {
    var b0 := Xor(block, keySchedule[10 + 0]);
    var b1 := AesDec(b0, keySchedule[10 + 1]);
    var b2 := AesDec(b1, keySchedule[10 + 2]);
    var b3 := AesDec(b2, keySchedule[10 + 3]);
    var b4 := AesDec(b3, keySchedule[10 + 4]);
    var b5 := AesDec(b4, keySchedule[10 + 5]);
    var b6 := AesDec(b5, keySchedule[10 + 6]);
    var b7 := AesDec(b6, keySchedule[10 + 7]);
    var b8 := AesDec(b7, keySchedule[10 + 8]);
    var b9 := AesDec(b8, keySchedule[10 + 9]);
    AesDecLast(b9, keySchedule[0])
  }

  /** RawEncryptBlock is the cipher of FIPS 197 (Figure 5) with slots 0 .. 10
      of the key schedule as its round keys. */
  lemma RawEncryptBlockCipher(block: Vector, keySchedule: seq<Vector>)
    requires |keySchedule| >= 11
    ensures RawEncryptBlock(block, keySchedule) == Cipher(block, keySchedule[..11])
  {
    var w := keySchedule[..11];
    var b0 := Xor(block, keySchedule[0]);
    XorAddRoundKey(block, keySchedule[0]);
    var b1 := AesEnc(b0, keySchedule[1]);
    AesEncRound(b0, keySchedule[1]);
    CipherRoundsNext(b0, w, 1, b0);
    var b2 := AesEnc(b1, keySchedule[2]);
    AesEncRound(b1, keySchedule[2]);
    CipherRoundsNext(b0, w, 2, b1);
    var b3 := AesEnc(b2, keySchedule[3]);
    AesEncRound(b2, keySchedule[3]);
    CipherRoundsNext(b0, w, 3, b2);
    var b4 := AesEnc(b3, keySchedule[4]);
    AesEncRound(b3, keySchedule[4]);
    CipherRoundsNext(b0, w, 4, b3);
    var b5 := AesEnc(b4, keySchedule[5]);
    AesEncRound(b4, keySchedule[5]);
    CipherRoundsNext(b0, w, 5, b4);
    var b6 := AesEnc(b5, keySchedule[6]);
    AesEncRound(b5, keySchedule[6]);
    CipherRoundsNext(b0, w, 6, b5);
    var b7 := AesEnc(b6, keySchedule[7]);
    AesEncRound(b6, keySchedule[7]);
    CipherRoundsNext(b0, w, 7, b6);
    var b8 := AesEnc(b7, keySchedule[8]);
    AesEncRound(b7, keySchedule[8]);
    CipherRoundsNext(b0, w, 8, b7);
    var b9 := AesEnc(b8, keySchedule[9]);
    AesEncRound(b8, keySchedule[9]);
    CipherRoundsNext(b0, w, 9, b8);
    AesEncLastFinalRound(b9, keySchedule[10]);
  }

  /** One more round of CipherRounds, with the rounds so far named t. */
  lemma CipherRoundsNext(s: Block, w: seq<Block>, n: nat, t: Block)
    requires 1 <= n < |w| && CipherRounds(s, w, n - 1) == t
    ensures CipherRounds(s, w, n) == Round(t, w[n])
  {
  }

  /** The round keys RawDecryptBlock uses, in the order of the decryption
      key schedule dw of FIPS 197 (Figure 15): dw[10] is slot 10, dw[r] is slot
      20 - r for r = 1 .. 9, and dw[0] is slot 0. */
  function DecryptionRoundKeys(keySchedule: seq<Vector>): (dw: seq<Block>)
    requires |keySchedule| >= 20
    ensures |dw| == Nr + 1
  {
    seq(Nr + 1, r requires 0 <= r <= Nr => if r == 0 || r == Nr then keySchedule[r] else keySchedule[20 - r])
  }

  /** RawDecryptBlock is the equivalent inverse cipher of FIPS 197 (Figure
      15) with slot 10, slots 11 .. 19 and slot 0 as its round keys. */
  lemma RawDecryptBlockEqInvCipher(block: Vector, keySchedule: seq<Vector>)
    requires |keySchedule| >= 20
    ensures RawDecryptBlock(block, keySchedule) == EqInvCipher(block, DecryptionRoundKeys(keySchedule))
  {
    var dw := DecryptionRoundKeys(keySchedule);
    var b0 := Xor(block, keySchedule[10]);
    XorAddRoundKey(block, keySchedule[10]);
    var b1 := AesDec(b0, keySchedule[11]);
    AesDecEqInvRound(b0, keySchedule[11]);
    EqInvCipherRoundsNext(b0, dw, 9);
    var b2 := AesDec(b1, keySchedule[12]);
    AesDecEqInvRound(b1, keySchedule[12]);
    EqInvCipherRoundsNext(b1, dw, 8);
    var b3 := AesDec(b2, keySchedule[13]);
    AesDecEqInvRound(b2, keySchedule[13]);
    EqInvCipherRoundsNext(b2, dw, 7);
    var b4 := AesDec(b3, keySchedule[14]);
    AesDecEqInvRound(b3, keySchedule[14]);
    EqInvCipherRoundsNext(b3, dw, 6);
    var b5 := AesDec(b4, keySchedule[15]);
    AesDecEqInvRound(b4, keySchedule[15]);
    EqInvCipherRoundsNext(b4, dw, 5);
    var b6 := AesDec(b5, keySchedule[16]);
    AesDecEqInvRound(b5, keySchedule[16]);
    EqInvCipherRoundsNext(b5, dw, 4);
    var b7 := AesDec(b6, keySchedule[17]);
    AesDecEqInvRound(b6, keySchedule[17]);
    EqInvCipherRoundsNext(b6, dw, 3);
    var b8 := AesDec(b7, keySchedule[18]);
    AesDecEqInvRound(b7, keySchedule[18]);
    EqInvCipherRoundsNext(b7, dw, 2);
    var b9 := AesDec(b8, keySchedule[19]);
    AesDecEqInvRound(b8, keySchedule[19]);
    EqInvCipherRoundsNext(b8, dw, 1);
    AesDecLastEqInvFinalRound(b9, keySchedule[0]);
  }

  /** The outermost round of EqInvCipherRounds. */
  lemma EqInvCipherRoundsNext(s: Block, dw: seq<Block>, n: nat)
    requires 1 <= n < |dw|
    ensures EqInvCipherRounds(s, dw, n) == EqInvCipherRounds(EqInvRound(s, dw[n]), dw, n - 1)
  {
  }

  /** What LoadKey adds to the round keys in slots 0 .. 10: slot 20 - r
      (slot 10 + j for j = 10 - r) holds InvMixColumns of slot r, for r = 1 ..
      9. */
  ghost predicate DecryptionSlots(keySchedule: seq<Vector>)
  {
    |keySchedule| >= 20 &&
    forall r | 1 <= r <= 9 :: keySchedule[20 - r] == AesImc(keySchedule[r])
  }

  /** With the slots LoadKey fills, the round keys of RawDecryptBlock are the
      decryption key schedule of slots 0 .. 10. */
  lemma DecryptionRoundKeysEqInvRoundKeys(keySchedule: seq<Vector>)
    requires DecryptionSlots(keySchedule)
    ensures DecryptionRoundKeys(keySchedule) == EqInvRoundKeys(keySchedule[..11])
  {
    var dw, ew := DecryptionRoundKeys(keySchedule), EqInvRoundKeys(keySchedule[..11]);
    forall r | 0 <= r <= Nr
      ensures dw[r] == ew[r]
    {
    }
  }

  /** With the slots LoadKey fills, RawDecryptBlock is the inverse cipher of
      FIPS 197 (Figure 12) with slots 0 .. 10 as round keys. */
  lemma RawDecryptBlockInvCipher(block: Vector, keySchedule: seq<Vector>)
    requires DecryptionSlots(keySchedule)
    ensures RawDecryptBlock(block, keySchedule) == InvCipher(block, keySchedule[..11])
  {
    RawDecryptBlockEqInvCipher(block, keySchedule);
    DecryptionRoundKeysEqInvRoundKeys(keySchedule);
    EqInvCipherInvCipher(block, keySchedule[..11]);
  }

  /** RawDecryptBlock undoes RawEncryptBlock under the same key schedule. */
  lemma RawDecryptBlockRawEncryptBlock(block: Vector, keySchedule: seq<Vector>)
    requires DecryptionSlots(keySchedule)
    ensures RawDecryptBlock(RawEncryptBlock(block, keySchedule), keySchedule) == block
  {
    RawEncryptBlockCipher(block, keySchedule);
    RawDecryptBlockInvCipher(RawEncryptBlock(block, keySchedule), keySchedule);
    InvCipherCipher(block, keySchedule[..11]);
  }

  /** RawEncryptBlock undoes RawDecryptBlock under the same key schedule. */
  lemma RawEncryptBlockRawDecryptBlock(block: Vector, keySchedule: seq<Vector>)
    requires DecryptionSlots(keySchedule)
    ensures RawEncryptBlock(RawDecryptBlock(block, keySchedule), keySchedule) == block
  {
    RawDecryptBlockInvCipher(block, keySchedule);
    RawEncryptBlockCipher(RawDecryptBlock(block, keySchedule), keySchedule);
    CipherInvCipher(block, keySchedule[..11]);
  }

  // ---------------------------------------------------------------------------
  // Key expansion.

  /** The shuffle control (3 << 6) | (3 << 4) | (3 << 2) | 3, which copies
      lane 3 into every lane. */
  const BroadcastLane3: bv8 := (3 << 6) | (3 << 4) | (3 << 2) | 3

  /** InternalKeyExp128: lane 3 of the KEYGENASSIST result is copied into
      every lane; the key is three times added to itself shifted left by one
      lane, which leaves in word j the sum of key words 0 .. j; the copied
      lane is added to that. */
  function InternalKeyExp128(key: Vector, keyGenAssisted: Vector): Vector
  {
    var t := Shuffle(keyGenAssisted, BroadcastLane3);
    var k1 := Xor(key, ShiftLeftLogical128BitLane(key, 4));
    var k2 := Xor(k1, ShiftLeftLogical128BitLane(k1, 4));
    var k3 := Xor(k2, ShiftLeftLogical128BitLane(k2, 4));
    Xor(k3, t)
  }

  /** KeyExp128: the round key after key, with round constant num. */
  function KeyExp128(key: Vector, num: bv8): Vector
  {
    InternalKeyExp128(key, KeygenAssist(key, num))
  }

  /** The round constants LoadEncryptionKeyOnly passes for rounds 1 .. 10. */
  const RoundConstants: seq<bv8> := [0x01, 0x02, 0x04, 0x08, 0x10, 0x20, 0x40, 0x80, 0x1B, 0x36]

  /** Every lane of a shuffle with BroadcastLane3 is lane 3. */
  lemma ShuffleBroadcastLane3(v: Vector)
    ensures BroadcastLane3 == 0xFF
    ensures forall j | 0 <= j < 4 :: Column(Shuffle(v, BroadcastLane3), j) == Column(v, 3)
  {
    forall j | 0 <= j < 4
      ensures Column(Shuffle(v, BroadcastLane3), j) == Column(v, 3)
    {
      ShuffleWords(v, BroadcastLane3, j);
    }
  }

  /** One shift-and-add step: word 0 is kept, and word j gets word j - 1
      added. */
  lemma ShiftAddWords(x: Vector)
    ensures var y := Xor(x, ShiftLeftLogical128BitLane(x, 4));
      Column(y, 0) == Column(x, 0) &&
      Column(y, 1) == AddWord(Column(x, 1), Column(x, 0)) &&
      Column(y, 2) == AddWord(Column(x, 2), Column(x, 1)) &&
      Column(y, 3) == AddWord(Column(x, 3), Column(x, 2))
  {
    var s := ShiftLeftLogical128BitLane(x, 4);
    XorWord(x, s, 0);
    XorWord(x, s, 1);
    XorWord(x, s, 2);
    XorWord(x, s, 3);
    ShiftLeftLane(x, 0);
    ShiftLeftLane(x, 1);
    ShiftLeftLane(x, 2);
    ShiftLeftLane(x, 3);
  }

  /** The words of InternalKeyExp128(key, a) follow the recurrence of FIPS
      197's key expansion (Figure 11), with word 3 of a as temp: word 0 is
      key word 0 plus temp, and word j is key word j plus word j - 1. */
  lemma InternalKeyExp128Words(key: Vector, a: Vector)
    ensures var r, t := InternalKeyExp128(key, a), Column(a, 3);
      Column(r, 0) == AddWord(Column(key, 0), t) &&
      Column(r, 1) == AddWord(Column(key, 1), Column(r, 0)) &&
      Column(r, 2) == AddWord(Column(key, 2), Column(r, 1)) &&
      Column(r, 3) == AddWord(Column(key, 3), Column(r, 2))
  {
    var k0, k1, k2, k3 := Column(key, 0), Column(key, 1), Column(key, 2), Column(key, 3);
    var t := Column(a, 3);
    var x1 := Xor(key, ShiftLeftLogical128BitLane(key, 4));
    var x2 := Xor(x1, ShiftLeftLogical128BitLane(x1, 4));
    var x3 := Xor(x2, ShiftLeftLogical128BitLane(x2, 4));
    var s := Shuffle(a, BroadcastLane3);
    var r := Xor(x3, s);
    ShiftAddWords(key);
    ShiftAddWords(x1);
    ShiftAddWords(x2);
    ShuffleBroadcastLane3(a);
    XorWord(x3, s, 0);
    XorWord(x3, s, 1);
    XorWord(x3, s, 2);
    XorWord(x3, s, 3);
    PrefixSums(k0, k1, k2, k3, t);
  }

  /** The word algebra behind InternalKeyExp128Words: after three
      shift-and-add steps, word j is the sum of words 0 .. j, so with temp t
      added each word is the one before plus its own key word. */
  lemma PrefixSums(k0: Word, k1: Word, k2: Word, k3: Word, t: Word)
    ensures var x11, x12, x13 := AddWord(k1, k0), AddWord(k2, k1), AddWord(k3, k2);
      var x21, x22, x23 := AddWord(x11, k0), AddWord(x12, x11), AddWord(x13, x12);
      var x31, x32, x33 := AddWord(x21, k0), AddWord(x22, x21), AddWord(x23, x22);
      var r0, r1, r2, r3 := AddWord(k0, t), AddWord(x31, t), AddWord(x32, t), AddWord(x33, t);
      r1 == AddWord(k1, r0) && r2 == AddWord(k2, r1) && r3 == AddWord(k3, r2)
  {
    PrefixSum1(k0, k1, t);
    PrefixSum2(k0, k1, k2, t);
    PrefixSum3(k0, k1, k2, k3, t);
  }

  lemma PrefixSum1(k0: Word, k1: Word, t: Word)
    ensures var x11 := AddWord(k1, k0);
      AddWord(AddWord(AddWord(x11, k0), k0), t) == AddWord(k1, AddWord(k0, t))
  {
    PrefixSumByte1(k0[0], k1[0], t[0]);
    PrefixSumByte1(k0[1], k1[1], t[1]);
    PrefixSumByte1(k0[2], k1[2], t[2]);
    PrefixSumByte1(k0[3], k1[3], t[3]);
  }

  lemma PrefixSum2(k0: Word, k1: Word, k2: Word, t: Word)
    ensures var x11, x12 := AddWord(k1, k0), AddWord(k2, k1);
      var x21, x22 := AddWord(x11, k0), AddWord(x12, x11);
      AddWord(AddWord(x22, x21), t) == AddWord(k2, AddWord(AddWord(x21, k0), t))
  {
    PrefixSumByte2(k0[0], k1[0], k2[0], t[0]);
    PrefixSumByte2(k0[1], k1[1], k2[1], t[1]);
    PrefixSumByte2(k0[2], k1[2], k2[2], t[2]);
    PrefixSumByte2(k0[3], k1[3], k2[3], t[3]);
  }

  lemma PrefixSum3(k0: Word, k1: Word, k2: Word, k3: Word, t: Word)
    ensures var x11, x12, x13 := AddWord(k1, k0), AddWord(k2, k1), AddWord(k3, k2);
      var x21, x22, x23 := AddWord(x11, k0), AddWord(x12, x11), AddWord(x13, x12);
      AddWord(AddWord(x23, x22), t) == AddWord(k3, AddWord(AddWord(x22, x21), t))
  {
    PrefixSumByte3(k0[0], k1[0], k2[0], k3[0], t[0]);
    PrefixSumByte3(k0[1], k1[1], k2[1], k3[1], t[1]);
    PrefixSumByte3(k0[2], k1[2], k2[2], k3[2], t[2]);
    PrefixSumByte3(k0[3], k1[3], k2[3], k3[3], t[3]);
  }

  lemma PrefixSumByte1(k0: Byte, k1: Byte, t: Byte)
    ensures Add(Add(Add(Add(k1, k0), k0), k0), t) == Add(k1, Add(k0, t))
  {
    AddCancel(k1, k0);
    AddAssoc(k1, k0, t);
  }

  lemma PrefixSumByte2(k0: Byte, k1: Byte, k2: Byte, t: Byte)
    ensures var x11, x12 := Add(k1, k0), Add(k2, k1);
      var x21, x22 := Add(x11, k0), Add(x12, x11);
      Add(Add(x22, x21), t) == Add(k2, Add(Add(x21, k0), t))
  {
    AddCancel(k1, k0);
    CancelMiddle(k2, k1, k0);
    calc {
      Add(k2, Add(Add(k1, k0), t));
      { AddAssoc(k2, Add(k1, k0), t); }
      Add(Add(k2, Add(k1, k0)), t);
      { AddComm(k1, k0); AddAssoc(k2, k0, k1); }
      Add(Add(Add(k2, k0), k1), t);
    }
  }

  lemma PrefixSumByte3(k0: Byte, k1: Byte, k2: Byte, k3: Byte, t: Byte)
    ensures var x11, x12, x13 := Add(k1, k0), Add(k2, k1), Add(k3, k2);
      var x21, x22, x23 := Add(x11, k0), Add(x12, x11), Add(x13, x12);
      Add(Add(x23, x22), t) == Add(k3, Add(Add(x22, x21), t))
  {
    AddCancel(k1, k0);
    CancelMiddle(k2, k1, k0);
    CancelMiddle(k3, k2, k1);
    var s := Add(k2, k0);
    calc {
      Add(k3, Add(Add(s, k1), t));
      { AddAssoc(k3, Add(s, k1), t); }
      Add(Add(k3, Add(s, k1)), t);
      { AddComm(s, k1); AddAssoc(k3, k1, s); }
      Add(Add(Add(k3, k1), s), t);
    }
  }

  /** The shared term of two neighbouring sums cancels. */
  lemma CancelMiddle(a: Byte, b: Byte, c: Byte)
    ensures Add(Add(a, b), Add(b, c)) == Add(a, c)
  {
    calc {
      Add(Add(a, b), Add(b, c));
      { AddAssoc(a, b, Add(b, c)); }
      Add(a, Add(b, Add(b, c)));
      { AddAssoc(b, b, c); AddSelf(b); AddZero(c); }
      Add(a, c);
    }
  }

  /** KeyExp128 is the step NextRoundKey of FIPS 197's key expansion. */
  lemma KeyExp128NextRoundKey(key: Vector, num: bv8)
    ensures KeyExp128(key, num) == NextRoundKey(key, num)
  {
    var a := KeygenAssist(key, num);
    var r := InternalKeyExp128(key, a);
    KeygenAssistWord3(key, num);
    InternalKeyExp128Words(key, a);
    var a0, a1, a2, a3 := Column(key, 0), Column(key, 1), Column(key, 2), Column(key, 3);
    var b0, b1, b2, b3 := Column(r, 0), Column(r, 1), Column(r, 2), Column(r, 3);
    NextRoundKeyWords(a0, a1, a2, a3, num, b0, b1, b2, b3);
    BlockOfColumns(key);
    BlockOfColumns(r);
  }

  /** A block is the concatenation of its four columns. */
  lemma BlockOfColumns(x: Block)
    ensures x == Column(x, 0) + Column(x, 1) + Column(x, 2) + Column(x, 3)
  {
    assert x == x[0..4] + x[4..8] + x[8..12] + x[12..16];
  }

  /** The constants LoadEncryptionKeyOnly passes are the first bytes of Rcon[1]
      .. Rcon[10]: x^(r - 1) in GF(2^8). */
  lemma RoundConstantsRC(r: nat)
    requires 1 <= r <= 10
    ensures RoundConstants[r - 1] == RC(r)
  {
  }

  // ---------------------------------------------------------------------------
  // Loading keys and blocks from memory.

  /** Sse2.Store: the 16 bytes of v are written to buffer[0 .. 16]; the rest
      of the buffer is left alone. */
  method Store(buffer: array<Byte>, v: Vector)
    requires buffer.Length >= 16
    modifies buffer
    ensures buffer[..16] == v
    ensures buffer[16..] == old(buffer[16..])
  {
    forall i | 0 <= i < 16 {
      buffer[i] := v[i];
    }
  }

  /** LoadEncryptionKeyOnly: slot 0 gets the 16 key bytes, and slot r the
      KeyExp128 step from slot r - 1 with the round constant of round r, so
      slots 0 .. 10 are the round keys of the key; slots from 11 on are not
      touched. */
  method LoadEncryptionKeyOnly(key: array<Byte>, keySchedule: array<Vector>)
    requires key.Length >= 16 && keySchedule.Length >= 11
    modifies keySchedule
    ensures keySchedule[..11] == KeyExpansion(old(key[..16]))
    ensures keySchedule[11..] == old(keySchedule[11..])
  {
    keySchedule[0] := key[..16];
    keySchedule[1] := KeyExp128(keySchedule[0], 0x01);
    keySchedule[2] := KeyExp128(keySchedule[1], 0x02);
    keySchedule[3] := KeyExp128(keySchedule[2], 0x04);
    keySchedule[4] := KeyExp128(keySchedule[3], 0x08);
    keySchedule[5] := KeyExp128(keySchedule[4], 0x10);
    keySchedule[6] := KeyExp128(keySchedule[5], 0x20);
    keySchedule[7] := KeyExp128(keySchedule[6], 0x40);
    keySchedule[8] := KeyExp128(keySchedule[7], 0x80);
    keySchedule[9] := KeyExp128(keySchedule[8], 0x1B);
    keySchedule[10] := KeyExp128(keySchedule[9], 0x36);
    LoadedRoundKeys(old(key[..16]), keySchedule[..11]);
  }

  /** The eleven blocks that the KeyExp128 steps build from the key, with the
      round constants 01, 02, 04, 08, 10, 20, 40, 80, 1B and 36, are the
      round keys of the key. */
  lemma LoadedRoundKeys(key: Block, ks: seq<Vector>)
    requires |ks| == 11 && ks[0] == key
    requires ks[1] == KeyExp128(ks[0], 0x01) && ks[2] == KeyExp128(ks[1], 0x02) && ks[3] == KeyExp128(ks[2], 0x04)
    requires ks[4] == KeyExp128(ks[3], 0x08) && ks[5] == KeyExp128(ks[4], 0x10) && ks[6] == KeyExp128(ks[5], 0x20)
    requires ks[7] == KeyExp128(ks[6], 0x40) && ks[8] == KeyExp128(ks[7], 0x80) && ks[9] == KeyExp128(ks[8], 0x1B)
    requires ks[10] == KeyExp128(ks[9], 0x36)
    ensures ks == KeyExpansion(key)
  {
    var w := KeyExpansion(key);
    KeyExpansionFirst(key);
    LoadedRoundKey(key, ks[0], ks[1], 1, 0x01);
    LoadedRoundKey(key, ks[1], ks[2], 2, 0x02);
    LoadedRoundKey(key, ks[2], ks[3], 3, 0x04);
    LoadedRoundKey(key, ks[3], ks[4], 4, 0x08);
    LoadedRoundKey(key, ks[4], ks[5], 5, 0x10);
    LoadedRoundKey(key, ks[5], ks[6], 6, 0x20);
    LoadedRoundKey(key, ks[6], ks[7], 7, 0x40);
    LoadedRoundKey(key, ks[7], ks[8], 8, 0x80);
    LoadedRoundKey(key, ks[8], ks[9], 9, 0x1B);
    LoadedRoundKey(key, ks[9], ks[10], 10, 0x36);
    SameRoundKeys(ks, w);
  }

  /** Two schedules of eleven round keys that agree slot by slot are equal. */
  lemma SameRoundKeys(ks: seq<Vector>, w: seq<Vector>)
    requires |ks| == 11 && |w| == 11
    requires ks[0] == w[0] && ks[1] == w[1] && ks[2] == w[2] && ks[3] == w[3] && ks[4] == w[4] && ks[5] == w[5]
    requires ks[6] == w[6] && ks[7] == w[7] && ks[8] == w[8] && ks[9] == w[9] && ks[10] == w[10]
    ensures ks == w
  {
  }

  /** One step of LoadedRoundKeys: a block that is round key r - 1 of the
      key, taken through KeyExp128 with the round constant of round r, is
      round key r. */
  lemma LoadedRoundKey(key: Block, previous: Vector, next: Vector, r: nat, rcon: bv8)
    requires 1 <= r <= 10 && rcon == RC(r)
    requires previous == KeyExpansion(key)[r - 1] && next == KeyExp128(previous, rcon)
    ensures next == KeyExpansion(key)[r]
  {
    KeyExpansionStep(key, r);
  }

  /** KeyExp128 computes each round key after the first from the one
      before, with the round constant of its round. */
  lemma KeyExpansionStep(key: Block, r: nat)
    requires 1 <= r <= 10
    ensures KeyExpansion(key)[r] == KeyExp128(KeyExpansion(key)[r - 1], RC(r))
  {
    var ks := KeyExpansion(key);
    assert ks[r - 1] == RoundKey(key, r - 1) && ks[r] == RoundKey(key, r);
    KeyExp128NextRoundKey(RoundKey(key, r - 1), RC(r));
    RoundKeyNext(key, r);
  }

  /** The first round key is the key. */
  lemma KeyExpansionFirst(key: Block)
    ensures KeyExpansion(key)[0] == key
  {
    RoundKeyZero(key);
  }

  /** LoadKey: the encryption round keys in slots 0 .. 10, then
      InvMixColumns of slots 9 down to 1 in slots 11 .. 19; slots from 20
      on are not touched. */
  method LoadKey(key: array<Byte>, keySchedule: array<Vector>)
    requires key.Length >= 16 && keySchedule.Length >= 20
    modifies keySchedule
    ensures keySchedule[..11] == KeyExpansion(old(key[..16]))
    ensures DecryptionSlots(keySchedule[..])
    ensures keySchedule[20..] == old(keySchedule[20..])
  {
    LoadEncryptionKeyOnly(key, keySchedule);
    ghost var roundKeys := keySchedule[..11];
    keySchedule[11] := AesImc(keySchedule[9]);
    keySchedule[12] := AesImc(keySchedule[8]);
    keySchedule[13] := AesImc(keySchedule[7]);
    keySchedule[14] := AesImc(keySchedule[6]);
    keySchedule[15] := AesImc(keySchedule[5]);
    keySchedule[16] := AesImc(keySchedule[4]);
    keySchedule[17] := AesImc(keySchedule[3]);
    keySchedule[18] := AesImc(keySchedule[2]);
    keySchedule[19] := AesImc(keySchedule[1]);
    assert keySchedule[..11] == roundKeys;
    LoadedDecryptionSlots(keySchedule[..]);
  }

  /** A schedule whose slots 11 .. 19 are AESIMC of slots 9 down to 1, as
      LoadKey writes them, has the decryption slots. */
  lemma LoadedDecryptionSlots(ks: seq<Vector>)
    requires |ks| >= 20
    requires ks[11] == AesImc(ks[9]) && ks[12] == AesImc(ks[8]) && ks[13] == AesImc(ks[7])
    requires ks[14] == AesImc(ks[6]) && ks[15] == AesImc(ks[5]) && ks[16] == AesImc(ks[4])
    requires ks[17] == AesImc(ks[3]) && ks[18] == AesImc(ks[2]) && ks[19] == AesImc(ks[1])
    ensures DecryptionSlots(ks)
  {
  }

  /** EncryptBlock: the 16 bytes at plainText, encrypted with the schedule,
      are stored at cipherTextBuffer; the block is read before the store, so
      the two may be the same buffer. */
  method EncryptBlock(keySchedule: array<Vector>, plainText: array<Byte>, cipherTextBuffer: array<Byte>)
    requires keySchedule.Length >= 11 && plainText.Length >= 16 && cipherTextBuffer.Length >= 16
    modifies cipherTextBuffer
    ensures cipherTextBuffer[..16] == RawEncryptBlock(old(plainText[..16]), old(keySchedule[..]))
    ensures cipherTextBuffer[..16] == Cipher(old(plainText[..16]), old(keySchedule[..11]))
    ensures cipherTextBuffer[16..] == old(cipherTextBuffer[16..])
  {
    var msg: Vector := plainText[..16];
    RawEncryptBlockCipher(msg, keySchedule[..]);
    msg := RawEncryptBlock(msg, keySchedule[..]);
    Store(cipherTextBuffer, msg);
  }

  /** DecryptBlock: the 16 bytes at cipherText, decrypted with the schedule,
      are stored at plainTextBuffer; the two may be the same buffer. */
  method DecryptBlock(keySchedule: array<Vector>, cipherText: array<Byte>, plainTextBuffer: array<Byte>)
    requires keySchedule.Length >= 20 && cipherText.Length >= 16 && plainTextBuffer.Length >= 16
    modifies plainTextBuffer
    ensures plainTextBuffer[..16] == RawDecryptBlock(old(cipherText[..16]), old(keySchedule[..]))
    ensures DecryptionSlots(old(keySchedule[..])) ==>
      plainTextBuffer[..16] == InvCipher(old(cipherText[..16]), old(keySchedule[..11]))
    ensures plainTextBuffer[16..] == old(plainTextBuffer[16..])
  {
    var msg: Vector := cipherText[..16];
    if DecryptionSlots(keySchedule[..]) {
      RawDecryptBlockInvCipher(msg, keySchedule[..]);
    }
    msg := RawDecryptBlock(msg, keySchedule[..]);
    Store(plainTextBuffer, msg);
  }
}
