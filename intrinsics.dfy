/** The x86 instructions that the block cipher calls through
    System.Runtime.Intrinsics, on 128-bit vectors. A vector is kept as its 16
    bytes in memory order: byte i holds bits 8i .. 8i + 7, so a 16-byte load
    of a FIPS 197 block gives the block's bytes in order and the State
    layout of FIPS 197 (byte i is row i % 4 of column i / 4) is the vector
    layout. Viewed as four 32-bit lanes (Vector128<uint>), lane j is bytes
    4j .. 4j + 3, least significant byte first.

    The AES instructions follow Intel's definitions, which apply the FIPS 197
    transformations in their own order (ShiftRows before SubBytes, and the
    InvMixColumns of AESDEC before the round key is added); the lemmas at
    the end of the module relate each of them to a FIPS 197 round. */
module Intrinsics {
  import opened GF256
  import opened Fips197

  /** A Vector128<byte>. */
  type Vector = Block

  /** A 32-bit lane. */
  type Dword = bv32

  // ---------------------------------------------------------------------------
  // Lanes.

  /** The 32-bit value of four bytes stored least significant first. */
  function DwordOf(w: Word): Dword
  {
    (w[0] as Dword) | (w[1] as Dword << 8) | (w[2] as Dword << 16) | (w[3] as Dword << 24)
  }

  /** The four bytes of a 32-bit value, least significant first. */
  function BytesOf(x: Dword): Word
  {
    [(x & 0xFF) as Byte, ((x >> 8) & 0xFF) as Byte, ((x >> 16) & 0xFF) as Byte, ((x >> 24) & 0xFF) as Byte]
  }

  /** Lane j of a vector seen as Vector128<uint>. */
  function Lane(v: Vector, j: int): Dword
    requires 0 <= j < 4
  {
    DwordOf(Column(v, j))
  }

  /** The vector whose lanes are d0 .. d3. */
  function FromLanes(d0: Dword, d1: Dword, d2: Dword, d3: Dword): Vector
  {
    BytesOf(d0) + BytesOf(d1) + BytesOf(d2) + BytesOf(d3)
  }

  /** Storing a lane's value gives back the lane's bytes. */
  lemma BytesOfDwordOf(w: Word)
    ensures BytesOf(DwordOf(w)) == w
  {
    DwordBytes(w[0], w[1], w[2], w[3]);
  }

  /** The bytes of a 32-bit value assembled from four bytes. */
  lemma DwordBytes(a: Byte, b: Byte, c: Byte, d: Byte)
    ensures var x := (a as Dword) | (b as Dword << 8) | (c as Dword << 16) | (d as Dword << 24);
      (x & 0xFF) as Byte == a && ((x >> 8) & 0xFF) as Byte == b && ((x >> 16) & 0xFF) as Byte == c && ((x >> 24) & 0xFF) as Byte == d
  {
  }

  /** Reading back the stored bytes of a value gives the value. */
  lemma DwordOfBytesOf(x: Dword)
    ensures DwordOf(BytesOf(x)) == x
  {
  }

  /** The lanes of FromLanes are its arguments. */
  lemma FromLanesWords(d0: Dword, d1: Dword, d2: Dword, d3: Dword)
    ensures Column(FromLanes(d0, d1, d2, d3), 0) == BytesOf(d0)
    ensures Column(FromLanes(d0, d1, d2, d3), 1) == BytesOf(d1)
    ensures Column(FromLanes(d0, d1, d2, d3), 2) == BytesOf(d2)
    ensures Column(FromLanes(d0, d1, d2, d3), 3) == BytesOf(d3)
  {
    ColumnsConcat(BytesOf(d0), BytesOf(d1), BytesOf(d2), BytesOf(d3));
  }

  // ---------------------------------------------------------------------------
  // SSE2 instructions.

  /** Sse2.Xor (PXOR): the bitwise exclusive or of two vectors. */
  function Xor(a: Vector, b: Vector): Vector
  {
    seq(16, i requires 0 <= i < 16 => a[i] ^ b[i])
  }

  /** The source lane that bits 2j and 2j + 1 of a shuffle control select
      for lane j. */
  function LaneSelector(control: bv8, j: int): (s: int)
    requires 0 <= j < 4
    ensures 0 <= s < 4
  {
    if j == 0 then (control & 3) as int
    else if j == 1 then ((control >> 2) & 3) as int
    else if j == 2 then ((control >> 4) & 3) as int
    else ((control >> 6) & 3) as int
  }

  /** Sse2.Shuffle on Vector128<uint> (PSHUFD): lane j of the result is lane
      LaneSelector(control, j) of the source, so byte 4j + b of the result is
      byte b of that lane. ShuffleLanes states the same on the lanes' values. */
  function Shuffle(v: Vector, control: bv8): Vector
  {
    seq(16, i requires 0 <= i < 16 => v[4 * LaneSelector(control, i / 4) + i % 4])
  }

  /** Sse2.ShiftLeftLogical128BitLane (PSLLDQ): the vector shifted left by
      count bytes, zeros shifted in; a count above 15 clears the vector. */
  function ShiftLeftLogical128BitLane(v: Vector, count: bv8): Vector
  {
    var n := if count > 15 then 16 else count as int;
    seq(16, i requires 0 <= i < 16 => if i < n then 0 else v[i - n])
  }

  /** PXOR is the AddRoundKey of FIPS 197. */
  lemma XorAddRoundKey(a: Vector, b: Vector)
    ensures Xor(a, b) == AddRoundKey(a, b)
  {
  }

  /** Word j of an exclusive or is the sum of the words j. */
  lemma XorWord(a: Vector, b: Vector, j: int)
    requires 0 <= j < 4
    ensures Column(Xor(a, b), j) == AddWord(Column(a, j), Column(b, j))
  {
    var x := Xor(a, b);
    var i := 4 * j;
    assert Column(x, j) == [x[i], x[i + 1], x[i + 2], x[i + 3]];
    assert Column(a, j) == [a[i], a[i + 1], a[i + 2], a[i + 3]];
    assert Column(b, j) == [b[i], b[i + 1], b[i + 2], b[i + 3]];
  }

  /** Lane j of a shuffle is the source lane that bits 2j and 2j + 1 of the
      control select. */
  lemma ShuffleWords(v: Vector, control: bv8, j: int)
    requires 0 <= j < 4
    ensures Column(Shuffle(v, control), j) == Column(v, LaneSelector(control, j))
  {
  }

  /** Intel's definition of PSHUFD on the lanes' 32-bit values. */
  lemma ShuffleLanes(v: Vector, control: bv8)
    ensures Shuffle(v, control)
         == FromLanes(Lane(v, LaneSelector(control, 0)), Lane(v, LaneSelector(control, 1)),
                      Lane(v, LaneSelector(control, 2)), Lane(v, LaneSelector(control, 3)))
  {
    var d0, d1, d2, d3 := Lane(v, LaneSelector(control, 0)), Lane(v, LaneSelector(control, 1)), Lane(v, LaneSelector(control, 2)), Lane(v, LaneSelector(control, 3));
    var s, f := Shuffle(v, control), FromLanes(d0, d1, d2, d3);
    FromLanesWords(d0, d1, d2, d3);
    ShuffleLane(v, control, 0, d0);
    ShuffleLane(v, control, 1, d1);
    ShuffleLane(v, control, 2, d2);
    ShuffleLane(v, control, 3, d3);
    ColumnsDetermine(s, f);
  }

  /** Word j of a shuffle holds the bytes of the selected lane's value d. */
  lemma ShuffleLane(v: Vector, control: bv8, j: int, d: Dword)
    requires 0 <= j < 4 && d == Lane(v, LaneSelector(control, j))
    ensures Column(Shuffle(v, control), j) == BytesOf(d)
  {
    ShuffleWords(v, control, j);
    BytesOfDwordOf(Column(v, LaneSelector(control, j)));
  }

  /** A shift by one 32-bit lane: word 0 becomes zero and word j the old word
      j - 1. */
  lemma ShiftLeftLane(v: Vector, j: int)
    requires 0 <= j < 4
    ensures Column(ShiftLeftLogical128BitLane(v, 4), j) == if j == 0 then [0, 0, 0, 0] else Column(v, j - 1)
  {
  }

  // ---------------------------------------------------------------------------
  // AES-NI instructions.

  /** Intel's RotWord: a right rotation of a lane by 8 bits. */
  function RotDword(x: Dword): Dword
  {
    (x >> 8) | (x << 24)
  }

  /** The source byte that byte i of AESKEYGENASSIST substitutes: bytes
      0 .. 3 and 8 .. 11 take bytes 4 .. 7 and 12 .. 15 (lanes X1 and X3) in
      order, and bytes 4 .. 7 and 12 .. 15 take the same bytes rotated by one
      place. */
  function KeygenAssistSource(i: int): (j: int)
    requires 0 <= i < 16
    ensures 4 <= j < 8 || 12 <= j < 16
  {
    if i < 4 || 8 <= i < 12 then i + 4
    else if i == 7 || i == 15 then i - 3
    else i + 1
  }

  /** Aes.KeygenAssist (AESKEYGENASSIST) with round constant rcon: from
      lanes X1 and X3 of the source, the lanes SubWord(X1),
      RotWord(SubWord(X1)) ^ rcon, SubWord(X3) and RotWord(SubWord(X3)) ^ rcon,
      the constant zero-extended to 32 bits. Intel's SubWord applies the
      S-box to each byte of a lane. The result is written byte by byte: byte
      i is the S-box applied to source byte KeygenAssistSource(i), with rcon
      added to bytes 4 and 12, the low bytes of lanes 1 and 3.
      KeygenAssistWord0 .. KeygenAssistWord3 state the four lanes as words,
      and RotXorBytes relates Intel's RotWord(X) ^ rcon on a lane's 32-bit
      value to the bytes of lanes 1 and 3. */
  function KeygenAssist(v: Vector, rcon: bv8): Vector
  {
    seq(16, i requires 0 <= i < 16 => Add(SubByte(v[KeygenAssistSource(i)]), if i == 4 || i == 12 then rcon else 0))
  }

  /** Aes.Encrypt (AESENC): ShiftRows, SubBytes, MixColumns, then the round
      key added. */
  function AesEnc(state: Vector, roundKey: Vector): Vector
  {
    Xor(MixColumns(SubBytes(ShiftRows(state))), roundKey)
  }

  /** Aes.EncryptLast (AESENCLAST): ShiftRows, SubBytes, then the round key
      added. */
  function AesEncLast(state: Vector, roundKey: Vector): Vector
  {
    Xor(SubBytes(ShiftRows(state)), roundKey)
  }

  /** Aes.Decrypt (AESDEC): InvShiftRows, InvSubBytes, InvMixColumns, then
      the round key added. */
  function AesDec(state: Vector, roundKey: Vector): Vector
  {
    Xor(InvMixColumns(InvSubBytes(InvShiftRows(state))), roundKey)
  }

  /** Aes.DecryptLast (AESDECLAST): InvShiftRows, InvSubBytes, then the round
      key added. */
  function AesDecLast(state: Vector, roundKey: Vector): Vector
  {
    Xor(InvSubBytes(InvShiftRows(state)), roundKey)
  }

  /** Aes.InverseMixColumns (AESIMC): InvMixColumns of a round key. */
  function AesImc(roundKey: Vector): Vector
  {
    InvMixColumns(roundKey)
  }

  // ---------------------------------------------------------------------------
  // The instructions against FIPS 197.

  /** Intel's RotWord, on a lane holding the word u, holds RotWord(u). */
  lemma RotDwordBytes(u: Word)
    ensures BytesOf(RotDword(DwordOf(u))) == RotWord(u)
  {
    var x := DwordOf(u);
    BytesOfDwordOf(u);
    BytesOfRotDword(x);
  }

  /** An exclusive or with a zero-extended byte c, on a lane holding the word
      u, holds u with c added to its first byte. */
  lemma XorByteBytes(u: Word, c: bv8)
    ensures BytesOf(DwordOf(u) ^ (c as Dword)) == AddWord(u, [c, 0, 0, 0])
  {
    BytesOfDwordOf(u);
    BytesOfXorByte(DwordOf(u), c);
  }

  /** Intel's RotWord(X) ^ c, on a lane X holding the word u, holds
      RotWord(u) with c added to its first byte. */
  lemma RotXorBytes(u: Word, c: bv8)
    ensures BytesOf(RotDword(DwordOf(u)) ^ (c as Dword)) == AddWord(RotWord(u), [c, 0, 0, 0])
  {
    RotDwordBytes(u);
    DwordOfBytesOf(RotDword(DwordOf(u)));
    XorByteBytes(RotWord(u), c);
  }

  /** The byte view of a right rotation by 8 bits. */
  lemma BytesOfRotDword(x: Dword)
    ensures BytesOf(RotDword(x)) == RotWord(BytesOf(x))
  {
  }

  /** The byte view of an exclusive or with a zero-extended byte. */
  lemma BytesOfXorByte(x: Dword, c: bv8)
    ensures BytesOf(x ^ (c as Dword)) == AddWord(BytesOf(x), [c, 0, 0, 0])
  {
  }

  /** SubWord commutes with RotWord. */
  lemma SubWordRotWord(w: Word)
    ensures SubWord(RotWord(w)) == RotWord(SubWord(w))
  {
  }

  /** Word 0 of AESKEYGENASSIST is SubWord of source word 1. */
  lemma KeygenAssistWord0(v: Vector, rcon: bv8)
    ensures Column(KeygenAssist(v, rcon), 0) == SubWord(Column(v, 1))
  {
    var k := KeygenAssist(v, rcon);
    assert k[0] == Add(SubByte(v[4]), 0);
    assert k[1] == Add(SubByte(v[5]), 0);
    assert k[2] == Add(SubByte(v[6]), 0);
    assert k[3] == Add(SubByte(v[7]), 0);
    assert Column(k, 0) == [k[0], k[1], k[2], k[3]];
    assert Column(v, 1) == [v[4], v[5], v[6], v[7]];
  }

  /** Word 1 of AESKEYGENASSIST is SubWord(RotWord(X1)) plus the round
      constant, X1 being source word 1 (SubWord and RotWord commute). */
  lemma KeygenAssistWord1(v: Vector, rcon: bv8)
    ensures Column(KeygenAssist(v, rcon), 1) == AddWord(SubWord(RotWord(Column(v, 1))), [rcon, 0, 0, 0])
  {
    var k := KeygenAssist(v, rcon);
    assert k[4] == Add(SubByte(v[5]), rcon);
    assert k[5] == Add(SubByte(v[6]), 0);
    assert k[6] == Add(SubByte(v[7]), 0);
    assert k[7] == Add(SubByte(v[4]), 0);
    assert Column(k, 1) == [k[4], k[5], k[6], k[7]];
    assert Column(v, 1) == [v[4], v[5], v[6], v[7]];
  }

  /** Word 2 of AESKEYGENASSIST is SubWord of source word 3. */
  lemma KeygenAssistWord2(v: Vector, rcon: bv8)
    ensures Column(KeygenAssist(v, rcon), 2) == SubWord(Column(v, 3))
  {
    var k := KeygenAssist(v, rcon);
    assert k[8] == Add(SubByte(v[12]), 0);
    assert k[9] == Add(SubByte(v[13]), 0);
    assert k[10] == Add(SubByte(v[14]), 0);
    assert k[11] == Add(SubByte(v[15]), 0);
    assert Column(k, 2) == [k[8], k[9], k[10], k[11]];
    assert Column(v, 3) == [v[12], v[13], v[14], v[15]];
  }

  /** Word 3 of AESKEYGENASSIST is the temp word of FIPS 197's key expansion
      (Figure 11) for the last word w of a round key: SubWord(RotWord(w))
      plus the round constant. */
  lemma KeygenAssistWord3(v: Vector, rcon: bv8)
    ensures Column(KeygenAssist(v, rcon), 3) == AddWord(SubWord(RotWord(Column(v, 3))), [rcon, 0, 0, 0])
  {
    var k := KeygenAssist(v, rcon);
    assert k[12] == Add(SubByte(v[13]), rcon);
    assert k[13] == Add(SubByte(v[14]), 0);
    assert k[14] == Add(SubByte(v[15]), 0);
    assert k[15] == Add(SubByte(v[12]), 0);
    assert Column(k, 3) == [k[12], k[13], k[14], k[15]];
    assert Column(v, 3) == [v[12], v[13], v[14], v[15]];
  }

  /** AESENC is a FIPS 197 cipher round. */
  lemma AesEncRound(state: Vector, roundKey: Vector)
    ensures AesEnc(state, roundKey) == Round(state, roundKey)
  {
    ShiftRowsSubBytes(state);
  }

  /** AESENCLAST is the final round of the FIPS 197 cipher. */
  lemma AesEncLastFinalRound(state: Vector, roundKey: Vector)
    ensures AesEncLast(state, roundKey) == FinalRound(state, roundKey)
  {
    ShiftRowsSubBytes(state);
  }

  /** AESDEC is a round of the equivalent inverse cipher (section 5.3.5). */
  lemma AesDecEqInvRound(state: Vector, roundKey: Vector)
    ensures AesDec(state, roundKey) == EqInvRound(state, roundKey)
  {
    InvShiftRowsInvSubBytes(state);
  }

  /** AESDECLAST is the final round of the equivalent inverse cipher. */
  lemma AesDecLastEqInvFinalRound(state: Vector, roundKey: Vector)
    ensures AesDecLast(state, roundKey) == EqInvFinalRound(state, roundKey)
  {
    InvShiftRowsInvSubBytes(state);
  }

  /** AESIMC undoes MixColumns. */
  lemma AesImcMixColumns(roundKey: Vector)
    ensures AesImc(MixColumns(roundKey)) == roundKey
  {
    InvMixColumnsMixColumns(roundKey);
  }
}
