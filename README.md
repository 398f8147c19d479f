# FastAes: the AES-128 core of BaseStaticsX86, in Dafny

This project models `FastAes/BaseStaticsX86.cs`, the AES-128 single-block
cipher that FastAes builds from the x86 AES-NI and SSE2 instructions, and
proves it correct against FIPS 197.

- `gf256.dfy` (module `GF256`): bytes as `bv8`, with addition (XOR),
  `xtime` and the multiplications by constants in GF(2^8) that MixColumns
  and InvMixColumns use. It also proves that the MixColumns and
  InvMixColumns matrices are inverse to each other, column by column.
- `fips197.dfy` (module `Fips197`): the reference definition of AES-128
  as FIPS 197 states it.
  - The state is 16 bytes in input order: byte `i` is row `i % 4`,
    column `i / 4` (section 3.4).
  - It defines the S-box and the inverse S-box as 256-entry tables,
    ShiftRows, MixColumns and AddRoundKey, and their inverses.
  - It defines the cipher (FIPS 197 section 5.1), the inverse cipher (FIPS 197 section 5.3),
    the equivalent inverse cipher with its decryption key schedule
    (FIPS 197 section 5.3.5), and the key expansion (FIPS 197 section 5.2).
  - It proves that each inverse undoes its step, that the inverse cipher
    and the cipher undo each other, that the equivalent inverse cipher
    computes the inverse cipher, and that each round key follows from the
    one before by the word recurrence of FIPS 197 section 5.2.
- `intrinsics.dfy` (module `Intrinsics`): a `Vector128<byte>` is 16
  bytes, lane 0 first, the same byte order as the FIPS 197 state. Each
  instruction the core calls is defined from its published description.
  - SSE2: `Sse2.Xor`, `Sse2.Shuffle` on 32-bit lanes, and
    `ShiftLeftLogical128BitLane`.
  - AES-NI: `Aes.Encrypt`, `Aes.EncryptLast`, `Aes.Decrypt`,
    `Aes.DecryptLast`, `Aes.InverseMixColumns` and `Aes.KeygenAssist`.
  - Lemmas relate each instruction to the FIPS 197 step it performs.
- `base_statics_x86.dfy` (module `BaseStaticsX86`): the eight operations
  of the class.
  - `RawEncryptBlock`, `RawDecryptBlock`, `KeyExp128` and
    `InternalKeyExp128` are functions, since the C# code only reassigns
    one local vector.
  - `LoadEncryptionKeyOnly`, `LoadKey`, `EncryptBlock` and `DecryptBlock`
    are methods over arrays. They write the caller's key-schedule span or
    output buffer, slot by slot or byte by byte.
  - Memory at a `byte*` is an `array<Byte>`. A `Span<Vector128<byte>>` is
    an `array<Vector>`. The span and buffer lengths the C# code relies on
    become `requires` clauses.
- `known_answer.dfy` (module `KnownAnswer`): the known-answer vector of
  FIPS 197, which is also the key and plaintext of the `EncryptIntrinsic`
  benchmark in `Interactive/Program.cs`.
  - Key 2b7e1516 28aed2a6 abf71588 09cf4f3c expands to the eleven round
    keys of Appendix A.1.
  - Plaintext 3243f6a8 885a308d 313198a2 e0370734 goes through the ten
    rounds of Appendix B to ciphertext 3925841d 02dc09fb dc118597 196a0b32.
  - Each fact about literal values is proved one four-byte column at a
    time and a block is assembled from its columns, so the S-box and
    MixColumns are only evaluated on literal bytes.

The main results:

- The vector key step of `InternalKeyExp128` computes the scalar word
  recurrence of FIPS 197 section 5.2. It uses three shifts by one lane with XOR,
  then XOR with lane 3 of the keygen-assist value broadcast to every lane.
  The recurrence is `w[i] = w[i-4] XOR w[i-1]`, with RotWord, SubWord and
  Rcon on the first word of each round key.
- `LoadEncryptionKeyOnly` fills slots 0..10 with exactly the FIPS 197 round
  keys of the key.
- `LoadKey` also fills slots 11..19 with InvMixColumns of slots 9..1.
- `EncryptBlock` computes the FIPS 197 cipher.
- On a schedule from `LoadKey`, `DecryptBlock` computes the FIPS 197
  inverse cipher, and decryption and encryption undo each other.
- On the key and plaintext of FIPS 197 Appendix B, `LoadKey` followed by
  `EncryptBlock` yields the published ciphertext, and `RawDecryptBlock`
  takes that ciphertext back to the plaintext.

## Model

| member | source | states |
|---|---|---|
| Intrinsics.XorAddRoundKey | FastAes/BaseStaticsX86.cs:19 | `Sse2.Xor` of the block with a round key is AddRoundKey of FIPS 197 |
| Intrinsics.XorWord | FastAes/BaseStaticsX86.cs:64-68 | word j of the XOR of two vectors is the GF(2^8) sum of their words j |
| Intrinsics.ShuffleWords | FastAes/BaseStaticsX86.cs:61-62 | word j of `Sse2.Shuffle(v, control)` is the word of v that control bits 2j..2j+1 select |
| Intrinsics.ShuffleLanes | FastAes/BaseStaticsX86.cs:61-62 | the byte-wise Shuffle equals PSHUFD on 32-bit lane values: lane j is the selected source lane |
| Intrinsics.ShiftLeftLane | FastAes/BaseStaticsX86.cs:64-66 | a shift left by 4 bytes makes word 0 zero and moves word j-1 to word j |
| Intrinsics.KeygenAssistWord0 | FastAes/BaseStaticsX86.cs:55 | word 0 of `Aes.KeygenAssist` is SubWord of source word 1 |
| Intrinsics.KeygenAssistWord1 | FastAes/BaseStaticsX86.cs:55 | word 1 of `Aes.KeygenAssist` is SubWord(RotWord(source word 1)) with the round constant added to its first byte |
| Intrinsics.KeygenAssistWord2 | FastAes/BaseStaticsX86.cs:55 | word 2 of `Aes.KeygenAssist` is SubWord of source word 3 |
| Intrinsics.KeygenAssistWord3 | FastAes/BaseStaticsX86.cs:55 | word 3 of `Aes.KeygenAssist` is the temp word of FIPS 197 section 5.2: SubWord(RotWord(w)) XOR Rcon, w being the last word of the round key |
| Intrinsics.RotXorBytes | FastAes/BaseStaticsX86.cs:55 | Intel's lane form `RotWord(X) ^ rcon` on a 32-bit lane holds the bytes of RotWord of the lane's word with rcon added to byte 0 |
| Intrinsics.AesEncRound | FastAes/BaseStaticsX86.cs:20-28 | `Aes.Encrypt` is a full cipher round of FIPS 197: SubBytes, ShiftRows, MixColumns, AddRoundKey |
| Intrinsics.AesEncLastFinalRound | FastAes/BaseStaticsX86.cs:29 | `Aes.EncryptLast` is the final cipher round, without MixColumns |
| Intrinsics.AesDecEqInvRound | FastAes/BaseStaticsX86.cs:38-46 | `Aes.Decrypt` is a round of the equivalent inverse cipher of FIPS 197 section 5.3.5 |
| Intrinsics.AesDecLastEqInvFinalRound | FastAes/BaseStaticsX86.cs:47 | `Aes.DecryptLast` is the final round of the equivalent inverse cipher, without InvMixColumns |
| Intrinsics.AesImcMixColumns | FastAes/BaseStaticsX86.cs:92-100 | `Aes.InverseMixColumns` undoes MixColumns |
| BaseStaticsX86.RawEncryptBlockCipher | FastAes/BaseStaticsX86.cs:17-32 | RawEncryptBlock is the FIPS 197 cipher with slots 0..10 as round keys: slot 0 added, rounds with slots 1..9 in order, final round with slot 10 |
| BaseStaticsX86.RawDecryptBlockEqInvCipher | FastAes/BaseStaticsX86.cs:35-50 | RawDecryptBlock, on any schedule, is the equivalent inverse cipher with slot 10, slots 11..19 and slot 0 as its round keys |
| BaseStaticsX86.DecryptionRoundKeysEqInvRoundKeys | FastAes/BaseStaticsX86.cs:92-100 | when slots 11..19 hold InvMixColumns of slots 9..1, the keys decryption reads are the decryption key schedule of slots 0..10 |
| BaseStaticsX86.RawDecryptBlockInvCipher | FastAes/BaseStaticsX86.cs:35-50 | on such a schedule RawDecryptBlock is the FIPS 197 inverse cipher with slots 0..10 as round keys |
| BaseStaticsX86.RawDecryptBlockRawEncryptBlock | FastAes/BaseStaticsX86.cs:17-50 | round trip: on a schedule with LoadKey's slots, decrypting an encrypted block gives the block back |
| BaseStaticsX86.RawEncryptBlockRawDecryptBlock | FastAes/BaseStaticsX86.cs:17-50 | the other direction: encrypting a decrypted block gives the block back, so encryption is a permutation of blocks |
| BaseStaticsX86.ShuffleBroadcastLane3 | FastAes/BaseStaticsX86.cs:61-62 | the shuffle control built from four selector fields of 3 is 0xFF and copies word 3 into every word |
| BaseStaticsX86.ShiftAddWords | FastAes/BaseStaticsX86.cs:64-66 | one `key ^ (key << 4 bytes)` step keeps word 0 and adds word j-1 to word j |
| BaseStaticsX86.InternalKeyExp128Words | FastAes/BaseStaticsX86.cs:59-69 | with t = word 3 of the keygen-assist value, result word 0 is key word 0 XOR t and word j is key word j XOR result word j-1: the scalar recurrence of FIPS 197 section 5.2 |
| BaseStaticsX86.KeyExp128NextRoundKey | FastAes/BaseStaticsX86.cs:53-56 | KeyExp128 is the step from one round key to the next of FIPS 197 section 5.2 (RotWord, SubWord, Rcon on word 0, then the XOR chain) |
| BaseStaticsX86.RoundConstantsRC | FastAes/BaseStaticsX86.cs:75-84 | the constants 01, 02, 04, 08, 10, 20, 40, 80, 1B, 36 passed for slots 1..10 are Rcon[1..10] of FIPS 197 section 5.2, powers of x in GF(2^8) |
| BaseStaticsX86.KeyExpansionStep | FastAes/BaseStaticsX86.cs:53-56 | KeyExp128 of round key r-1 with Rcon[r] is round key r, for r = 1..10 |
| BaseStaticsX86.KeyExpansionFirst | FastAes/BaseStaticsX86.cs:74 | round key 0 is the 16 key bytes exactly |
| BaseStaticsX86.LoadedRoundKey | FastAes/BaseStaticsX86.cs:75-84 | one slot write: KeyExp128 of round key r-1 with that round's constant is round key r |
| BaseStaticsX86.LoadedRoundKeys | FastAes/BaseStaticsX86.cs:74-84 | the eleven slots written from the key by KeyExp128 with the source's literal constants are exactly the FIPS 197 key expansion |
| BaseStaticsX86.Store | FastAes/BaseStaticsX86.cs:110 | `Sse2.Store` writes the 16 bytes of the vector to buffer[0..16] and leaves the rest of the buffer unchanged |
| BaseStaticsX86.LoadEncryptionKeyOnly | FastAes/BaseStaticsX86.cs:72-85 | slots 0..10 become the round keys of the 16 key bytes (slot 0 the key, slot r KeyExp128 of slot r-1 with Rcon[r]); slots from 11 on are unchanged |
| BaseStaticsX86.LoadedDecryptionSlots | FastAes/BaseStaticsX86.cs:92-100 | the nine writes `slot 10+j = InverseMixColumns(slot 10-j)` give the decryption slots |
| BaseStaticsX86.LoadKey | FastAes/BaseStaticsX86.cs:88-101 | slots 0..10 are the round keys of the key as LoadEncryptionKeyOnly leaves them, slot 10+j is InvMixColumns of slot 10-j for j = 1..9, and slots from 20 on are unchanged |
| BaseStaticsX86.EncryptBlock | FastAes/BaseStaticsX86.cs:104-111 | cipherTextBuffer[0..16] becomes RawEncryptBlock of the 16 plaintext bytes, which is the FIPS 197 cipher under slots 0..10; the rest of the buffer and the schedule are unchanged |
| BaseStaticsX86.DecryptBlock | FastAes/BaseStaticsX86.cs:114-121 | plainTextBuffer[0..16] becomes RawDecryptBlock of the 16 ciphertext bytes, which on a schedule from LoadKey is the FIPS 197 inverse cipher; the rest of the buffer and the schedule are unchanged |
| Intrinsics.Xor | FastAes/BaseStaticsX86.cs:19 | no contract; XorAddRoundKey and XorWord state it |
| Intrinsics.Shuffle | FastAes/BaseStaticsX86.cs:61-62 | no contract; ShuffleWords and ShuffleLanes state it |
| Intrinsics.ShiftLeftLogical128BitLane | FastAes/BaseStaticsX86.cs:64-66 | no contract; ShiftLeftLane states it |
| Intrinsics.KeygenAssist | FastAes/BaseStaticsX86.cs:55 | no contract; KeygenAssistWord0..KeygenAssistWord3 state it |
| Intrinsics.AesEnc | FastAes/BaseStaticsX86.cs:20-28 | no contract; AesEncRound states it |
| Intrinsics.AesEncLast | FastAes/BaseStaticsX86.cs:29 | no contract; AesEncLastFinalRound states it |
| Intrinsics.AesDec | FastAes/BaseStaticsX86.cs:38-46 | no contract; AesDecEqInvRound states it |
| Intrinsics.AesDecLast | FastAes/BaseStaticsX86.cs:47 | no contract; AesDecLastEqInvFinalRound states it |
| Intrinsics.AesImc | FastAes/BaseStaticsX86.cs:92-100 | no contract; AesImcMixColumns states it |
| BaseStaticsX86.RawEncryptBlock | FastAes/BaseStaticsX86.cs:17-32 | no contract; RawEncryptBlockCipher states it |
| BaseStaticsX86.RawDecryptBlock | FastAes/BaseStaticsX86.cs:35-50 | no contract; RawDecryptBlockEqInvCipher and RawDecryptBlockInvCipher state it |
| BaseStaticsX86.KeyExp128 | FastAes/BaseStaticsX86.cs:53-56 | no contract; KeyExp128NextRoundKey states it |
| BaseStaticsX86.InternalKeyExp128 | FastAes/BaseStaticsX86.cs:59-69 | no contract; InternalKeyExp128Words states it |
| KnownAnswer.KeyStep | FastAes/BaseStaticsX86.cs:75-84 | each round key of FIPS 197 Appendix A.1 after the first is the step of FIPS 197 section 5.2 from the one before, with the constant the source passes for that slot |
| KnownAnswer.KeyExpansionPrefix | FastAes/BaseStaticsX86.cs:74-84 | round keys 0..r of the key 2b7e1516... are those of Appendix A.1 |
| KnownAnswer.KeyExpansionKeys | FastAes/BaseStaticsX86.cs:72-85 | the key expansion of the key 2b7e1516... is the eleven round keys of Appendix A.1, ending in d014f9a8... |
| KnownAnswer.CipherKnownAnswer | Interactive/Program.cs:102-103 | the FIPS 197 cipher takes plaintext 3243f6a8... under key 2b7e1516... to ciphertext 3925841d..., the vector of Appendix B |
| KnownAnswer.RawEncryptBlockKnownAnswer | FastAes/BaseStaticsX86.cs:17-32 | RawEncryptBlock on a schedule holding the expansion of that key takes that plaintext to that ciphertext |
| KnownAnswer.RawDecryptBlockKnownAnswer | FastAes/BaseStaticsX86.cs:35-50 | RawDecryptBlock on a schedule as LoadKey leaves it takes that ciphertext back to that plaintext |
| KnownAnswer.EncryptIntrinsic | Interactive/Program.cs:100-111 | the benchmark's LoadKey and EncryptBlock on its literal key and plaintext write ciphertext 3925841d... |

## Left out

- The `Interactive` program (`Interactive/Program.cs`) is driver code.
  `Main`, console I/O, `RandomNumberGenerator`, the
  `AesCryptoServiceProvider` reference cipher and the BenchmarkDotNet
  harness are not modelled. Its `EncryptIntrinsic` benchmark is modelled as
  `KnownAnswer.EncryptIntrinsic`. Its self-test runs LoadKey, EncryptBlock,
  LoadKey and DecryptBlock on one random key and block; the round-trip
  lemmas state that pairing for every key and block.
- Hardware capability detection, the `MethodImpl` inlining attributes and
  `InternalsVisibleTo` concern the platform and performance, not
  behaviour, so they are not modelled.
- `unsafe` pointers and `Span` bounds checks are not modelled. Pointers
  become arrays, and the lengths the code reads or writes (16 bytes, 11 or
  20 slots) become preconditions. The case of a too-short span, where C#
  would throw, is not modelled.
- Side channels, timing and how the processor implements each instruction
  are not modelled. Each instruction is modelled only by its definition.
- Intrinsics.KeygenAssist: defined byte by byte: byte i is the S-box of
  source byte `KeygenAssistSource(i)`, with rcon added to bytes 4 and 12.
  Intel states it on 32-bit lanes: lane 0 is SubWord(X1), lane 1 is
  RotWord(SubWord(X1)) XOR rcon, and lanes 2 and 3 the same on X3. The model
  covers that lane form only piecewise. `KeygenAssistWord0`..`KeygenAssistWord3`
  give each word as SubWord or SubWord(RotWord) of a source word, with rcon
  on byte 0 where Intel adds it. `RotXorBytes` gives the bytes of
  `RotWord(X) ^ rcon` on a lane. `SubWordRotWord` gives the order of SubWord
  and RotWord. No single lemma states the whole vector equal to the
  four-lane formula.
- BaseStaticsX86.DecryptBlock: the promise that it computes the inverse
  cipher holds only when slots 11..19 hold what `LoadKey` writes.
  `DecryptBlock` does not check this; on any other schedule the model
  states only that the output is `RawDecryptBlock` of the input.
