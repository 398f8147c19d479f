/** Arithmetic in the finite field GF(2^8) and on four-term polynomials with
    coefficients in it, as sections 4.1 to 4.3 of FIPS 197 define them. The field
    element is a byte; addition is bitwise XOR; multiplication by {02} is xtime.
    MixColumns multiplies a column by a(x) = {03}x^3 + {01}x^2 + {01}x + {02} and
    InvMixColumns by a^-1(x) = {0b}x^3 + {0d}x^2 + {09}x + {0e} (modulo x^4 + 1);
    the lemmas below prove that the two are inverse and that both are linear.

    Every sum is written with Add rather than with the ^ operator. The group laws
    of Add are proved once on the bits (AddComm, AddAssoc, AddZero, AddSelf) and
    every larger rearrangement is a chain of those laws. */
module GF256 {

  type Byte = bv8

  /** A four-byte word, also a column of the State (section 3.5). */
  type Word = w: seq<Byte> | |w| == 4 witness [0, 0, 0, 0]

  /** Addition in GF(2^8), section 4.1: the bitwise XOR of the two bytes. */
  function Add(a: Byte, b: Byte): Byte
  {
    a ^ b
  }

  /** Multiplication by x, i.e. by {02}, section 4.2.1: shift left one bit and,
      when the bit shifted out was set, reduce by m(x), i.e. add {1b}. The
      reduction term is the top bit times {1b}; XTimeSpec states the same as
      the two cases of section 4.2.1. */
  function XTime(b: Byte): Byte
  {
    Add(b << 1, (b >> 7) * 0x1b)
  }

  // Multiplication by the constants that MixColumns and InvMixColumns use,
  // written as sums of powers of xtime (section 4.2.1).

  function Mul2(a: Byte): Byte { XTime(a) }
  function Mul3(a: Byte): Byte { Add(XTime(a), a) }
  function Mul9(a: Byte): Byte { Add(XTime(XTime(XTime(a))), a) }
  function Mul11(a: Byte): Byte { Add(Add(XTime(XTime(XTime(a))), XTime(a)), a) }
  function Mul13(a: Byte): Byte { Add(Add(XTime(XTime(XTime(a))), XTime(XTime(a))), a) }
  function Mul14(a: Byte): Byte { Add(Add(XTime(XTime(XTime(a))), XTime(XTime(a))), XTime(a)) }

  /** The sum of four bytes, left to right. */
  function Sum4(a: Byte, b: Byte, c: Byte, d: Byte): Byte
  {
    Add(Add(Add(a, b), c), d)
  }

  /** Row 0 of the product a(x) * (a0 + a1 x + a2 x^2 + a3 x^3) (equation 5.6);
      rows 1 to 3 are the same sum over the rotated column. */
  function MixByte(a0: Byte, a1: Byte, a2: Byte, a3: Byte): Byte
  {
    Sum4(Mul2(a0), Mul3(a1), a2, a3)
  }

  /** Row 0 of the product a^-1(x) * column (equation 5.10). */
  function InvMixByte(a0: Byte, a1: Byte, a2: Byte, a3: Byte): Byte
  {
    Sum4(Mul14(a0), Mul11(a1), Mul13(a2), Mul9(a3))
  }

  /** MixColumns on one column (section 5.1.3). */
  function MixColumn(w: Word): Word
  {
    [MixByte(w[0], w[1], w[2], w[3]), MixByte(w[1], w[2], w[3], w[0]),
     MixByte(w[2], w[3], w[0], w[1]), MixByte(w[3], w[0], w[1], w[2])]
  }

  /** InvMixColumns on one column (section 5.3.3). */
  function InvMixColumn(w: Word): Word
  {
    [InvMixByte(w[0], w[1], w[2], w[3]), InvMixByte(w[1], w[2], w[3], w[0]),
     InvMixByte(w[2], w[3], w[0], w[1]), InvMixByte(w[3], w[0], w[1], w[2])]
  }

  /** Word addition: bytewise Add. */
  function AddWord(u: Word, v: Word): Word
  {
    [Add(u[0], v[0]), Add(u[1], v[1]), Add(u[2], v[2]), Add(u[3], v[3])]
  }

  // ---------------------------------------------------------------------------
  // The group laws of Add, the only facts about sums proved on the bits.

  lemma AddComm(a: Byte, b: Byte)
    ensures Add(a, b) == Add(b, a)
  {
  }

  lemma AddAssoc(a: Byte, b: Byte, c: Byte)
    ensures Add(Add(a, b), c) == Add(a, Add(b, c))
  {
  }

  lemma AddZero(a: Byte)
    ensures Add(a, 0) == a && Add(0, a) == a
  {
  }

  lemma AddSelf(a: Byte)
    ensures Add(a, a) == 0
  {
  }

  /** Adding the same byte twice is no change: every byte is its own negative. */
  lemma AddCancel(a: Byte, k: Byte)
    ensures Add(Add(a, k), k) == a
  {
  }

  /** xtime agrees with the two cases of section 4.2.1. */
  lemma XTimeSpec(b: Byte)
    ensures b & 0x80 == 0 ==> XTime(b) == b << 1
    ensures b & 0x80 != 0 ==> XTime(b) == Add(b << 1, 0x1b)
  {
  }

  // ---------------------------------------------------------------------------
  // Rearranging sums, by chains of the group laws.

  /** Exchanging the middle terms of a sum of four. */
  lemma Regroup2(x1: Byte, x2: Byte, y1: Byte, y2: Byte)
    ensures Add(Add(x1, y1), Add(x2, y2)) == Add(Add(x1, x2), Add(y1, y2))
  {
    calc {
      Add(Add(x1, y1), Add(x2, y2));
      { AddAssoc(x1, y1, Add(x2, y2)); }
      Add(x1, Add(y1, Add(x2, y2)));
      { AddAssoc(y1, x2, y2); AddComm(y1, x2); AddAssoc(x2, y1, y2); }
      Add(x1, Add(x2, Add(y1, y2)));
      { AddAssoc(x1, x2, Add(y1, y2)); }
      Add(Add(x1, x2), Add(y1, y2));
    }
  }

  lemma Regroup3(x1: Byte, x2: Byte, x3: Byte, y1: Byte, y2: Byte, y3: Byte)
    ensures Add(Add(Add(x1, y1), Add(x2, y2)), Add(x3, y3))
         == Add(Add(Add(x1, x2), x3), Add(Add(y1, y2), y3))
  {
    Regroup2(x1, x2, y1, y2);
    Regroup2(Add(x1, x2), x3, Add(y1, y2), y3);
  }

  /** A sum of four pairwise sums is the sum of the two sums of four. */
  lemma Regroup4(x0: Byte, x1: Byte, x2: Byte, x3: Byte, y0: Byte, y1: Byte, y2: Byte, y3: Byte)
    ensures Sum4(Add(x0, y0), Add(x1, y1), Add(x2, y2), Add(x3, y3))
         == Add(Sum4(x0, x1, x2, x3), Sum4(y0, y1, y2, y3))
  {
    Regroup3(x0, x1, x2, y0, y1, y2);
    Regroup2(Add(Add(x0, x1), x2), x3, Add(Add(y0, y1), y2), y3);
  }

  /** A sum of four is unchanged by rotating its terms. */
  lemma Sum4Rotate(a: Byte, b: Byte, c: Byte, d: Byte)
    ensures Sum4(a, b, c, d) == Sum4(d, a, b, c)
  {
    calc {
      Sum4(a, b, c, d);
      Add(Add(Add(a, b), c), d);
      { AddComm(Add(Add(a, b), c), d); }
      Add(d, Add(Add(a, b), c));
      { AddAssoc(d, Add(a, b), c); }
      Add(Add(d, Add(a, b)), c);
      { AddAssoc(d, a, b); }
      Sum4(d, a, b, c);
    }
  }

  /** A four-by-four array of terms summed row by row equals the same terms
      summed column by column. */
  lemma Transpose4(a0: Byte, a1: Byte, a2: Byte, a3: Byte,
                   b0: Byte, b1: Byte, b2: Byte, b3: Byte,
                   c0: Byte, c1: Byte, c2: Byte, c3: Byte,
                   d0: Byte, d1: Byte, d2: Byte, d3: Byte)
    ensures Sum4(Sum4(a0, a1, a2, a3), Sum4(b0, b1, b2, b3), Sum4(c0, c1, c2, c3), Sum4(d0, d1, d2, d3))
         == Sum4(Sum4(a0, b0, c0, d0), Sum4(a1, b1, c1, d1), Sum4(a2, b2, c2, d2), Sum4(a3, b3, c3, d3))
  {
    Regroup4(a0, a1, a2, a3, b0, b1, b2, b3);
    Regroup4(Add(a0, b0), Add(a1, b1), Add(a2, b2), Add(a3, b3), c0, c1, c2, c3);
    Regroup4(Add(Add(a0, b0), c0), Add(Add(a1, b1), c1), Add(Add(a2, b2), c2), Add(Add(a3, b3), c3),
             d0, d1, d2, d3);
  }

  // ---------------------------------------------------------------------------
  // Linearity: xtime and every constant multiplication distribute over Add.

  /** xtime is linear over GF(2). */
  lemma XTimeAdd(a: Byte, b: Byte)
    ensures XTime(Add(a, b)) == Add(XTime(a), XTime(b))
  {
  }

  /** {02} and {03}, the coefficients of a(x), distribute over Add. */
  lemma MixMulAdd(a: Byte, b: Byte)
    ensures Mul2(Add(a, b)) == Add(Mul2(a), Mul2(b))
    ensures Mul3(Add(a, b)) == Add(Mul3(a), Mul3(b))
  {
    XTimeAdd(a, b);
    Regroup2(XTime(a), a, XTime(b), b);
  }

  /** {09}, {0b}, {0d} and {0e}, the coefficients of a^-1(x), distribute over Add. */
  lemma InvMixMulAdd(a: Byte, b: Byte)
    ensures Mul9(Add(a, b)) == Add(Mul9(a), Mul9(b))
    ensures Mul11(Add(a, b)) == Add(Mul11(a), Mul11(b))
    ensures Mul13(Add(a, b)) == Add(Mul13(a), Mul13(b))
    ensures Mul14(Add(a, b)) == Add(Mul14(a), Mul14(b))
  {
    var a1, b1 := XTime(a), XTime(b);
    var a2, b2 := XTime(a1), XTime(b1);
    var a3, b3 := XTime(a2), XTime(b2);
    XTimeAdd(a, b);
    XTimeAdd(a1, b1);
    XTimeAdd(a2, b2);
    Regroup2(a3, a, b3, b);
    Regroup3(a3, a1, a, b3, b1, b);
    Regroup3(a3, a2, a, b3, b2, b);
    Regroup3(a3, a2, a1, b3, b2, b1);
  }

  lemma MixMulAdd4(p: Byte, q: Byte, r: Byte, s: Byte)
    ensures Mul2(Sum4(p, q, r, s)) == Sum4(Mul2(p), Mul2(q), Mul2(r), Mul2(s))
    ensures Mul3(Sum4(p, q, r, s)) == Sum4(Mul3(p), Mul3(q), Mul3(r), Mul3(s))
  {
    MixMulAdd(Add(Add(p, q), r), s);
    MixMulAdd(Add(p, q), r);
    MixMulAdd(p, q);
  }

  lemma Mul9Add4(p: Byte, q: Byte, r: Byte, s: Byte)
    ensures Mul9(Sum4(p, q, r, s)) == Sum4(Mul9(p), Mul9(q), Mul9(r), Mul9(s))
  {
    InvMixMulAdd(Add(Add(p, q), r), s);
    InvMixMulAdd(Add(p, q), r);
    InvMixMulAdd(p, q);
  }

  lemma Mul11Add4(p: Byte, q: Byte, r: Byte, s: Byte)
    ensures Mul11(Sum4(p, q, r, s)) == Sum4(Mul11(p), Mul11(q), Mul11(r), Mul11(s))
  {
    InvMixMulAdd(Add(Add(p, q), r), s);
    InvMixMulAdd(Add(p, q), r);
    InvMixMulAdd(p, q);
  }

  lemma Mul13Add4(p: Byte, q: Byte, r: Byte, s: Byte)
    ensures Mul13(Sum4(p, q, r, s)) == Sum4(Mul13(p), Mul13(q), Mul13(r), Mul13(s))
  {
    InvMixMulAdd(Add(Add(p, q), r), s);
    InvMixMulAdd(Add(p, q), r);
    InvMixMulAdd(p, q);
  }

  lemma Mul14Add4(p: Byte, q: Byte, r: Byte, s: Byte)
    ensures Mul14(Sum4(p, q, r, s)) == Sum4(Mul14(p), Mul14(q), Mul14(r), Mul14(s))
  {
    InvMixMulAdd(Add(Add(p, q), r), s);
    InvMixMulAdd(Add(p, q), r);
    InvMixMulAdd(p, q);
  }

  // ---------------------------------------------------------------------------
  // a^-1(x) * a(x) = 1, one input byte at a time: the four products that one
  // input byte contributes to one output byte add up to the byte itself when
  // it sits in the same row and to zero otherwise.

  /** {0e}{02} + {0b} + {0d} + {09}{03} = {01}. */
  lemma InvMixMixSelf(x: Byte)
    ensures Sum4(Mul14(Mul2(x)), Mul11(x), Mul13(x), Mul9(Mul3(x))) == x
  {
  }

  /** {0e}{03} + {0b}{02} + {0d} + {09} = 0. */
  lemma InvMixMixNext(x: Byte)
    ensures Sum4(Mul14(Mul3(x)), Mul11(Mul2(x)), Mul13(x), Mul9(x)) == 0
  {
  }

  /** {0e} + {0b}{03} + {0d}{02} + {09} = 0. */
  lemma InvMixMixOpposite(x: Byte)
    ensures Sum4(Mul14(x), Mul11(Mul3(x)), Mul13(Mul2(x)), Mul9(x)) == 0
  {
  }

  /** {0e} + {0b} + {0d}{03} + {09}{02} = 0. */
  lemma InvMixMixPrevious(x: Byte)
    ensures Sum4(Mul14(x), Mul11(x), Mul13(Mul3(x)), Mul9(Mul2(x))) == 0
  {
  }

  // The same for a(x) * a^-1(x) = 1.

  /** {02}{0e} + {03}{09} + {0d} + {0b} = {01}. */
  lemma MixInvMixSelf(x: Byte)
    ensures Sum4(Mul2(Mul14(x)), Mul3(Mul9(x)), Mul13(x), Mul11(x)) == x
  {
  }

  /** {02}{0b} + {03}{0e} + {09} + {0d} = 0. */
  lemma MixInvMixNext(x: Byte)
    ensures Sum4(Mul2(Mul11(x)), Mul3(Mul14(x)), Mul9(x), Mul13(x)) == 0
  {
  }

  /** {02}{0d} + {03}{0b} + {0e} + {09} = 0. */
  lemma MixInvMixOpposite(x: Byte)
    ensures Sum4(Mul2(Mul13(x)), Mul3(Mul11(x)), Mul14(x), Mul9(x)) == 0
  {
  }

  /** {02}{09} + {03}{0d} + {0b} + {0e} = 0. */
  lemma MixInvMixPrevious(x: Byte)
    ensures Sum4(Mul2(Mul9(x)), Mul3(Mul13(x)), Mul11(x), Mul14(x)) == 0
  {
  }

  /** The sum of one byte and three zeros, in any of the four places. */
  lemma Sum4Single(x: Byte)
    ensures Sum4(x, 0, 0, 0) == x
    ensures Sum4(0, x, 0, 0) == x
    ensures Sum4(0, 0, x, 0) == x
    ensures Sum4(0, 0, 0, x) == x
  {
    AddZero(x);
    AddZero(0);
  }

  /** One output byte of InvMixColumn(MixColumn(w)) is the input byte. */
  lemma InvMixMixByte(a0: Byte, a1: Byte, a2: Byte, a3: Byte)
    ensures InvMixByte(MixByte(a0, a1, a2, a3), MixByte(a1, a2, a3, a0),
                       MixByte(a2, a3, a0, a1), MixByte(a3, a0, a1, a2)) == a0
  {
    Mul14Add4(Mul2(a0), Mul3(a1), a2, a3);
    Mul11Add4(Mul2(a1), Mul3(a2), a3, a0);
    Mul13Add4(Mul2(a2), Mul3(a3), a0, a1);
    Mul9Add4(Mul2(a3), Mul3(a0), a1, a2);
    // Row k of the sum lists what a0, a1, a2, a3 contribute through
    // MixByte k; rotating rows 1 to 3 lines those contributions up by input.
    Sum4Rotate(Mul11(Mul2(a1)), Mul11(Mul3(a2)), Mul11(a3), Mul11(a0));
    Sum4Rotate(Mul13(Mul2(a2)), Mul13(Mul3(a3)), Mul13(a0), Mul13(a1));
    Sum4Rotate(Mul13(a1), Mul13(Mul2(a2)), Mul13(Mul3(a3)), Mul13(a0));
    Sum4Rotate(Mul9(Mul3(a0)), Mul9(a1), Mul9(a2), Mul9(Mul2(a3)));
    Transpose4(Mul14(Mul2(a0)), Mul14(Mul3(a1)), Mul14(a2), Mul14(a3),
               Mul11(a0), Mul11(Mul2(a1)), Mul11(Mul3(a2)), Mul11(a3),
               Mul13(a0), Mul13(a1), Mul13(Mul2(a2)), Mul13(Mul3(a3)),
               Mul9(Mul3(a0)), Mul9(a1), Mul9(a2), Mul9(Mul2(a3)));
    InvMixMixSelf(a0);
    InvMixMixNext(a1);
    InvMixMixOpposite(a2);
    InvMixMixPrevious(a3);
    Sum4Single(a0);
  }

  /** One output byte of MixColumn(InvMixColumn(w)) is the input byte. */
  lemma MixInvMixByte(a0: Byte, a1: Byte, a2: Byte, a3: Byte)
    ensures MixByte(InvMixByte(a0, a1, a2, a3), InvMixByte(a1, a2, a3, a0),
                    InvMixByte(a2, a3, a0, a1), InvMixByte(a3, a0, a1, a2)) == a0
  {
    MixMulAdd4(Mul14(a0), Mul11(a1), Mul13(a2), Mul9(a3));
    MixMulAdd4(Mul14(a1), Mul11(a2), Mul13(a3), Mul9(a0));
    Sum4Rotate(Mul3(Mul14(a1)), Mul3(Mul11(a2)), Mul3(Mul13(a3)), Mul3(Mul9(a0)));
    Sum4Rotate(Mul14(a2), Mul11(a3), Mul13(a0), Mul9(a1));
    Sum4Rotate(Mul9(a1), Mul14(a2), Mul11(a3), Mul13(a0));
    Sum4Rotate(Mul11(a0), Mul13(a1), Mul9(a2), Mul14(a3));
    Transpose4(Mul2(Mul14(a0)), Mul2(Mul11(a1)), Mul2(Mul13(a2)), Mul2(Mul9(a3)),
               Mul3(Mul9(a0)), Mul3(Mul14(a1)), Mul3(Mul11(a2)), Mul3(Mul13(a3)),
               Mul13(a0), Mul9(a1), Mul14(a2), Mul11(a3),
               Mul11(a0), Mul13(a1), Mul9(a2), Mul14(a3));
    MixInvMixSelf(a0);
    MixInvMixNext(a1);
    MixInvMixOpposite(a2);
    MixInvMixPrevious(a3);
    Sum4Single(a0);
  }

  /** One output byte of InvMixColumn is linear in the column. */
  lemma InvMixByteAdd(a0: Byte, a1: Byte, a2: Byte, a3: Byte, b0: Byte, b1: Byte, b2: Byte, b3: Byte)
    ensures InvMixByte(Add(a0, b0), Add(a1, b1), Add(a2, b2), Add(a3, b3))
         == Add(InvMixByte(a0, a1, a2, a3), InvMixByte(b0, b1, b2, b3))
  {
    InvMixMulAdd(a0, b0);
    InvMixMulAdd(a1, b1);
    InvMixMulAdd(a2, b2);
    InvMixMulAdd(a3, b3);
    Regroup4(Mul14(a0), Mul11(a1), Mul13(a2), Mul9(a3), Mul14(b0), Mul11(b1), Mul13(b2), Mul9(b3));
  }

  /** InvMixColumns undoes MixColumns on a column (section 5.3.3). */
  lemma InvMixColumnMixColumn(w: Word)
    ensures InvMixColumn(MixColumn(w)) == w
  {
    InvMixMixByte(w[0], w[1], w[2], w[3]);
    InvMixMixByte(w[1], w[2], w[3], w[0]);
    InvMixMixByte(w[2], w[3], w[0], w[1]);
    InvMixMixByte(w[3], w[0], w[1], w[2]);
  }

  /** MixColumns undoes InvMixColumns on a column. */
  lemma MixColumnInvMixColumn(w: Word)
    ensures MixColumn(InvMixColumn(w)) == w
  {
    MixInvMixByte(w[0], w[1], w[2], w[3]);
    MixInvMixByte(w[1], w[2], w[3], w[0]);
    MixInvMixByte(w[2], w[3], w[0], w[1]);
    MixInvMixByte(w[3], w[0], w[1], w[2]);
  }

  /** InvMixColumns distributes over word addition. */
  lemma InvMixColumnAdd(u: Word, v: Word)
    ensures InvMixColumn(AddWord(u, v)) == AddWord(InvMixColumn(u), InvMixColumn(v))
  {
    InvMixByteAdd(u[0], u[1], u[2], u[3], v[0], v[1], v[2], v[3]);
    InvMixByteAdd(u[1], u[2], u[3], u[0], v[1], v[2], v[3], v[0]);
    InvMixByteAdd(u[2], u[3], u[0], u[1], v[2], v[3], v[0], v[1]);
    InvMixByteAdd(u[3], u[0], u[1], u[2], v[3], v[0], v[1], v[2]);
  }
}
