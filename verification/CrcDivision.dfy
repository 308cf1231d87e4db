/** The CRC is the remainder of a division of polynomials over the field of two elements. */
module CrcDivision {
  import opened Crc

  /** Coefficients, that of the highest power first. */
  type Polynomial = seq<bool>

  const DEGREE: nat := 32

  /** Exponents of the generator of IEEE 802.3 below x^32. */
  const EXPONENTS := {26, 23, 22, 16, 12, 11, 10, 8, 7, 5, 4, 2, 1, 0}

  /** The generator without its leading x^32. */
  function Generator(): (g: Polynomial)
    ensures |g| == DEGREE
  {
    seq(DEGREE, i requires 0 <= i < DEGREE => DEGREE - 1 - i in EXPONENTS)
  }

  function Zeros(n: nat): (z: Polynomial)
    ensures |z| == n
  {
    seq(n, _ => false)
  }

  function Plus(a: Polynomial, b: Polynomial): (r: Polynomial)
    requires |a| == |b|
    ensures |r| == |a|
  {
    seq(|a|, i requires 0 <= i < |a| => a[i] != b[i])
  }

  /** Long division by the generator: while the degree is not below 32, take off the generator under the
      leading term. What is left has 32 coefficients. */
  function Remainder(m: Polynomial): (r: Polynomial)
    requires |m| >= DEGREE
    ensures |r| == DEGREE
    decreases |m|
  {
    if |m| == DEGREE then m
    else if m[0] then Remainder(Plus(m[1..DEGREE + 1], Generator()) + m[DEGREE + 1..])
    else Remainder(m[1..])
  }

  /** The first 32 coefficients turned round. */
  function Flipped(m: Polynomial): Polynomial
    requires |m| >= DEGREE
  {
    seq(|m|, i requires 0 <= i < |m| => m[i] != (i < DEGREE))
  }

  function Complement(m: Polynomial): Polynomial {
    seq(|m|, i requires 0 <= i < |m| => !m[i])
  }

  // ----- bits of registers and octets, lowest first -----

  function Bits(v: bv32, n: nat): (r: Polynomial)
    ensures |r| == n
  {
    if n == 0 then [] else [v & 1 == 1] + Bits(v >> 1, n - 1)
  }

  function MessageBits(buf: seq<bv8>): Polynomial {
    if buf == [] then [] else Bits(buf[0] as bv32, OCTET_BITS) + MessageBits(buf[1..])
  }

  /** Nothing is set from bit n on. */
  predicate Within(v: bv32, n: nat) {
    if n == 0 then v == 0 else Within(v >> 1, n - 1)
  }

  lemma {:induction false} NoMoreBits(v: bv32, n: nat)
    requires Within(v, n)
    ensures Bits(v, n + 1) == Bits(v, n) + [false]
    decreases n
  {
    if n == 0 {
      assert v & 1 != 1;
      assert Bits(v, 1) == [v & 1 == 1] + Bits(v >> 1, 0);
    } else {
      NoMoreBits(v >> 1, n - 1);
    }
  }

  lemma FourMore(v: bv32, n: nat)
    requires Within(v >> 4, n)
    ensures Within(v, n + 4)
  {
    assert v >> 1 >> 1 >> 1 >> 1 == v >> 4;
    assert Within(v >> 1 >> 1 >> 1, n + 1);
    assert Within(v >> 1 >> 1, n + 2);
    assert Within(v >> 1, n + 3);
  }

  lemma Within0(v: bv32)
    requires v == 0
    ensures Within(v, 0)
  {
  }

  lemma Within4(v: bv32)
    requires v <= 0xf
    ensures Within(v, 4)
  {
    hide Within;
    assert v >> 4 <= 0;
    Within0(v >> 4);
    FourMore(v, 0);
  }

  lemma Within8(v: bv32)
    requires v <= 0xff
    ensures Within(v, 8)
  {
    hide Within;
    assert v >> 4 <= 0xf;
    Within4(v >> 4);
    FourMore(v, 4);
  }

  lemma Within12(v: bv32)
    requires v <= 0xfff
    ensures Within(v, 12)
  {
    hide Within;
    assert v >> 4 <= 0xff;
    Within8(v >> 4);
    FourMore(v, 8);
  }

  lemma Within16(v: bv32)
    requires v <= 0xffff
    ensures Within(v, 16)
  {
    hide Within;
    assert v >> 4 <= 0xfff;
    Within12(v >> 4);
    FourMore(v, 12);
  }

  lemma Within20(v: bv32)
    requires v <= 0xfffff
    ensures Within(v, 20)
  {
    hide Within;
    assert v >> 4 <= 0xffff;
    Within16(v >> 4);
    FourMore(v, 16);
  }

  lemma Within24(v: bv32)
    requires v <= 0xffffff
    ensures Within(v, 24)
  {
    hide Within;
    assert v >> 4 <= 0xfffff;
    Within20(v >> 4);
    FourMore(v, 20);
  }

  lemma Within28(v: bv32)
    requires v <= 0xfffffff
    ensures Within(v, 28)
  {
    hide Within;
    assert v >> 4 <= 0xffffff;
    Within24(v >> 4);
    FourMore(v, 24);
  }

  lemma Within32(v: bv32)
    ensures Within(v, 32)
  {
    hide Within;
    assert v >> 4 <= 0xfffffff;
    Within28(v >> 4);
    FourMore(v, 28);
  }

  lemma PlusOfFirst(x: bool, a: Polynomial, y: bool, b: Polynomial)
    requires |a| == |b|
    ensures Plus([x] + a, [y] + b) == [x != y] + Plus(a, b)
  {
  }

  lemma {:induction false} PlusBits(a: bv32, b: bv32, n: nat)
    ensures Bits(a ^ b, n) == Plus(Bits(a, n), Bits(b, n))
    decreases n
  {
    if n > 0 {
      PlusOfBit(a, b);
      PlusBits(a >> 1, b >> 1, n - 1);
      PlusOfFirst(a & 1 == 1, Bits(a >> 1, n - 1), b & 1 == 1, Bits(b >> 1, n - 1));
    }
  }

  lemma PlusOfBit(a: bv32, b: bv32)
    ensures (a ^ b) >> 1 == (a >> 1) ^ (b >> 1)
    ensures ((a ^ b) & 1 == 1) == ((a & 1 == 1) != (b & 1 == 1))
  {
  }

  lemma NextBit(v: bv32, w: bv32, n: nat)
    requires v >> 1 == w
    ensures Bits(v, n + 1) == [v & 1 == 1] + Bits(w, n)
  {
  }

  lemma FourBits(v: bv32, v1: bv32, v2: bv32, v3: bv32, v4: bv32, n: nat)
    requires v >> 1 == v1 && v1 >> 1 == v2 && v2 >> 1 == v3 && v3 >> 1 == v4
    ensures Bits(v, n + 4) == [v & 1 == 1, v1 & 1 == 1, v2 & 1 == 1, v3 & 1 == 1] + Bits(v4, n)
  {
    hide Bits;
    NextBit(v, v1, n + 3);
    NextBit(v1, v2, n + 2);
    NextBit(v2, v3, n + 1);
    NextBit(v3, v4, n);
  }

  lemma NoBits()
    ensures Bits(0, 0) == []
  {
  }

  lemma Terms0()
    ensures Bits(0xedb88320, 32) == [false, false, false, false] + Bits(0xedb8832, 28)
  {
    hide Bits;
    FourBits(0xedb88320, 0x76dc4190, 0x3b6e20c8, 0x1db71064, 0xedb8832, 28);
  }

  lemma Terms1()
    ensures Bits(0xedb8832, 28) == [false, true, false, false] + Bits(0xedb883, 24)
  {
    hide Bits;
    FourBits(0xedb8832, 0x76dc419, 0x3b6e20c, 0x1db7106, 0xedb883, 24);
  }

  lemma Terms2()
    ensures Bits(0xedb883, 24) == [true, true, false, false] + Bits(0xedb88, 20)
  {
    hide Bits;
    FourBits(0xedb883, 0x76dc41, 0x3b6e20, 0x1db710, 0xedb88, 20);
  }

  lemma Terms3()
    ensures Bits(0xedb88, 20) == [false, false, false, true] + Bits(0xedb8, 16)
  {
    hide Bits;
    FourBits(0xedb88, 0x76dc4, 0x3b6e2, 0x1db71, 0xedb8, 16);
  }

  lemma Terms4()
    ensures Bits(0xedb8, 16) == [false, false, false, true] + Bits(0xedb, 12)
  {
    hide Bits;
    FourBits(0xedb8, 0x76dc, 0x3b6e, 0x1db7, 0xedb, 12);
  }

  lemma Terms5()
    ensures Bits(0xedb, 12) == [true, true, false, true] + Bits(0xed, 8)
  {
    hide Bits;
    FourBits(0xedb, 0x76d, 0x3b6, 0x1db, 0xed, 8);
  }

  lemma Terms6()
    ensures Bits(0xed, 8) == [true, false, true, true] + Bits(0xe, 4)
  {
    hide Bits;
    FourBits(0xed, 0x76, 0x3b, 0x1d, 0xe, 4);
  }

  lemma Terms7()
    ensures Bits(0xe, 4) == [false, true, true, true] + Bits(0, 0)
  {
    hide Bits;
    FourBits(0xe, 0x7, 0x3, 0x1, 0, 0);
  }

  /** The constant of the program is the generator. */
  lemma ConstantIsGenerator()
    ensures Bits(POLYNOMIAL, DEGREE) == Generator()
  {
    hide Bits;
    Terms0();
    Terms1();
    Terms2();
    Terms3();
    Terms4();
    Terms5();
    Terms6();
    Terms7();
    NoBits();
  }

  // ----- the routine divides -----

  /** The polynomial still to be divided when the register is crc and the bits in rest are to come. */
  function Dividend(crc: bv32, rest: Polynomial): (r: Polynomial)
    ensures |r| == |rest| + DEGREE
  {
    var d := rest + Zeros(DEGREE);
    Plus(Bits(crc, DEGREE), d[..DEGREE]) + d[DEGREE..]
  }

  lemma ShiftedBits(crc: bv32)
    ensures Bits(crc >> 1, DEGREE) == Bits(crc, DEGREE)[1..] + [false]
  {
    hide Within;
    Within32(crc);
    WithinRest(crc, 31);
    NoMoreBits(crc >> 1, 31);
  }

  lemma WithinRest(v: bv32, n: nat)
    requires Within(v, n + 1)
    ensures Within(v >> 1, n)
  {
  }

  function Bit(b: bool): bv32 {
    if b then 1 else 0
  }

  /** The register after one bit: moved on, and the generator taken off if the bit shifted out was set. */
  lemma RegisterStep(crc: bv32, b: bool)
    ensures var out := (crc & 1 == 1) != b;
            var moved := Bits(crc, DEGREE)[1..] + [false];
            Bits(Shift(crc ^ Bit(b)), DEGREE) == if out then Plus(moved, Generator()) else moved
  {
    hide Bits, Within, Generator, Bit;
    ShiftedBits(crc);
    ConstantIsGenerator();
    PlusBits(crc >> 1, POLYNOMIAL, DEGREE);
    FoldOut(crc, b);
  }

  lemma FoldOut(crc: bv32, b: bool)
    ensures Shift(crc ^ Bit(b)) == if (crc & 1 == 1) != b then (crc >> 1) ^ POLYNOMIAL else crc >> 1
  {
    hide Shift;
    if b { FoldOutOne(crc); } else { FoldOutZero(crc); }
  }

  lemma FoldOutZero(crc: bv32)
    ensures Shift(crc ^ 0) == if crc & 1 == 1 then (crc >> 1) ^ POLYNOMIAL else crc >> 1
  {
  }

  lemma FoldOutOne(crc: bv32)
    ensures Shift(crc ^ 1) == if crc & 1 == 1 then crc >> 1 else (crc >> 1) ^ POLYNOMIAL
  {
    OtherParity(crc);
  }

  lemma OtherParity(crc: bv32)
    ensures (crc ^ 1) >> 1 == crc >> 1 && ((crc ^ 1) & 1 == 1) == (crc & 1 != 1)
  {
  }

  /** Taking off the first coefficient of a sum. */
  lemma WithoutFirst(r: Polynomial, b: bool, e: Polynomial)
    requires |r| == DEGREE && |e| >= DEGREE
    ensures var d := [b] + e;
            var s := Plus(r, d[..DEGREE]) + d[DEGREE..];
            s[0] == (r[0] != b) && s[1..] == Plus(r[1..] + [false], e[..DEGREE]) + e[DEGREE..]
  {
    var d := [b] + e;
    var s := Plus(r, d[..DEGREE]) + d[DEGREE..];
    var t := Plus(r[1..] + [false], e[..DEGREE]) + e[DEGREE..];
    forall i | 0 <= i < |t| ensures s[1..][i] == t[i] {
    }
  }

  lemma WithGenerator(m: Polynomial, g: Polynomial, e: Polynomial)
    requires |m| == |g| == DEGREE && |e| >= DEGREE
    ensures var s := Plus(m, e[..DEGREE]) + e[DEGREE..];
            Plus(s[..DEGREE], g) + s[DEGREE..] == Plus(Plus(m, g), e[..DEGREE]) + e[DEGREE..]
  {
    var s := Plus(m, e[..DEGREE]) + e[DEGREE..];
    assert s[..DEGREE] == Plus(m, e[..DEGREE]) && s[DEGREE..] == e[DEGREE..];
    assert Plus(Plus(m, e[..DEGREE]), g) == Plus(Plus(m, g), e[..DEGREE]);
  }

  lemma FirstOf(b: bool, rest: Polynomial)
    ensures [b] + rest + Zeros(DEGREE) == [b] + (rest + Zeros(DEGREE))
  {
  }

  lemma TakeTail(s: Polynomial)
    requires |s| > DEGREE
    ensures s[1..DEGREE + 1] == s[1..][..DEGREE] && s[DEGREE + 1..] == s[1..][DEGREE..]
  {
  }

  /** One bit of the message is one step of the division. */
  lemma DivisionStep(crc: bv32, b: bool, rest: Polynomial)
    ensures Remainder(Dividend(crc, [b] + rest)) == Remainder(Dividend(Shift(crc ^ Bit(b)), rest))
  {
    hide Generator, Shift, Plus, Bits, Zeros, Bit;
    var moved, e := Bits(crc, DEGREE)[1..] + [false], rest + Zeros(DEGREE);
    FirstOf(b, rest);
    RegisterStep(crc, b);
    FirstBit(crc);
    WithoutFirst(Bits(crc, DEGREE), b, e);
    WithGenerator(moved, Generator(), e);
    TakeTail(Dividend(crc, [b] + rest));
  }

  lemma FirstBit(crc: bv32)
    ensures Bits(crc, DEGREE)[0] == (crc & 1 == 1)
  {
  }

  lemma {:induction false} FeedDivides(crc: bv32, data: bv32, n: nat, rest: Polynomial)
    ensures Remainder(Dividend(crc, Bits(data, n) + rest)) == Remainder(Dividend(Feed(crc, data, n), rest))
    decreases n
  {
    hide Remainder, Dividend, Shift, Bit;
    if n == 0 {
      assert [] + rest == rest;
    } else {
      LowBitOf(data);
      assert Bits(data, n) + rest == [data & 1 == 1] + (Bits(data >> 1, n - 1) + rest);
      DivisionStep(crc, data & 1 == 1, Bits(data >> 1, n - 1) + rest);
      FeedDivides(Shift(crc ^ (data & 1)), data >> 1, n - 1, rest);
    }
  }

  lemma LowBitOf(data: bv32)
    ensures data & 1 == Bit(data & 1 == 1)
  {
  }

  lemma NothingLeft(crc: bv32)
    ensures Remainder(Dividend(crc, [])) == Bits(crc, DEGREE)
  {
    hide Bits;
    assert [] + Zeros(DEGREE) == Zeros(DEGREE);
    assert Plus(Bits(crc, DEGREE), Zeros(DEGREE)) + [] == Bits(crc, DEGREE);
  }

  lemma {:induction false} OctetsDivide(crc: bv32, buf: seq<bv8>)
    ensures Remainder(Dividend(crc, MessageBits(buf))) == Bits(FeedOctets(crc, buf), DEGREE)
    decreases |buf|
  {
    hide Remainder, Dividend, Bits;
    if buf == [] {
      NothingLeft(crc);
    } else {
      FeedDivides(crc, buf[0] as bv32, OCTET_BITS, MessageBits(buf[1..]));
      OctetsDivide(Octet(crc, buf[0]), buf[1..]);
    }
  }

  lemma AllOnes()
    ensures Bits(0xffff_ffff, DEGREE) == Complement(Zeros(DEGREE))
  {
    hide Bits;
    FourBits(0xffff_ffff, 0x7fffffff, 0x3fffffff, 0x1fffffff, 0xfffffff, 28);
    FourBits(0xfff_ffff, 0x7ffffff, 0x3ffffff, 0x1ffffff, 0xffffff, 24);
    FourBits(0xff_ffff, 0x7fffff, 0x3fffff, 0x1fffff, 0xfffff, 20);
    FourBits(0xf_ffff, 0x7ffff, 0x3ffff, 0x1ffff, 0xffff, 16);
    FourBits(0xffff, 0x7fff, 0x3fff, 0x1fff, 0xfff, 12);
    FourBits(0xfff, 0x7ff, 0x3ff, 0x1ff, 0xff, 8);
    FourBits(0xff, 0x7f, 0x3f, 0x1f, 0xf, 4);
    FourBits(0xf, 0x7, 0x3, 0x1, 0, 0);
    NoBits();
  }

  lemma StartFlips(m: Polynomial)
    ensures Dividend(0xffff_ffff, m) == Flipped(m + Zeros(DEGREE))
  {
    hide Bits;
    AllOnes();
  }

  lemma EndComplements(crc: bv32)
    ensures Bits(crc ^ 0xffff_ffff, DEGREE) == Complement(Bits(crc, DEGREE))
  {
    hide Bits;
    PlusBits(crc, 0xffff_ffff, DEGREE);
    AllOnes();
  }

  /** The checksum, lowest bit first, is the complement of what is left of the message, its first 32 bits
      turned round and 32 zeros appended, after division by the generator. */
  lemma ChecksumIsRemainder(buf: seq<bv8>)
    ensures Bits(Checksum(buf), DEGREE) == Complement(Remainder(Flipped(MessageBits(buf) + Zeros(DEGREE))))
  {
    hide Bits, Remainder, Complement, Flipped, MessageBits, Dividend, FeedOctets;
    StartFlips(MessageBits(buf));
    OctetsDivide(0xffff_ffff, buf);
    EndComplements(FeedOctets(0xffff_ffff, buf));
  }
}
