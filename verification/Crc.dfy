/** The CRC of src/arith.c (annex C of IEEE 1588-2002) and an error it always detects. */
module Crc {

  const OCTET_BITS: nat := 8
  const POLYNOMIAL: bv32 := 0xedb88320

  /** One step of the register: shift out the low bit and fold it back in. */
  function Shift(crc: bv32): bv32 {
    if crc & 1 == 1 then (crc >> 1) ^ POLYNOMIAL else crc >> 1
  }

  /** The register after n data bits, least significant bit first. */
  function Feed(crc: bv32, data: bv32, n: nat): bv32
    decreases n
  {
    if n == 0 then crc else Feed(Shift(crc ^ (data & 1)), data >> 1, n - 1)
  }

  function Octet(crc: bv32, x: bv8): bv32 {
    Feed(crc, x as bv32, OCTET_BITS)
  }

  function FeedOctets(crc: bv32, buf: seq<bv8>): bv32
    decreases |buf|
  {
    if buf == [] then crc else FeedOctets(Octet(crc, buf[0]), buf[1..])
  }

  function Checksum(buf: seq<bv8>): bv32 {
    FeedOctets(0xffff_ffff, buf) ^ 0xffff_ffff
  }

  // ----- every step is a bijection -----

  lemma ShiftIsInjective(a: bv32, b: bv32)
    requires Shift(a) == Shift(b)
    ensures a == b
  {
  }

  /** Data that has not reached the low end yet can be added before or after a shift. */
  lemma ShiftMovesData(crc: bv32, data: bv32)
    ensures Shift(crc ^ data) == Shift(crc ^ (data & 1)) ^ (data >> 1)
  {
    var low, all := crc ^ (data & 1), crc ^ data;
    LowBit(crc, data);
    HighBits(crc, data);
    FoldMoves(crc >> 1, data >> 1);
    assert Shift(low) == if low & 1 == 1 then (crc >> 1) ^ POLYNOMIAL else crc >> 1;
    assert Shift(all) == if all & 1 == 1 then (crc >> 1) ^ (data >> 1) ^ POLYNOMIAL else (crc >> 1) ^ (data >> 1);
  }

  lemma LowBit(crc: bv32, data: bv32)
    ensures (crc ^ data) & 1 == (crc ^ (data & 1)) & 1
  {
  }

  lemma HighBits(crc: bv32, data: bv32)
    ensures (crc ^ data) >> 1 == (crc >> 1) ^ (data >> 1) && (crc ^ (data & 1)) >> 1 == crc >> 1
  {
  }

  lemma FoldMoves(a: bv32, b: bv32)
    ensures a ^ b ^ POLYNOMIAL == a ^ POLYNOMIAL ^ b
  {
  }

  lemma XorCancels(a: bv32, b: bv32, v: bv32)
    ensures a ^ v == b ^ v <==> a == b
  {
    assert (a ^ v) ^ v == a && (b ^ v) ^ v == b;
  }

  /** What is left of v and of w after n bits is the same. */
  predicate SameRest(v: bv32, w: bv32, n: nat) {
    if n == 0 then v == w else SameRest(v >> 1, w >> 1, n - 1)
  }

  /** Registers that agree after n bits agreed before them, up to the data fed to each. */
  lemma {:induction false} FeedIsInjective(a: bv32, v: bv32, b: bv32, w: bv32, n: nat)
    requires SameRest(v, w, n)
    requires Feed(a, v, n) == Feed(b, w, n)
    ensures a ^ v == b ^ w
    decreases n
  {
    if n == 0 {
      XorCancels(a, b, v);
    } else {
      var a', b' := Shift(a ^ (v & 1)), Shift(b ^ (w & 1));
      FeedIsInjective(a', v >> 1, b', w >> 1, n - 1);
      Unshift(a, v, b, w);
    }
  }

  lemma Unshift(a: bv32, v: bv32, b: bv32, w: bv32)
    requires Shift(a ^ (v & 1)) ^ (v >> 1) == Shift(b ^ (w & 1)) ^ (w >> 1)
    ensures a ^ v == b ^ w
  {
    ShiftMovesData(a, v);
    ShiftMovesData(b, w);
    ShiftIsInjective(a ^ v, b ^ w);
  }

  /** Nothing is left of an octet after eight bits. */
  lemma OctetsLeaveNothing(v: bv32, w: bv32)
    requires v <= 0xff && w <= 0xff
    ensures SameRest(v, w, 8)
  {
    var v2, w2 := v >> 1 >> 1, w >> 1 >> 1;
    var v4, w4 := v2 >> 1 >> 1, w2 >> 1 >> 1;
    var v6, w6 := v4 >> 1 >> 1, w4 >> 1 >> 1;
    assert v6 >> 1 >> 1 == 0 && w6 >> 1 >> 1 == 0;
    assert SameRest(v6, w6, 2);
    assert SameRest(v4, w4, 4);
    assert SameRest(v2, w2, 6);
  }

  lemma OctetIsInjective(a: bv32, b: bv32, x: bv8)
    requires a != b
    ensures Octet(a, x) != Octet(b, x)
  {
    var data := x as bv32;
    if Octet(a, x) == Octet(b, x) {
      SameRestOfOne(data, OCTET_BITS);
      FeedIsInjective(a, data, b, data, OCTET_BITS);
      XorCancels(a, b, data);
    }
  }

  lemma {:induction false} FeedOctetsIsInjective(a: bv32, b: bv32, buf: seq<bv8>)
    requires a != b
    ensures FeedOctets(a, buf) != FeedOctets(b, buf)
    decreases |buf|
  {
    if buf != [] {
      OctetIsInjective(a, b, buf[0]);
      FeedOctetsIsInjective(Octet(a, buf[0]), Octet(b, buf[0]), buf[1..]);
    }
  }

  lemma {:induction false} SameRestOfOne(v: bv32, n: nat)
    ensures SameRest(v, v, n)
    decreases n
  {
    if n > 0 { SameRestOfOne(v >> 1, n - 1); }
  }

  lemma DifferentOctets(crc: bv32, x: bv8, y: bv8)
    requires x != y
    ensures Octet(crc, x) != Octet(crc, y)
  {
    var v, w := x as bv32, y as bv32;
    assert v != w;
    if Octet(crc, x) == Octet(crc, y) {
      OctetsLeaveNothing(v, w);
      FeedIsInjective(crc, v, crc, w, OCTET_BITS);
      SameSum(crc, v, w);
    }
  }

  lemma SameSum(crc: bv32, v: bv32, w: bv32)
    requires crc ^ v == crc ^ w
    ensures v == w
  {
    assert crc ^ (crc ^ v) == v && crc ^ (crc ^ w) == w;
  }

  lemma FirstOctet(crc: bv32, x: bv8, post: seq<bv8>)
    ensures FeedOctets(crc, [x] + post) == FeedOctets(Octet(crc, x), post)
  {
    assert ([x] + post)[1..] == post;
  }

  /** Buffers of one length that differ in exactly one octet never have the same CRC. */
  lemma OneOctetIsDetected(pre: seq<bv8>, x: bv8, y: bv8, post: seq<bv8>)
    requires x != y
    ensures Checksum(pre + [x] + post) != Checksum(pre + [y] + post)
  {
    var crc := FeedOctets(0xffff_ffff, pre);
    FeedAppended(0xffff_ffff, pre, [x] + post);
    FeedAppended(0xffff_ffff, pre, [y] + post);
    assert pre + [x] + post == pre + ([x] + post) && pre + [y] + post == pre + ([y] + post);
    DifferentOctets(crc, x, y);
    FirstOctet(crc, x, post);
    FirstOctet(crc, y, post);
    FeedOctetsIsInjective(Octet(crc, x), Octet(crc, y), post);
    XorCancels(FeedOctets(crc, [x] + post), FeedOctets(crc, [y] + post), 0xffff_ffff);
  }

  lemma {:induction false} FeedAppended(crc: bv32, s: seq<bv8>, t: seq<bv8>)
    ensures FeedOctets(crc, s + t) == FeedOctets(FeedOctets(crc, s), t)
    decreases |s|
  {
    if s == [] {
      assert s + t == t;
    } else {
      assert (s + t)[1..] == s[1..] + t;
      FeedAppended(Octet(crc, s[0]), s[1..], t);
    }
  }

  // ----- the routine -----

  method CrcAlgorithm(buf: seq<bv8>) returns (crc: bv32)
    ensures crc == Checksum(buf)
  {
    hide Shift;
    crc := 0xffff_ffff;
    for k := 0 to |buf|
      invariant FeedOctets(0xffff_ffff, buf) == FeedOctets(crc, buf[k..])
    {
      assert buf[k..][1..] == buf[k + 1..];
      var data := buf[k] as bv32;
      ghost var start, octet := crc, data;
      for i := 0 to OCTET_BITS
        invariant Feed(start, octet, OCTET_BITS) == Feed(crc, data, OCTET_BITS - i)
      {
        StepOfLoop(crc, data);
        if (crc ^ data) & 1 == 1 {
          crc := crc >> 1;
          crc := crc ^ POLYNOMIAL;
        } else {
          crc := crc >> 1;
        }
        data := data >> 1;
      }
    }
    crc := crc ^ 0xffff_ffff;
  }

  lemma StepOfLoop(crc: bv32, data: bv32)
    ensures Shift(crc ^ (data & 1)) == if (crc ^ data) & 1 == 1 then (crc >> 1) ^ POLYNOMIAL else crc >> 1
  {
  }
}
