/** Signed second/nanosecond time of src/arith.c, with its 32-bit fields wrapping as two's complement. */
module Arith {

  const INT_MAX := 0x7FFF_FFFF
  const NSEC := 1_000_000_000

  type Integer32 = x: int | -0x8000_0000 <= x < 0x8000_0000
  type UInteger32 = x: int | 0 <= x < 0x1_0000_0000

  function Wrap32(x: int): Integer32 {
    (x + 0x8000_0000) % 0x1_0000_0000 - 0x8000_0000
  }

  lemma WrapInRange(x: int)
    requires -0x8000_0000 <= x < 0x8000_0000
    ensures Wrap32(x) == x
  {
  }

  function Abs(x: int): nat {
    if x < 0 then -x else x
  }

  /** C division: the quotient is truncated toward zero. */
  function DivC(a: int, b: int): (q: int)
    requires b > 0
  {
    if a >= 0 then a / b else -(-a / b)
  }

  datatype TimeInternal = TimeInternal(seconds: Integer32, nanoseconds: Integer32)

  const ZeroTime := TimeInternal(0, 0)

  /** The time in nanoseconds. */
  function Nanos(t: TimeInternal): int {
    t.seconds * NSEC + t.nanoseconds
  }

  /** Less than a second of nanoseconds, and no disagreement of signs. */
  predicate Canonical(t: TimeInternal) {
    && -NSEC < t.nanoseconds < NSEC
    && !(t.seconds > 0 && t.nanoseconds < 0)
    && !(t.seconds < 0 && t.nanoseconds > 0)
  }

  /** Totals that have a canonical form with 32-bit seconds. */
  predicate Representable(total: int) {
    -0x8000_0000 <= DivC(total, NSEC) < 0x8000_0000
  }

  function FromNanos(total: int): (t: TimeInternal)
    requires Representable(total)
    ensures Canonical(t) && Nanos(t) == total
  {
    TimeInternal(DivC(total, NSEC), total - DivC(total, NSEC) * NSEC)
  }

  /** The canonical form is unique. */
  lemma CanonicalIsUnique(t: TimeInternal)
    requires Canonical(t)
    ensures Representable(Nanos(t)) && t == FromNanos(Nanos(t))
  {
    if t.seconds >= 0 && t.nanoseconds >= 0 {
      QuotientIs(Nanos(t), t.seconds, t.nanoseconds);
    } else {
      QuotientIs(-Nanos(t), 0 - t.seconds, 0 - t.nanoseconds);
    }
  }

  lemma QuotientIs(total: nat, q: nat, r: nat)
    requires total == q * NSEC + r && r < NSEC
    ensures total / NSEC == q
  {
  }

  // ----- specification of the time routines -----

  function Normalized(seconds: Integer32, nanoseconds: Integer32): TimeInternal {
    var carry := DivC(nanoseconds, NSEC);
    var s := Wrap32(seconds + carry);
    var n := nanoseconds - carry * NSEC;
    if s > 0 && n < 0 then TimeInternal(s - 1, n + NSEC)
    else if s < 0 && n > 0 then TimeInternal(s + 1, n - NSEC)
    else TimeInternal(s, n)
  }

  function Sum(x: TimeInternal, y: TimeInternal): TimeInternal {
    Normalized(Wrap32(x.seconds + y.seconds), Wrap32(x.nanoseconds + y.nanoseconds))
  }

  function Difference(x: TimeInternal, y: TimeInternal): TimeInternal {
    Normalized(Wrap32(x.seconds - y.seconds), Wrap32(x.nanoseconds - y.nanoseconds))
  }

  function Half(t: TimeInternal): TimeInternal {
    var n := DivC(t.nanoseconds, 2);
    var s := DivC(t.seconds, 2);
    if t.seconds == s * 2 then TimeInternal(s, n)
    else if t.seconds > 0 then TimeInternal(s, Wrap32(n + NSEC / 2))
    else TimeInternal(s, Wrap32(n - NSEC / 2))
  }

  /** Whatever the operands, even after a wrap-around, the results are sign-consistent. */
  lemma NormalizedIsCanonical(seconds: Integer32, nanoseconds: Integer32)
    ensures Canonical(Normalized(seconds, nanoseconds))
  {
    if nanoseconds >= 0 {
      assert 0 <= nanoseconds - nanoseconds / NSEC * NSEC < NSEC;
    } else {
      var n := 0 - nanoseconds;
      assert 0 <= n - n / NSEC * NSEC < NSEC;
    }
  }

  /** The seconds, with the carry from the nanoseconds, stay within 32 bits. */
  predicate SecondsFit(seconds: int, nanoseconds: int) {
    -0x8000_0000 <= seconds + DivC(nanoseconds, NSEC) < 0x8000_0000
  }

  /** Normalizing keeps the total exactly when no wrap-around happens. */
  lemma NormalizedTotal(seconds: int, nanoseconds: Integer32)
    ensures Nanos(Normalized(Wrap32(seconds), nanoseconds)) == seconds * NSEC + nanoseconds <==> SecondsFit(seconds, nanoseconds)
  {
    var carry := DivC(nanoseconds, NSEC);
    var w := Wrap32(seconds + carry);
    assert Wrap32(Wrap32(seconds) + carry) == w;
    assert w == seconds + carry <==> SecondsFit(seconds, nanoseconds);
    var n := nanoseconds - carry * NSEC;
    assert Nanos(Normalized(Wrap32(seconds), nanoseconds)) == w * NSEC + n;
  }

  lemma TotalOf(r: TimeInternal, seconds: int, nanoseconds: Integer32, total: int)
    requires r == Normalized(Wrap32(seconds), nanoseconds) && total == seconds * NSEC + nanoseconds
    ensures Canonical(r) && (Nanos(r) == total <==> SecondsFit(seconds, nanoseconds))
  {
    NormalizedIsCanonical(Wrap32(seconds), nanoseconds);
    NormalizedTotal(seconds, nanoseconds);
  }

  /** The sum is canonical whatever happens, and exact exactly when its seconds fit. */
  lemma SumIsExact(x: TimeInternal, y: TimeInternal)
    requires Canonical(x) && Canonical(y)
    ensures Canonical(Sum(x, y))
    ensures Nanos(Sum(x, y)) == Nanos(x) + Nanos(y) <==> SecondsFit(x.seconds + y.seconds, x.nanoseconds + y.nanoseconds)
  {
    hide Normalized, SecondsFit, Wrap32;
    var s, n := x.seconds + y.seconds, x.nanoseconds + y.nanoseconds;
    WrapInRange(n);
    TotalOf(Normalized(Wrap32(s), n), s, n, Nanos(x) + Nanos(y));
  }

  lemma DifferenceIsExact(x: TimeInternal, y: TimeInternal)
    requires Canonical(x) && Canonical(y)
    ensures Canonical(Difference(x, y))
    ensures Nanos(Difference(x, y)) == Nanos(x) - Nanos(y) <==> SecondsFit(x.seconds - y.seconds, x.nanoseconds - y.nanoseconds)
  {
    hide Normalized, SecondsFit, Wrap32;
    var s, n := x.seconds - y.seconds, x.nanoseconds - y.nanoseconds;
    WrapInRange(n);
    TotalOf(Normalized(Wrap32(s), n), s, n, Nanos(x) - Nanos(y));
  }

  /** Halving truncates the total toward zero and stays canonical. */
  lemma HalfIsExact(t: TimeInternal)
    requires Canonical(t)
    ensures Canonical(Half(t)) && Nanos(Half(t)) == DivC(Nanos(t), 2)
  {
    var s := DivC(t.seconds, 2);
    if t.seconds >= 0 && t.nanoseconds >= 0 {
      assert Nanos(t) == 2 * (s * NSEC) + (t.seconds - 2 * s) * NSEC + t.nanoseconds;
    } else {
      assert 0 - Nanos(t) == 2 * (0 - s) * NSEC + (2 * s - t.seconds) * NSEC - t.nanoseconds;
    }
  }

  // ----- the routines, updating times in place -----

  /** A time that several pointers may refer to. */
  class TimeCell {
    var seconds: Integer32
    var nanoseconds: Integer32

    constructor (t: TimeInternal)
      ensures Value() == t
    {
      seconds, nanoseconds := t.seconds, t.nanoseconds;
    }

    function Value(): TimeInternal
      reads this
    {
      TimeInternal(seconds, nanoseconds)
    }
  }

  method NormalizeTime(result: TimeCell)
    modifies result
    ensures result.Value() == Normalized(old(result.seconds), old(result.nanoseconds))
  {
    result.seconds := Wrap32(result.seconds + DivC(result.nanoseconds, NSEC));
    result.nanoseconds := result.nanoseconds - DivC(result.nanoseconds, NSEC) * NSEC;
    if result.seconds > 0 && result.nanoseconds < 0 {
      result.seconds := result.seconds - 1;
      result.nanoseconds := result.nanoseconds + NSEC;
    } else if result.seconds < 0 && result.nanoseconds > 0 {
      result.seconds := result.seconds + 1;
      result.nanoseconds := result.nanoseconds - NSEC;
    }
  }

  /** The result may be the same cell as one or both operands. */
  method AddTime(result: TimeCell, x: TimeCell, y: TimeCell)
    modifies result
    ensures result.Value() == Sum(old(x.Value()), old(y.Value()))
  {
    result.seconds := Wrap32(x.seconds + y.seconds);
    result.nanoseconds := Wrap32(x.nanoseconds + y.nanoseconds);
    NormalizeTime(result);
  }

  method SubTime(result: TimeCell, x: TimeCell, y: TimeCell)
    modifies result
    ensures result.Value() == Difference(old(x.Value()), old(y.Value()))
  {
    result.seconds := Wrap32(x.seconds - y.seconds);
    result.nanoseconds := Wrap32(x.nanoseconds - y.nanoseconds);
    NormalizeTime(result);
  }

  method HalveTime(time: TimeCell)
    modifies time
    ensures time.Value() == Half(old(time.Value()))
  {
    if time.nanoseconds >= 0 {
      time.nanoseconds := time.nanoseconds / 2;
    } else {
      time.nanoseconds := DivC(time.nanoseconds, 2);
    }
    if time.seconds == 0 {
      return;
    }
    var positive := time.seconds > 0;
    var odd := time.seconds % 2 == 1;
    if positive {
      time.seconds := time.seconds / 2;
      if odd {
        time.nanoseconds := Wrap32(time.nanoseconds + NSEC / 2);
      }
    } else {
      time.seconds := DivC(time.seconds, 2);
      if odd {
        time.nanoseconds := Wrap32(time.nanoseconds - NSEC / 2);
      }
    }
  }

  // ----- the format on the wire -----

  datatype TimeRepresentation = TimeRepresentation(seconds: UInteger32, nanoseconds: Integer32)

  /** Unsigned magnitudes, the sign in the top bit of the nanoseconds, and half an epoch added to the
      seconds when the flag is set. */
  function ToWire(t: TimeInternal, halfEpoch: nat): TimeRepresentation {
    TimeRepresentation((Abs(t.seconds) + halfEpoch * INT_MAX) % 0x1_0000_0000,
      if t.seconds < 0 || t.nanoseconds < 0 then Wrap32(Abs(t.nanoseconds) % 0x8000_0000 + 0x8000_0000)
      else t.nanoseconds)
  }

  function FromWire(w: TimeRepresentation): TimeInternal {
    if w.nanoseconds < 0 then
      TimeInternal(-(w.seconds % INT_MAX), -(w.nanoseconds + 0x8000_0000))
    else
      TimeInternal(w.seconds % INT_MAX, w.nanoseconds)
  }

  function HalfEpochOf(w: TimeRepresentation): nat {
    w.seconds / INT_MAX
  }

  /** A time survives the wire format exactly when its seconds are below INT_MAX and the signs agree;
      the flag survives exactly when the seconds do. */
  lemma WireRoundTrip(t: TimeInternal, halfEpoch: nat)
    requires t.seconds > -0x8000_0000 && t.nanoseconds > -0x8000_0000 && halfEpoch <= 1
    ensures FromWire(ToWire(t, halfEpoch)) == t <==>
            Abs(t.seconds) < INT_MAX && !(t.seconds > 0 && t.nanoseconds < 0) && !(t.seconds < 0 && t.nanoseconds > 0)
    ensures HalfEpochOf(ToWire(t, halfEpoch)) == halfEpoch <==> Abs(t.seconds) < INT_MAX
  {
    var w := ToWire(t, halfEpoch);
    assert w.seconds == Abs(t.seconds) + halfEpoch * INT_MAX;
    if Abs(t.seconds) < INT_MAX {
      assert w.seconds % INT_MAX == Abs(t.seconds) && w.seconds / INT_MAX == halfEpoch;
    }
  }

  method FromInternalTime(internal: TimeCell, halfEpoch: nat) returns (external: TimeRepresentation)
    requires internal.seconds > -0x8000_0000 && internal.nanoseconds > -0x8000_0000 && halfEpoch <= 1
    ensures external == ToWire(internal.Value(), halfEpoch)
  {
    var seconds := (Abs(internal.seconds) + halfEpoch * INT_MAX) % 0x1_0000_0000;
    if internal.seconds < 0 || internal.nanoseconds < 0 {
      external := TimeRepresentation(seconds, Abs(internal.nanoseconds) - 0x8000_0000);
    } else {
      external := TimeRepresentation(seconds, Abs(internal.nanoseconds));
    }
  }

  method ToInternalTime(internal: TimeCell, external: TimeRepresentation) returns (halfEpoch: nat)
    modifies internal
    ensures internal.Value() == FromWire(external) && halfEpoch == HalfEpochOf(external)
  {
    halfEpoch := external.seconds / INT_MAX;
    if external.nanoseconds < 0 {
      internal.seconds := -(external.seconds % INT_MAX);
      internal.nanoseconds := -(external.nanoseconds + 0x8000_0000);
    } else {
      internal.seconds := external.seconds % INT_MAX;
      internal.nanoseconds := external.nanoseconds;
    }
  }
}
