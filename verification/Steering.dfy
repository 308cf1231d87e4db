/** Which way the servo steers: the sign and the size of the rates it gives, and the time it sets. */
module Steering {
  import opened Arith
  import opened Servo
  import opened ServoProperties
  import Products

  /** What a rate adds to the base, modulo 2^32. A negative turn slows the clock down. */
  function Turn(rate: Integer32, base: Integer32): Integer32 {
    Wrap32(rate - base)
  }

  /** The rate that the last command gives, seen from the base it was computed from. */
  function LastTurn(v: State): int {
    if v.commands != [] && v.commands[|v.commands| - 1].AdjFreq? then
      Turn(v.commands[|v.commands| - 1].rate, v.commands[|v.commands| - 1].base)
    else 0
  }

  lemma TurnIs(base: Integer32, delta: int)
    requires Abs(delta) < 0x8000_0000
    ensures Turn(Wrap32(base - delta), base) == -delta
  {
    var w := Wrap32(base - delta);
    var turns := (base - delta - w) / 0x1_0000_0000;
    assert w - base == -delta + -turns * 0x1_0000_0000;
    WrapInRange(-delta);
    WrapIgnoresTurns(-delta, -turns);
  }

  // ----- the controller, for an offset of less than a second -----

  /** A correction by an offset of n nanoseconds that may adjust the clock. */
  predicate Slews(o: Options, v: State, n: int) {
    !o.noAdjust && v.offset.seconds == 0 && v.offset.nanoseconds == n
  }

  /** One rate is given, against a hundredth of the adjustment; nothing else but the drift and what is
      remembered of it changes. */
  lemma SlewTurn(o: Options, v: State, r: SyncReadings)
    requires Slews(o, v, v.offset.nanoseconds)
    ensures var w := UpdateClock(o, v, r);
            && |w.commands| == |v.commands| + 1 && w.commands[..|v.commands|] == v.commands
            && w.commands[|v.commands|].base == v.base
            && LastTurn(w) == -DivC(Adjustment(o, v), 100) && w.drift == NextDrift(o, v)
            && w == v.(drift := w.drift, commands := w.commands, lastAdjust := w.lastAdjust)
  {
    hide NextDrift, Clamp, Wrap32;
    SmallAdjustment(Adjustment(o, v));
    TurnIs(v.base, DivC(Adjustment(o, v), 100));
  }

  lemma FloorsInOrder(a: nat, b: nat, k: nat)
    requires k >= 1 && a <= b
    ensures a / k <= b / k
  {
    var q, p := a / k, b / k;
    assert a == q * k + a % k && b == p * k + b % k;
    if p + 1 <= q { Products.Grows(k, p + 1, q); }
  }

  lemma QuotientsInOrder(a: int, b: int, k: nat)
    requires k >= 1 && a <= b
    ensures DivC(a, k) <= DivC(b, k)
  {
    if a >= 0 {
      FloorsInOrder(a, b, k);
    } else if b < 0 {
      FloorsInOrder(-b, -a, k);
    } else {
      Products.Truncates(a, k);
      Products.Truncates(b, k);
    }
  }

  /** A clock that is ahead is never sped up, one that is behind never slowed down, unless the drift
      opposes; and an offset of a hundred times the attenuation does move the rate. */
  lemma SteersTowards(o: Options, v: State, r: SyncReadings, n: int)
    requires Slews(o, v, n)
    ensures var d := LastTurn(UpdateClock(o, v, r));
            && (n >= 0 && v.drift >= 0 ==> d <= 0) && (n <= 0 && v.drift <= 0 ==> d >= 0)
            && (n >= 100 * AtLeastOne(o.ap) && v.drift >= 0 ==> d < 0)
            && (n <= -100 * AtLeastOne(o.ap) && v.drift <= 0 ==> d > 0)
  {
    hide UpdateClock, LastTurn, AtLeastOne;
    SlewTurn(o, v, r);
    Products.Truncates(n, AtLeastOne(o.ap));
    Products.Truncates(n, AtLeastOne(o.ai));
    if n >= 100 * AtLeastOne(o.ap) { Products.Cancels(AtLeastOne(o.ap), 99, DivC(n, AtLeastOne(o.ap))); }
    if n <= -100 * AtLeastOne(o.ap) { Products.Cancels(AtLeastOne(o.ap), 99, -DivC(n, AtLeastOne(o.ap))); }
  }

  /** The farther ahead, in offset and drift, the slower the clock is made. */
  lemma SteersMore(o: Options, v: State, w: State, r: SyncReadings, q: SyncReadings, n: int, m: int)
    requires Slews(o, v, n) && Slews(o, w, m) && n <= m && v.drift <= w.drift
    ensures LastTurn(UpdateClock(o, v, r)) >= LastTurn(UpdateClock(o, w, q))
    ensures UpdateClock(o, v, r).drift <= UpdateClock(o, w, q).drift
  {
    hide UpdateClock, LastTurn, AtLeastOne, DivC;
    SlewTurn(o, v, r);
    SlewTurn(o, w, q);
    QuotientsInOrder(n, m, AtLeastOne(o.ap));
    QuotientsInOrder(n, m, AtLeastOne(o.ai));
    QuotientsInOrder(Adjustment(o, v), Adjustment(o, w), 100);
  }

  /** Turned round, offset and drift turn the rate round. */
  lemma SteersMirrored(o: Options, v: State, w: State, r: SyncReadings, q: SyncReadings, n: int)
    requires Slews(o, v, n) && Slews(o, w, -n) && w.drift == -v.drift
    ensures LastTurn(UpdateClock(o, w, q)) == -LastTurn(UpdateClock(o, v, r))
    ensures UpdateClock(o, w, q).drift == -UpdateClock(o, v, r).drift
  {
    hide UpdateClock, LastTurn, AtLeastOne, DivC;
    SlewTurn(o, v, r);
    SlewTurn(o, w, q);
    Products.TruncationMirrors(n, AtLeastOne(o.ap));
    Products.TruncationMirrors(n, AtLeastOne(o.ai));
    Products.TruncationMirrors(Adjustment(o, v), 100);
  }

  /** How much: while no limit is reached, a hundred times the turn is the sum of drift, proportional and
      integral term, turned round, up to less than 101; all multiplied by both attenuations here. */
  lemma SteersBy(o: Options, v: State, r: SyncReadings, n: int)
    requires Slews(o, v, n) && 2 * Abs(n) + Abs(v.drift) <= ADJ_FREQ_MAX
    ensures var a, b, d := AtLeastOne(o.ap), AtLeastOne(o.ai), LastTurn(UpdateClock(o, v, r));
            Abs(a * (b * (100 * d + v.drift)) + (a * n + b * n)) < 101 * (a * b)
    ensures Abs(100 * LastTurn(UpdateClock(o, v, r))) <= 2 * Abs(n) + Abs(v.drift)
  {
    hide UpdateClock, LastTurn, AtLeastOne, DivC;
    SlewTurn(o, v, r);
    var a, b := AtLeastOne(o.ap), AtLeastOne(o.ai);
    Shrinks(n, a);
    Shrinks(n, b);
    var x := Adjustment(o, v);
    assert x == v.drift + DivC(n, a) + DivC(n, b);
    Products.Truncates(x, 100);
    Products.Truncates(n, a);
    Products.Truncates(n, b);
    Weighted(a, b, n, DivC(n, a), DivC(n, b), x - 100 * DivC(x, 100));
    assert 100 * LastTurn(UpdateClock(o, v, r)) + v.drift == (x - 100 * DivC(x, 100)) - DivC(n, a) - DivC(n, b);
  }

  lemma Shrinks(n: int, k: nat)
    requires k >= 1
    ensures Abs(DivC(n, k)) <= Abs(n)
  {
    Products.Truncates(n, k);
    Products.Grows(Abs(DivC(n, k)), 1, k);
  }

  lemma Reordered(a: int, b: int, c: int)
    ensures a * (b * c) == b * (a * c) && a * (b * c) == (a * b) * c
  {
  }

  lemma Expanded(a: int, b: int, n: int, q: int, p: int, rest: int)
    ensures a * (b * (rest - q - p)) + (a * n + b * n) == (a * b) * rest + b * (n - a * q) + a * (n - b * p)
  {
    Products.Distributes(b, rest - q, p);
    Products.Distributes(b, rest, q);
    Products.Distributes(a, b * rest - b * q, b * p);
    Products.Distributes(a, b * rest, b * q);
    Products.Distributes(b, n, a * q);
    Products.Distributes(a, n, b * p);
    Reordered(a, b, q);
    Reordered(a, b, rest);
  }

  lemma ProductWithin(a: nat, b: nat, e: int)
    requires a >= 1 && Abs(e) < a
    ensures Abs(b * e) <= a * b - b
  {
    Products.AbsOf(b, e);
    Products.Grows(b, Abs(e), a - 1);
    Products.Distributes(b, a, 1);
  }

  /** The remainders of three truncations, brought to one denominator. */
  lemma Weighted(a: nat, b: nat, n: int, q: int, p: int, rest: int)
    requires a >= 1 && b >= 1 && Abs(n - a * q) < a && Abs(n - b * p) < b && Abs(rest) < 100
    ensures Abs(a * (b * (rest - q - p)) + (a * n + b * n)) < 101 * (a * b)
  {
    Expanded(a, b, n, q, p, rest);
    ProductWithin(a, b, n - a * q);
    ProductWithin(b, a, n - b * p);
    ProductWithin(100, a * b, rest);
    SumWithin((a * b) * rest, b * (n - a * q), a * (n - b * p), a * b, a, b);
  }

  lemma SumWithin(x: int, y: int, z: int, c: int, a: nat, b: nat)
    requires Abs(x) <= 100 * c - c && Abs(y) <= c - b && Abs(z) <= c - a && a >= 1
    ensures Abs(x + y + z) < 101 * c
  {
  }

  /** The drift does not oppose the offset, is not too large for it, and no limit of the controller is near. */
  predicate Gentle(drift: int, off: int) {
    && ((off >= 0 && drift >= 0) || (off <= 0 && drift <= 0))
    && Abs(drift) <= 198 * Abs(off) && 2 * Abs(off) + Abs(drift) <= ADJ_FREQ_MAX
  }

  /** A clock whose offset changes by the turn of its rate is not farther away afterwards, if the drift
      does not oppose the offset and is at most 198 times as large. */
  lemma NotFartherAway(o: Options, v: State, r: SyncReadings, n: int)
    requires Slews(o, v, n) && Gentle(v.drift, n)
    ensures Abs(n + LastTurn(UpdateClock(o, v, r))) <= Abs(n)
  {
    hide UpdateClock, LastTurn, AtLeastOne;
    SteersTowards(o, v, r, n);
    SteersBy(o, v, r, n);
  }

  /** The turn goes against the offset unless the drift opposes, and a gentle one not too far. */
  predicate Brings(drift: int, n: int, turn: int) {
    && (n >= 0 && drift >= 0 ==> turn <= 0) && (n <= 0 && drift <= 0 ==> turn >= 0)
    && (Gentle(drift, n) ==> Abs(n + turn) <= Abs(n))
  }

  lemma SteersWell(o: Options, v: State, r: SyncReadings, n: int)
    requires Slews(o, v, n)
    ensures var w := UpdateClock(o, v, r);
            w.offset == v.offset && |w.commands| == |v.commands| + 1 && Brings(v.drift, n, LastTurn(w))
  {
    hide UpdateClock, LastTurn, AtLeastOne, Adjustment, NextDrift;
    SlewTurn(o, v, r);
    SteersTowards(o, v, r, n);
    if Gentle(v.drift, n) { NotFartherAway(o, v, r, n); }
  }

  // ----- an offset that stays -----

  function Signed(ahead: bool, x: int): int {
    if ahead then x else -x
  }

  datatype Correction = Correction(n: Integer32, readings: SyncReadings)

  function AfterCorrections(o: Options, v: State, cs: seq<Correction>): State
    decreases |cs|
  {
    if cs == [] then v
    else AfterCorrections(o, UpdateClock(o, v.(offset := TimeInternal(0, cs[0].n)), cs[0].readings), cs[1..])
  }

  /** Every offset is, in the direction given, at least the attenuation of the integral term. */
  ghost predicate AllBeyond(o: Options, cs: seq<Correction>, ahead: bool) {
    forall i :: 0 <= i < |cs| ==> Signed(ahead, cs[i].n) >= AtLeastOne(o.ai)
  }

  lemma DriftGrows(o: Options, v: State, c: Correction, ahead: bool)
    requires Signed(ahead, c.n) >= AtLeastOne(o.ai) && Abs(v.drift) <= ADJ_FREQ_MAX && !o.noAdjust
    ensures var w := UpdateClock(o, v.(offset := TimeInternal(0, c.n)), c.readings);
            && Abs(w.drift) <= ADJ_FREQ_MAX
            && (if ahead then w.drift >= v.drift + 1 || w.drift == ADJ_FREQ_MAX
                else w.drift <= v.drift - 1 || w.drift == -ADJ_FREQ_MAX)
            && (v.drift == Signed(ahead, ADJ_FREQ_MAX) ==> w.drift == v.drift)
            && (w.drift == Signed(ahead, ADJ_FREQ_MAX) ==> LastTurn(w) == -Signed(ahead, ADJ_FREQ_MAX / 100))
  {
    hide UpdateClock, LastTurn, AtLeastOne, DivC;
    var u := v.(offset := TimeInternal(0, c.n));
    SlewTurn(o, u, c.readings);
    AtLeastOneTimes(c.n, AtLeastOne(o.ai));
    Products.Truncates(c.n, AtLeastOne(o.ap));
    assert DivC(ADJ_FREQ_MAX, 100) == ADJ_FREQ_MAX / 100 && DivC(-ADJ_FREQ_MAX, 100) == -(ADJ_FREQ_MAX / 100)
      by { Hundredth(); }
  }

  lemma Hundredth()
    ensures DivC(ADJ_FREQ_MAX, 100) == 5120 && DivC(-ADJ_FREQ_MAX, 100) == -5120
    ensures ADJ_FREQ_MAX / 100 == 5120 && -ADJ_FREQ_MAX / 100 == -5120
  {
  }

  lemma AtLeastOneTimes(n: int, k: nat)
    requires k >= 1 && Abs(n) >= k
    ensures n > 0 ==> DivC(n, k) >= 1
    ensures n < 0 ==> DivC(n, k) <= -1
  {
    Products.Truncates(n, k);
    Products.Cancels(k, 0, Abs(DivC(n, k)));
  }

  /** Once at the limit, the drift stays there. */
  lemma {:induction false} LimitStays(o: Options, v: State, cs: seq<Correction>, ahead: bool)
    requires !o.noAdjust && AllBeyond(o, cs, ahead) && v.drift == Signed(ahead, ADJ_FREQ_MAX)
    ensures AfterCorrections(o, v, cs).drift == v.drift
    decreases |cs|
  {
    hide UpdateClock, AtLeastOne, LastTurn;
    if cs != [] {
      assert forall i :: 0 <= i < |cs[1..]| ==> cs[1..][i] == cs[i + 1];
      DriftGrows(o, v, cs[0], ahead);
      LimitStays(o, UpdateClock(o, v.(offset := TimeInternal(0, cs[0].n)), cs[0].readings), cs[1..], ahead);
    }
  }

  /** The integral term does not let an offset stay: every correction moves the drift towards the limit, and
      at the limit the rate is off by a hundredth of it, against the offset. */
  lemma {:induction false} IntegralActs(o: Options, v: State, cs: seq<Correction>, ahead: bool)
    requires !o.noAdjust && Abs(v.drift) <= ADJ_FREQ_MAX && AllBeyond(o, cs, ahead)
    ensures var w := AfterCorrections(o, v, cs);
            && (Signed(ahead, ADJ_FREQ_MAX) == w.drift || Signed(ahead, w.drift) >= Signed(ahead, v.drift) + |cs|)
            && (cs != [] && w.drift == Signed(ahead, ADJ_FREQ_MAX) ==> LastTurn(w) == -Signed(ahead, ADJ_FREQ_MAX / 100))
            && Abs(w.drift) <= ADJ_FREQ_MAX
    decreases |cs|
  {
    hide UpdateClock, AtLeastOne, LastTurn;
    if cs != [] {
      assert forall i :: 0 <= i < |cs[1..]| ==> cs[1..][i] == cs[i + 1];
      var next := UpdateClock(o, v.(offset := TimeInternal(0, cs[0].n)), cs[0].readings);
      DriftGrows(o, v, cs[0], ahead);
      IntegralActs(o, next, cs[1..], ahead);
      if next.drift == Signed(ahead, ADJ_FREQ_MAX) { LimitStays(o, next, cs[1..], ahead); }
    }
  }

  // ----- an offset of seconds -----

  /** A clock reset, once the times of an earlier Sync are there: the rate goes against the drift found, by a
      hundredth of it, and the servo starts afresh but for that drift. Without those times nothing is commanded, and
      the times of this Sync are kept. */
  lemma ResetSteers(o: Options, v: State, r: SyncReadings)
    requires v.offset.seconds != 0 && !o.noAdjust && !o.noResetClock
    ensures var w, n := UpdateClock(o, v, r), |v.commands|;
            if v.t1Delta == ZeroTime then w == v.(t1Delta := r.t1, t2Delta := r.t2)
            else
              && |w.commands| == n + 2 && w.commands[..n] == v.commands && w.commands[n].SetTime?
              && (w.drift <= 0 ==> LastTurn(w) >= 0) && (w.drift >= 0 ==> LastTurn(w) <= 0)
              && Abs(100 * LastTurn(w) + w.drift) <= 99 && Abs(w.drift) <= ADJ_FREQ_MAX
              && w.offset == ZeroTime && w.ofm.nsecPrev == -1
  {
    hide StepTarget, Difference, Wrap32, StepAdjustment;
    if v.t1Delta != ZeroTime {
      SmallAdjustment(StepAdjustment(v, r));
      TurnIs(v.base, DivC(StepAdjustment(v, r), 100));
    }
  }

  /** Two Syncs that are interval nanoseconds apart by the master's clock, and excess more by the own. */
  predicate Apart(v: State, r: SyncReadings, interval: int, excess: int) {
    && Canonical(v.t1Delta) && Canonical(r.t1) && Canonical(v.t2Delta) && Canonical(r.t2) && v.t1Delta != ZeroTime
    && Nanos(r.t1) - Nanos(v.t1Delta) == interval && Nanos(r.t2) - Nanos(v.t2Delta) == interval + excess
    && Fits(interval) && Fits(interval + excess) && Fits(excess)
  }

  /** The drift found is how much faster the own clock runs than the master's, in parts per billion, cut to the limit,
      as long as the clocks have come apart by at most nine seconds between the two Syncs. */
  lemma ResetFindsDrift(o: Options, v: State, r: SyncReadings, interval: int, excess: int)
    requires v.offset.seconds != 0 && !o.noAdjust && !o.noResetClock
    requires Apart(v, r, interval, excess) && interval > 0 && Abs(excess) <= 9 * NSEC
    ensures var w := UpdateClock(o, v, r);
            && w.drift == Clamp(DivC(excess * 1_000_000_000, interval))
            && Exactly(w.t1Delta, interval) && Exactly(w.t2Delta, excess)
  {
    hide Difference, Nanos, Canonical, Clamp, DivC, StepTarget, Wrap32;
    DifferenceFits(r.t1, v.t1Delta);
    DifferenceFits(r.t2, v.t2Delta);
    DifferenceOfExact(Difference(r.t2, v.t2Delta), Difference(r.t1, v.t1Delta), interval + excess, interval);
    NoWrap64(excess);
  }

  lemma NoWrap64(excess: int)
    requires Abs(excess) <= 9 * NSEC
    ensures Wrap64(excess * 1_000_000_000) == excess * 1_000_000_000
  {
  }

  lemma DifferenceOfExact(x: TimeInternal, y: TimeInternal, a: int, b: int)
    requires Exactly(x, a) && Exactly(y, b) && Fits(a - b)
    ensures Exactly(Difference(x, y), a - b)
  {
    DifferenceFits(x, y);
  }

  /** What is kept for the next reset is the interval, not the time of the Sync: the interval that reset finds is
      right exactly if the two are the same. */
  lemma LaterResetsAreOff(o: Options, v: State, r: SyncReadings, interval: int, excess: int, next: SyncReadings)
    requires v.offset.seconds != 0 && !o.noAdjust && !o.noResetClock
    requires Apart(v, r, interval, excess) && interval > 0 && Abs(excess) <= 9 * NSEC
    requires Canonical(next.t1) && Fits(Nanos(next.t1) - interval)
    ensures var w := UpdateClock(o, v, r);
            && w.t1Delta != ZeroTime
            && forall offset: TimeInternal :: offset.seconds != 0 ==>
                 var u := UpdateClock(o, w.(offset := offset), next);
                 Exactly(u.t1Delta, Nanos(next.t1) - Nanos(r.t1)) <==> Nanos(r.t1) == interval
  {
    hide Difference, Canonical, Clamp, DivC, StepTarget, StepAdjustment, Wrap32, Nanos;
    ResetFindsDrift(o, v, r, interval, excess);
    var w := UpdateClock(o, v, r);
    NotZero(w.t1Delta, interval);
    DifferenceOfExact(next.t1, w.t1Delta, Nanos(next.t1), interval);
  }

  lemma NotZero(t: TimeInternal, total: int)
    requires Exactly(t, total) && total > 0
    ensures t != ZeroTime
  {
  }

  /** Measuring the delay to a peer forgets those times, so that the next correction by seconds only keeps the times of
      its Sync again. */
  lemma PeerDelayDefersReset(o: Options, v: State, p: PathTimes, offset: TimeInternal, r: SyncReadings)
    requires ValidOptions(o) && FilterOk(v.owd) && offset.seconds != 0 && !o.noAdjust && !o.noResetClock
    ensures var w := UpdateClock(o, UpdatePathDelay(o, v, p).(offset := offset), r);
            w.commands == v.commands && w.t1Delta == r.t1 && w.t2Delta == r.t2
  {
    hide FilterDelay, PathDelayMeasured;
  }

  /** The time set is exact if the totals fit. A clock that is ahead by the offset, and read at no cost, is
      set to the master's time. */
  lemma ResetSetsTime(o: Options, v: State, r: SyncReadings)
    requires v.offset.seconds != 0 && !o.noAdjust && !o.noResetClock && v.t1Delta != ZeroTime
    requires Canonical(v.offset) && Canonical(r.timeA) && Canonical(r.timeB) && Canonical(r.timeD)
    requires Fits(Nanos(r.timeD) - Nanos(v.offset)) && Fits(Nanos(r.timeB) - Nanos(r.timeA))
    requires Fits(Nanos(r.timeD) - Nanos(v.offset) + Nanos(r.timeB) - Nanos(r.timeA))
    ensures var c := UpdateClock(o, v, r).commands[|v.commands|];
            c.SetTime? && Exactly(c.t, Nanos(r.timeD) - Nanos(v.offset) + Nanos(r.timeB) - Nanos(r.timeA))
  {
    hide Difference, Sum, Nanos, Canonical, Fits, Wrap32;
    DifferenceFits(r.timeD, v.offset);
    DifferenceFits(r.timeB, r.timeA);
    SumOfExact(Difference(r.timeD, v.offset), Difference(r.timeB, r.timeA),
               Nanos(r.timeD) - Nanos(v.offset), Nanos(r.timeB) - Nanos(r.timeA));
  }

  lemma SumOfExact(x: TimeInternal, y: TimeInternal, a: int, b: int)
    requires Exactly(x, a) && Exactly(y, b) && Fits(a + b)
    ensures Exactly(Sum(x, y), a + b)
  {
    SumFits(x, y);
  }

  /** At full speed only the nanoseconds are looked at. The rate goes against an offset of seconds exactly
      unless that is a whole number of seconds ahead: then the clock that is ahead is sped up. */
  lemma FullSpeedOpposes(o: Options, v: State, r: SyncReadings)
    requires AtFullSpeed(o, v) && Canonical(v.offset)
    ensures var turn := LastTurn(UpdateClock(o, v, r));
            && Abs(turn) == ADJ_FREQ_MAX
            && ((turn < 0 <==> Nanos(v.offset) > 0) <==> !(v.offset.seconds > 0 && v.offset.nanoseconds == 0))
  {
    hide Wrap32;
    TurnIs(v.base, ADJ_FREQ_MAX);
    TurnIs(v.base, -ADJ_FREQ_MAX);
  }

  lemma FullSpeedTheWrongWay(v: State, r: SyncReadings)
    requires v.offset == TimeInternal(1, 0)
    ensures var o := Options(0, 0, 0, false, true, false, 0);
            AtFullSpeed(o, v) && LastTurn(UpdateClock(o, v, r)) == ADJ_FREQ_MAX
  {
    hide Wrap32;
    TurnIs(v.base, -ADJ_FREQ_MAX);
  }

  // ----- the adjustment remembered -----

  /** What is remembered of an adjustment, and when: only after a correction by at most 100 ns, if asked for. */
  lemma RememberedExactly(o: Options, v: State, r: SyncReadings, n: int)
    requires Slews(o, v, n)
    ensures var w := UpdateClock(o, v, r);
            && (Abs(n) > 100 || !o.rememberAdjustValue ==> w.lastAdjust == v.lastAdjust)
            && (Abs(n) <= 100 && o.rememberAdjustValue ==> DivC(-w.lastAdjust, 100) == -LastTurn(w))
  {
    hide NextDrift, Wrap32;
    SlewTurn(o, v, r);
  }

  /** The adjustment behind a good rate is remembered a hundredfold: a correction by at most 100 ns turns the
      rate by a hundredth of what the next initialization turns the configured base by. The rate comes
      back as it was exactly if that adjustment was none. */
  lemma RememberedHundredfold(o: Options, v: State, r: SyncReadings, n: int)
    requires Slews(o, v, n) && Abs(n) <= 100 && o.rememberAdjustValue
    ensures var w := UpdateClock(o, v, r);
            var u := InitClock(o, w);
            var kept := Turn(u.base, o.baseAdjustValue);
            && LastTurn(w) == DivC(kept, 100) && Abs(kept) <= ADJ_FREQ_MAX
            && (v.base == o.baseAdjustValue ==> (u.base == w.commands[|v.commands|].rate <==> kept == 0))
  {
    hide NextDrift, Wrap32;
    var adj := Adjustment(o, v);
    SmallAdjustment(adj);
    TurnIs(v.base, DivC(adj, 100));
    TurnIs(o.baseAdjustValue, adj);
    Products.TruncationMirrors(adj, 100);
    if v.base == o.baseAdjustValue && adj == 0 { WrapInRange(v.base); }
  }
}
