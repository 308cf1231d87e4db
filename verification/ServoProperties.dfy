/** What every run of the servo keeps, where its delay filter settles, and what it measures. */
module ServoProperties {
  import opened Arith
  import opened Servo
  import opened Convergence

  // ----- bounds over every run -----

  datatype Operation =
    | Init
    | Delay(send: TimeInternal, recv: TimeInternal, correction: TimeInternal)
    | PathDelay(times: PathTimes)
    | Offset(send: TimeInternal, recv: TimeInternal, syncCorrection: TimeInternal, followupCorrection: TimeInternal)
    | Clock(readings: SyncReadings)

  /** How far, in either direction, a rate lies from the base, modulo 2^32. */
  function Deviation(rate: Integer32, base: Integer32): nat {
    Abs(Wrap32(rate - base))
  }

  function BaseDeviation(o: Options): nat {
    if o.rememberAdjustValue then ADJ_FREQ_MAX else 0
  }

  /** A rate of the controller or of a clock reset lies within a hundredth of the adjustment limit around
      the base it was computed from; full speed is off by exactly the limit, and needs a clock that may
      not be reset. */
  predicate RateOk(o: Options, c: Command) {
    c.AdjFreq? ==>
      && !o.noAdjust && Deviation(c.base, o.baseAdjustValue) <= BaseDeviation(o)
      && match c.branch
         case Restored => c.rate == c.base
         case Reset => !o.noResetClock && Deviation(c.rate, c.base) <= ADJ_FREQ_MAX / 100
         case Controlled => Deviation(c.rate, c.base) <= ADJ_FREQ_MAX / 100
         case FullSpeed => o.noResetClock && Deviation(c.rate, c.base) == ADJ_FREQ_MAX
  }

  /** Drift and remembered adjustment within the limit, the base within it of the configured one if the
      adjustment is remembered and else the same, and every rate where it should be. */
  ghost predicate RatesBounded(o: Options, base: Integer32, drift: int, lastAdjust: int, commands: seq<Command>) {
    && Abs(drift) <= ADJ_FREQ_MAX && Abs(lastAdjust) <= ADJ_FREQ_MAX
    && (!o.noAdjust ==> Deviation(base, o.baseAdjustValue) <= BaseDeviation(o))
    && forall k :: 0 <= k < |commands| ==> RateOk(o, commands[k])
  }

  ghost predicate TimesBounded(o: Options, v: State) {
    && FilterOk(v.owd) && v.owd.sExp <= Pow2(o.s)
    && Abs(v.ofm.y) < NSEC && Abs(v.ofm.nsecPrev) < NSEC
    && Canonical(v.oneWayDelay) && Canonical(v.offset) && Canonical(v.masterToSlave)
  }

  /** The weight the next delay sample would get. */
  function NextWeight(o: Options, f: DelayFilter): int
    requires ValidOptions(o) && FilterOk(f)
  {
    NextExponent(f.sExp, Pow2(ReducedS(o.s, f.y)))
  }

  ghost predicate Bounded(o: Options, v: State) {
    TimesBounded(o, v) && RatesBounded(o, v.base, v.drift, v.lastAdjust, v.commands)
  }

  function Step(o: Options, v: State, op: Operation): State
    requires ValidOptions(o) && FilterOk(v.owd) && Abs(v.ofm.nsecPrev) < NSEC
  {
    match op
    case Init => InitClock(o, v)
    case Delay(send, recv, correction) => UpdateDelay(o, v, send, recv, correction)
    case PathDelay(times) => UpdatePathDelay(o, v, times)
    case Offset(send, recv, c1, c2) => UpdateOffset(v, send, recv, c1, c2)
    case Clock(readings) => UpdateClock(o, v, readings)
  }

  lemma FilterIsBounded(o: Options, f: DelayFilter, x: int)
    requires ValidOptions(o) && FilterOk(f) && Abs(x) < NSEC
    ensures FilterDelay(o.s, f, x).sExp <= Pow2(o.s)
  {
    Pow2Grows(ReducedS(o.s, f.y), o.s);
  }

  lemma NextProductFits(o: Options, f: DelayFilter)
    requires ValidOptions(o) && FilterOk(f)
    ensures Abs((NextWeight(o, f) - 1) * f.y) < 0x8000_0000
  {
    ProductFits(ReducedS(o.s, f.y), NextWeight(o, f), f.y);
  }

  lemma DelayIsBounded(o: Options, v: State, delay: TimeInternal)
    requires ValidOptions(o) && Bounded(o, v) && Canonical(delay)
    ensures Bounded(o, WithDelay(o, v, delay))
  {
    if delay.seconds == 0 { FilterIsBounded(o, v.owd, delay.nanoseconds); }
  }

  lemma OffsetIsBounded(o: Options, v: State, send: TimeInternal, recv: TimeInternal, c1: TimeInternal, c2: TimeInternal)
    requires ValidOptions(o) && Bounded(o, v)
    ensures Bounded(o, UpdateOffset(v, send, recv, c1, c2))
  {
    var rest := Difference(Difference(recv, send), c1);
    DifferenceIsCanonical(rest, c2);
    DifferenceIsCanonical(Difference(rest, c2), v.oneWayDelay);
  }

  /** Two adjustments in a row deviate at most by their sum. */
  lemma DeviationsAdd(base: Integer32, origin: Integer32, delta: int, bound: nat)
    requires Deviation(base, origin) <= bound && bound + Abs(delta) < 0x8000_0000
    ensures Deviation(Wrap32(base - delta), origin) <= bound + Abs(delta)
  {
    var e := Wrap32(base - origin);
    var turns := (base - origin - e) / 0x1_0000_0000;
    assert base - origin == e + turns * 0x1_0000_0000;
    var w := Wrap32(base - delta);
    var more := (base - delta - w) / 0x1_0000_0000;
    assert base - delta == w + more * 0x1_0000_0000;
    assert w - origin == e - delta + (turns - more) * 0x1_0000_0000;
    WrapInRange(e - delta);
    WrapIgnoresTurns(e - delta, turns - more);
  }

  lemma WrapIgnoresTurns(x: int, turns: int)
    ensures Wrap32(x + turns * 0x1_0000_0000) == Wrap32(x)
  {
  }

  lemma OneMoreRate(o: Options, base: Integer32, drift: int, lastAdjust: int, commands: seq<Command>,
                    newDrift: int, newLast: int, c: Command)
    requires RatesBounded(o, base, drift, lastAdjust, commands)
    requires Abs(newDrift) <= ADJ_FREQ_MAX && Abs(newLast) <= ADJ_FREQ_MAX && RateOk(o, c)
    ensures RatesBounded(o, base, newDrift, newLast, commands + [c])
  {
  }

  lemma NewBase(o: Options, v: State)
    requires Bounded(o, v) && !o.noAdjust
    ensures var base := InitClock(o, v).base;
            Deviation(base, o.baseAdjustValue) <= BaseDeviation(o)
            && RatesBounded(o, base, 0, v.lastAdjust, v.commands)
  {
    assert Deviation(o.baseAdjustValue, o.baseAdjustValue) == 0;
    if o.rememberAdjustValue {
      DeviationsAdd(o.baseAdjustValue, o.baseAdjustValue, -v.lastAdjust, 0);
    }
  }

  lemma InitIsBounded(o: Options, v: State)
    requires Bounded(o, v)
    ensures Bounded(o, InitClock(o, v))
  {
    if !o.noAdjust {
      NewBase(o, v);
      var base := InitClock(o, v).base;
      OneMoreRate(o, base, 0, v.lastAdjust, v.commands, 0, v.lastAdjust, AdjFreq(base, base, Restored));
    }
  }

  /** An adjustment moves the rate by exactly its size, in either direction. */
  lemma DeviationIs(base: Integer32, delta: int)
    requires Abs(delta) < 0x8000_0000
    ensures Deviation(Wrap32(base - delta), base) == Abs(delta)
  {
    var w := Wrap32(base - delta);
    var turns := (base - delta - w) / 0x1_0000_0000;
    assert w - base == -delta + -turns * 0x1_0000_0000;
    WrapInRange(-delta);
    WrapIgnoresTurns(-delta, -turns);
  }

  lemma SmallAdjustment(adj: int)
    requires Abs(adj) <= ADJ_FREQ_MAX
    ensures Abs(DivC(adj, 100)) <= ADJ_FREQ_MAX / 100
  {
  }

  lemma SlewIsBounded(o: Options, v: State)
    requires Bounded(o, v)
    ensures Bounded(o, SlewClock(o, v))
  {
    hide Deviation;
    var drift, adj := NextDrift(o, v), Adjustment(o, v);
    if !o.noAdjust {
      SmallAdjustment(adj);
      DeviationIs(v.base, DivC(adj, 100));
      OneMoreRate(o, v.base, v.drift, v.lastAdjust, v.commands, drift, SlewClock(o, v).lastAdjust,
                  AdjFreq(Wrap32(v.base - DivC(adj, 100)), v.base, Controlled));
    }
  }

  lemma ClockStepIsBounded(o: Options, v: State, r: SyncReadings)
    requires Bounded(o, v) && !o.noAdjust && !o.noResetClock
    ensures Bounded(o, StepClock(v, r))
  {
    hide Deviation;
    if v.t1Delta != ZeroTime {
      var adj := StepAdjustment(v, r);
      SmallAdjustment(adj);
      DeviationIs(v.base, DivC(adj, 100));
      OneMoreRate(o, v.base, v.drift, v.lastAdjust, v.commands, v.drift, v.lastAdjust, SetTime(StepTarget(v, r)));
      OneMoreRate(o, v.base, v.drift, v.lastAdjust, v.commands + [SetTime(StepTarget(v, r))], adj, v.lastAdjust,
                  AdjFreq(Wrap32(v.base - DivC(adj, 100)), v.base, Reset));
    }
  }

  lemma FullSpeedIsBounded(o: Options, v: State, adj: int)
    requires Bounded(o, v) && !o.noAdjust && o.noResetClock && Abs(adj) == ADJ_FREQ_MAX
    ensures Bounded(o, v.(commands := v.commands + [AdjFreq(Wrap32(v.base - adj), v.base, FullSpeed)]))
  {
    hide Deviation;
    DeviationIs(v.base, adj);
    OneMoreRate(o, v.base, v.drift, v.lastAdjust, v.commands, v.drift, v.lastAdjust,
                AdjFreq(Wrap32(v.base - adj), v.base, FullSpeed));
  }

  lemma ClockIsBounded(o: Options, v: State, r: SyncReadings)
    requires Bounded(o, v)
    ensures Bounded(o, UpdateClock(o, v, r))
  {
    if v.offset.seconds == 0 {
      SlewIsBounded(o, v);
    } else if !o.noAdjust {
      if !o.noResetClock {
        ClockStepIsBounded(o, v, r);
      } else {
        FullSpeedIsBounded(o, v, if v.offset.nanoseconds > 0 then ADJ_FREQ_MAX else -ADJ_FREQ_MAX);
      }
    }
  }

  lemma StepIsBounded(o: Options, v: State, op: Operation)
    requires ValidOptions(o) && Bounded(o, v)
    ensures Bounded(o, Step(o, v, op))
  {
    match op
    case Init =>
      InitIsBounded(o, v);
    case Delay(send, recv, correction) =>
      HalfOfSum(v.masterToSlave, Difference(Difference(recv, send), correction));
      DelayIsBounded(o, v.(slaveToMaster := Difference(Difference(recv, send), correction)),
                     DelayMeasured(v, send, recv, correction));
    case PathDelay(p) =>
      var rest := Difference(Difference(Difference(p.t4, p.t1), Difference(p.t3, p.t2)), p.respCorrection);
      HalfOfDifference(rest, p.followupCorrection);
      DelayIsBounded(o, v.(slaveToMaster := PathDelayMeasured(p), t1Delta := ZeroTime, t2Delta := ZeroTime),
                     PathDelayMeasured(p));
    case Offset(send, recv, c1, c2) =>
      OffsetIsBounded(o, v, send, recv, c1, c2);
    case Clock(readings) =>
      ClockIsBounded(o, v, readings);
  }

  function Run(o: Options, v: State, ops: seq<Operation>): (r: State)
    requires ValidOptions(o) && Bounded(o, v)
    ensures Bounded(o, r)
    decreases |ops|
  {
    if ops == [] then v
    else
      StepIsBounded(o, v, ops[0]);
      Run(o, Step(o, v, ops[0]), ops[1..])
  }

  // ----- the rates of one correction -----

  /** A rate given while the clock is corrected: within a hundredth of the limit around the base, unless
      the clock has to be brought in at full speed. */
  ghost predicate NewRateOk(o: Options, v: State, c: Command, full: bool) {
    c.AdjFreq? ==>
      && c.base == v.base
      && (if full then Deviation(c.rate, v.base) == ADJ_FREQ_MAX && c.branch == FullSpeed
          else Deviation(c.rate, v.base) <= ADJ_FREQ_MAX / 100 && (c.branch == Reset || c.branch == Controlled))
  }

  /** The offset has seconds, and the clock may be adjusted but not reset. */
  predicate AtFullSpeed(o: Options, v: State) {
    !o.noAdjust && o.noResetClock && v.offset.seconds != 0
  }

  /** What a correction says of the rates it adds. */
  ghost predicate Corrects(o: Options, v: State, w: State, full: bool) {
    && |v.commands| <= |w.commands| && w.commands[..|v.commands|] == v.commands
    && (forall k :: |v.commands| <= k < |w.commands| ==> NewRateOk(o, v, w.commands[k], full))
    && (full ==> |w.commands| == |v.commands| + 1 && w.commands[|v.commands|].AdjFreq?)
    && (o.noAdjust ==> w.commands == v.commands)
  }

  lemma RatesOfSlew(o: Options, v: State)
    ensures Corrects(o, v, SlewClock(o, v), false)
  {
    hide Deviation, NextDrift, Clamp;
    SmallAdjustment(Adjustment(o, v));
    DeviationIs(v.base, DivC(Adjustment(o, v), 100));
  }

  lemma RatesOfStep(o: Options, v: State, r: SyncReadings)
    requires !o.noAdjust
    ensures Corrects(o, v, StepClock(v, r), false)
  {
    hide Deviation, StepTarget, Difference, StepAdjustment;
    SmallAdjustment(StepAdjustment(v, r));
    DeviationIs(v.base, DivC(StepAdjustment(v, r), 100));
  }

  /** Correcting the clock adds to the commands. Its rates are off by exactly the adjustment limit if the
      offset has seconds, the clock may not be reset and adjusting is on, and else at most by a
      hundredth of it; without adjusting there are none. */
  lemma RatesOfCorrection(o: Options, v: State, r: SyncReadings)
    ensures Corrects(o, v, UpdateClock(o, v, r), AtFullSpeed(o, v))
  {
    hide Deviation, SlewClock, StepClock;
    RatesOfSlew(o, v);
    if !o.noAdjust { RatesOfStep(o, v, r); }
    DeviationIs(v.base, ADJ_FREQ_MAX);
    DeviationIs(v.base, -ADJ_FREQ_MAX);
  }

  /** A correction gives a rate off by the whole limit exactly in that case. */
  lemma FullSpeedExactly(o: Options, v: State, r: SyncReadings)
    ensures var w := UpdateClock(o, v, r);
            AtFullSpeed(o, v) <==>
            exists k :: |v.commands| <= k < |w.commands| && w.commands[k].AdjFreq?
                        && Deviation(w.commands[k].rate, v.base) == ADJ_FREQ_MAX
  {
    hide Deviation, UpdateClock, AtFullSpeed;
    RatesOfCorrection(o, v, r);
    var w := UpdateClock(o, v, r);
    if AtFullSpeed(o, v) {
      assert NewRateOk(o, v, w.commands[|v.commands|], true);
    } else {
      assert forall k :: |v.commands| <= k < |w.commands| ==> NewRateOk(o, v, w.commands[k], false);
    }
  }

  /** It happens, in either direction: a second ahead or behind, on a clock that may not be reset. */
  lemma FullSpeedHappens(v: State, r: SyncReadings, ahead: bool)
    requires v.offset == (if ahead then TimeInternal(1, 1) else TimeInternal(-1, -1))
    ensures var o := Options(0, 0, 0, false, true, false, 0);
            var adj := if ahead then ADJ_FREQ_MAX else -ADJ_FREQ_MAX;
            UpdateClock(o, v, r).commands == v.commands + [AdjFreq(Wrap32(v.base - adj), v.base, FullSpeed)]
            && Deviation(Wrap32(v.base - adj), v.base) == ADJ_FREQ_MAX
  {
    DeviationIs(v.base, ADJ_FREQ_MAX);
    DeviationIs(v.base, -ADJ_FREQ_MAX);
  }

  /** Every run from a cleared servo whose clock has been initialized, with any samples whatever: no
      32-bit product overflows, filters and drift stay within their limits, and every rate given to
      the operating system lies where its branch says. */
  lemma EveryRunIsBounded(o: Options, ops: seq<Operation>)
    requires ValidOptions(o)
    ensures var start := InitClock(o, Servo.Initial);
            && Bounded(o, start)
            && var end := Run(o, start, ops);
               Bounded(o, end) && Abs((NextWeight(o, end.owd) - 1) * end.owd.y) < 0x8000_0000
  {
    hide RatesBounded, TimesBounded, InitClock, NextWeight;
    StartIsBounded(o);
    var end := Run(o, InitClock(o, Servo.Initial), ops);
    FiltersInBounds(o, end);
    NextProductFits(o, end.owd);
  }

  lemma FiltersInBounds(o: Options, v: State)
    requires Bounded(o, v)
    ensures FilterOk(v.owd)
  {
  }

  lemma StartIsBounded(o: Options)
    requires ValidOptions(o)
    ensures Bounded(o, InitClock(o, Servo.Initial))
  {
    var start := InitClock(o, Servo.Initial);
    if !o.noAdjust {
      assert Deviation(o.baseAdjustValue, o.baseAdjustValue) == 0;
      WrapInRange(o.baseAdjustValue);
      assert RatesBounded(o, start.base, 0, 0, []);
      OneMoreRate(o, start.base, 0, 0, [], 0, 0, AdjFreq(start.base, start.base, Restored));
    }
  }

  // ----- what a symmetric link measures -----

  /** The four times of one Sync and one delay request, and how far the slave's clock was ahead. */
  datatype Exchange = Exchange(t1: TimeInternal, t2: TimeInternal, t3: TimeInternal, t4: TimeInternal, offset: int)

  /** Totals whose seconds stay within 32 bits, carry included. */
  predicate Fits(total: int) {
    Abs(total) < INT_MAX * NSEC
  }

  predicate Apart(sent: TimeInternal, received: TimeInternal, total: int) {
    Canonical(sent) && Canonical(received) && Nanos(received) - Nanos(sent) == total && Fits(total)
  }

  /** The link takes d nanoseconds each way. */
  predicate Symmetric(e: Exchange, d: int) {
    Apart(e.t1, e.t2, d + e.offset) && Apart(e.t3, e.t4, d - e.offset)
  }

  function AfterSync(v: State, e: Exchange): State
    requires Abs(v.ofm.nsecPrev) < NSEC
  {
    UpdateOffset(v, e.t1, e.t2, ZeroTime, ZeroTime)
  }

  function AfterExchange(o: Options, v: State, e: Exchange): State
    requires ValidOptions(o) && FilterOk(v.owd) && Abs(v.ofm.nsecPrev) < NSEC
  {
    UpdateDelay(o, AfterSync(v, e), e.t3, e.t4, ZeroTime)
  }

  predicate Exactly(t: TimeInternal, total: int) {
    Canonical(t) && Nanos(t) == total
  }

  lemma DifferenceFits(x: TimeInternal, y: TimeInternal)
    requires Canonical(x) && Canonical(y) && Fits(Nanos(x) - Nanos(y))
    ensures Exactly(Difference(x, y), Nanos(x) - Nanos(y))
  {
    DifferenceIsExact(x, y);
  }

  lemma SumFits(x: TimeInternal, y: TimeInternal)
    requires Canonical(x) && Canonical(y) && Fits(Nanos(x) + Nanos(y))
    ensures Exactly(Sum(x, y), Nanos(x) + Nanos(y))
  {
    SumIsExact(x, y);
  }

  lemma MinusZero(t: TimeInternal)
    requires Canonical(t)
    ensures Difference(t, ZeroTime) == t
  {
    WrapInRange(t.seconds);
    WrapInRange(t.nanoseconds);
  }

  /** The receive time less the send time is exact, and no correction changes nothing. */
  lemma TransitIsExact(sent: TimeInternal, received: TimeInternal, total: int)
    requires Apart(sent, received, total)
    ensures Exactly(Difference(received, sent), total)
    ensures Difference(Difference(received, sent), ZeroTime) == Difference(received, sent)
  {
    DifferenceFits(received, sent);
    MinusZero(Difference(received, sent));
  }

  /** The unfiltered offset is exactly the true offset plus the part of the delay not yet known. */
  lemma SyncMeasuresOffset(v: State, e: Exchange, d: int)
    requires Symmetric(e, d) && Canonical(v.oneWayDelay) && Fits(d + e.offset - Nanos(v.oneWayDelay))
    ensures Exactly(OffsetMeasured(v, e.t1, e.t2, ZeroTime, ZeroTime), d + e.offset - Nanos(v.oneWayDelay))
  {
    TransitIsExact(e.t1, e.t2, d + e.offset);
    DifferenceFits(Difference(e.t2, e.t1), v.oneWayDelay);
  }

  lemma HalfOfRoundTrip(m2s: TimeInternal, s2m: TimeInternal, d: int, offset: int)
    requires Exactly(m2s, d + offset) && Exactly(s2m, d - offset) && Fits(2 * d)
    ensures Exactly(Half(Sum(m2s, s2m)), d)
  {
    SumFits(m2s, s2m);
    HalfIsExact(Sum(m2s, s2m));
  }

  lemma OnlyNanoseconds(t: TimeInternal, d: int)
    requires Exactly(t, d) && Abs(d) < NSEC
    ensures t == TimeInternal(0, d)
  {
  }

  /** The unfiltered one-way delay is exactly the delay of the link, of a second or more as well as less,
      whatever the offset. */
  lemma ExchangeMeasuresDelay(v: State, e: Exchange, d: int)
    requires Symmetric(e, d) && Fits(2 * d) && Abs(v.ofm.nsecPrev) < NSEC
    ensures Exactly(DelayMeasured(AfterSync(v, e), e.t3, e.t4, ZeroTime), d)
  {
    TransitIsExact(e.t1, e.t2, d + e.offset);
    TransitIsExact(e.t3, e.t4, d - e.offset);
    HalfOfRoundTrip(Difference(e.t2, e.t1), Difference(e.t4, e.t3), d, e.offset);
  }

  /** What becomes of it: a delay of a second or more is taken as it is and clears the filter, a smaller
      one goes through the filter. */
  lemma ExchangeUpdatesDelay(o: Options, v: State, e: Exchange, d: int)
    requires ValidOptions(o) && FiltersOk(v) && Symmetric(e, d) && Fits(2 * d)
    ensures var w := AfterExchange(o, v, e);
            if Abs(d) >= NSEC then Exactly(w.oneWayDelay, d) && w.owd == v.owd.(sExp := 0, nsecPrev := 0)
            else var f := FilterDelay(o.s, v.owd, d); w.owd == f && w.oneWayDelay == TimeInternal(0, f.y)
  {
    hide FilterDelay;
    ExchangeMeasuresDelay(v, e, d);
    var measured := DelayMeasured(AfterSync(v, e), e.t3, e.t4, ZeroTime);
    if Abs(d) < NSEC { OnlyNanoseconds(measured, d); }
  }

  ghost predicate AllSymmetric(es: seq<Exchange>, d: int) {
    forall k :: 0 <= k < |es| ==> Symmetric(es[k], d)
  }

  predicate FiltersOk(v: State) {
    FilterOk(v.owd) && Abs(v.ofm.nsecPrev) < NSEC
  }

  lemma ExchangeKeepsFilters(o: Options, v: State, e: Exchange)
    requires ValidOptions(o) && FiltersOk(v)
    ensures FiltersOk(AfterExchange(o, v, e))
  {
    DifferenceIsCanonical(Difference(Difference(Difference(e.t2, e.t1), ZeroTime), ZeroTime), v.oneWayDelay);
  }

  function AfterExchanges(o: Options, v: State, es: seq<Exchange>): (r: State)
    requires ValidOptions(o) && FiltersOk(v)
    ensures FiltersOk(r)
    decreases |es|
  {
    if es == [] then v
    else
      ExchangeKeepsFilters(o, v, es[0]);
      AfterExchanges(o, AfterExchange(o, v, es[0]), es[1..])
  }

  lemma TailSymmetric(es: seq<Exchange>, d: int)
    requires AllSymmetric(es, d) && es != []
    ensures Symmetric(es[0], d) && AllSymmetric(es[1..], d)
  {
    forall k | 0 <= k < |es[1..]| ensures Symmetric(es[1..][k], d) {
      assert es[1..][k] == es[k + 1];
    }
  }

  /** Every exchange feeds the filter with the same sample. */
  lemma {:induction false} ExchangesSettle(o: Options, v: State, es: seq<Exchange>, d: int)
    requires ValidOptions(o) && FiltersOk(v) && Abs(d) < NSEC && AllSymmetric(es, d)
    ensures var end, f := AfterExchanges(o, v, es), Settle(o.s, v.owd, d, |es|);
            end.owd == f && (es != [] ==> end.oneWayDelay == TimeInternal(0, f.y))
    decreases |es|
  {
    hide FilterDelay, AfterExchange, Symmetric;
    if es != [] {
      TailSymmetric(es, d);
      ExchangeUpdatesDelay(o, v, es[0], d);
      ExchangeKeepsFilters(o, v, es[0]);
      ExchangesSettle(o, AfterExchange(o, v, es[0]), es[1..], d);
    }
  }

  /** The delay in use after the exchanges, up to the slack. */
  lemma DelayIsFound(o: Options, v: State, es: seq<Exchange>, d: int)
    requires ValidOptions(o) && FiltersOk(v) && Abs(d) < NSEC && AllSymmetric(es, d)
    requires Enough(o.s, Abs(d - FilterDelay(o.s, v.owd, d).y), |es|)
    ensures var y := Settle(o.s, v.owd, d, |es|).y;
            AfterExchanges(o, v, es).oneWayDelay == TimeInternal(0, y) && Abs(d - y) <= Slack(o.s) && Abs(y) < NSEC
  {
    hide FilterDelay;
    ExchangesSettle(o, v, es, d);
    DelayFilterSettles(o.s, v.owd, d, |es|);
  }

  /** A symmetric link of delay d, from any state of the servo: after enough exchanges, whatever the
      offsets were, the unfiltered offset of the next Sync is the true one up to 2 * 2^s - 1 ns. */
  lemma OffsetIsFound(o: Options, v: State, es: seq<Exchange>, d: int, next: Exchange)
    requires ValidOptions(o) && FiltersOk(v) && Abs(d) < NSEC && AllSymmetric(es, d)
    requires Enough(o.s, Abs(d - FilterDelay(o.s, v.owd, d).y), |es|)
    requires Symmetric(next, d) && Fits(Abs(next.offset) + 2 * NSEC)
    ensures var measured := OffsetMeasured(AfterExchanges(o, v, es), next.t1, next.t2, ZeroTime, ZeroTime);
            Abs(Nanos(measured) - next.offset) <= Slack(o.s)
  {
    hide FilterDelay, OffsetMeasured, Settle, Slack, Nanos, Symmetric, AllSymmetric, AfterExchanges, Power;
    DelayIsFound(o, v, es, d);
    KnownDelayMeasuresOffset(AfterExchanges(o, v, es), next, d, Settle(o.s, v.owd, d, |es|).y);
  }

  /** The filtered offset of two Syncs in a row, of less than a second each: the mean of the true offsets up
      to the slack and a nanosecond; but a first offset measured as -1 ns counts as missing, and then it
      is the second one alone. */
  lemma FilteredOffsetIsFound(o: Options, v: State, es: seq<Exchange>, d: int, e1: Exchange, e2: Exchange)
    requires ValidOptions(o) && FiltersOk(v) && Abs(d) < NSEC && AllSymmetric(es, d)
    requires Enough(o.s, Abs(d - FilterDelay(o.s, v.owd, d).y), |es|)
    requires Symmetric(e1, d) && Symmetric(e2, d)
    requires Abs(e1.offset) + Slack(o.s) < NSEC && Abs(e2.offset) + Slack(o.s) < NSEC
    ensures FiltersOk(AfterSync(AfterExchanges(o, v, es), e1))
    ensures var w1 := AfterSync(AfterExchanges(o, v, es), e1);
            var w2 := AfterSync(w1, e2);
            && w2.offset.seconds == 0 && Abs(w1.ofm.nsecPrev - e1.offset) <= Slack(o.s)
            && (if w1.ofm.nsecPrev != -1
                then Abs(2 * w2.offset.nanoseconds - (e1.offset + e2.offset)) <= 2 * Slack(o.s) + 2
                else Abs(w2.offset.nanoseconds - e2.offset) <= Slack(o.s))
  {
    hide FilterDelay, Slack, Difference, AfterExchanges, AfterSync, Enough, Nanos, OffsetMeasured, DivC, Settle, Symmetric, AllSymmetric;
    var u := AfterExchanges(o, v, es);
    OffsetIsFound(o, v, es, d, e1);
    OffsetIsFound(o, v, es, d, e2);
    DelayIsFound(o, v, es, d);
    SmallOffset(u, e1);
    var w1 := AfterSync(u, e1);
    SameDelaySameOffset(u, w1, e2);
    SmallOffset(w1, e2);
    MeanOf(Nanos(OffsetMeasured(u, e1.t1, e1.t2, ZeroTime, ZeroTime)), e1.offset,
           Nanos(OffsetMeasured(u, e2.t1, e2.t2, ZeroTime, ZeroTime)), e2.offset, Slack(o.s));
  }

  lemma SameDelaySameOffset(v: State, w: State, e: Exchange)
    requires v.oneWayDelay == w.oneWayDelay
    ensures OffsetMeasured(v, e.t1, e.t2, ZeroTime, ZeroTime) == OffsetMeasured(w, e.t1, e.t2, ZeroTime, ZeroTime)
  {
  }

  lemma MeanOf(m: int, a: int, n: int, b: int, slack: nat)
    requires Abs(m - a) <= slack && Abs(n - b) <= slack
    ensures Abs(2 * (DivC(n, 2) + DivC(m, 2)) - (a + b)) <= 2 * slack + 2
  {
  }

  /** What a measured offset of less than a second becomes. */
  lemma SmallOffset(v: State, e: Exchange)
    requires Abs(v.ofm.nsecPrev) < NSEC && Abs(Nanos(OffsetMeasured(v, e.t1, e.t2, ZeroTime, ZeroTime))) < NSEC
    ensures var n, w := Nanos(OffsetMeasured(v, e.t1, e.t2, ZeroTime, ZeroTime)), AfterSync(v, e);
            && w.oneWayDelay == v.oneWayDelay && w.owd == v.owd && w.ofm.nsecPrev == n
            && w.offset == TimeInternal(0, if v.ofm.nsecPrev != -1 then DivC(n, 2) + DivC(v.ofm.nsecPrev, 2) else n)
  {
    hide Difference;
    var measured := OffsetMeasured(v, e.t1, e.t2, ZeroTime, ZeroTime);
    DifferenceIsCanonical(Difference(Difference(Difference(e.t2, e.t1), ZeroTime), ZeroTime), v.oneWayDelay);
    OnlyNanoseconds(measured, Nanos(measured));
  }

  lemma KnownDelayMeasuresOffset(v: State, e: Exchange, d: int, y: int)
    requires Symmetric(e, d) && Abs(d) < NSEC && Fits(Abs(e.offset) + 2 * NSEC)
    requires Abs(y) < NSEC && v.oneWayDelay == TimeInternal(0, y)
    ensures Nanos(OffsetMeasured(v, e.t1, e.t2, ZeroTime, ZeroTime)) == d + e.offset - y
  {
    SyncMeasuresOffset(v, e, d);
  }
}
