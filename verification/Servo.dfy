/** The clock servo of src/dep/servo.c as functions on its state. */
module Servo {
  import opened Arith
  import Products

  const ADJ_FREQ_MAX := 512000

  datatype Options = Options(s: nat, ap: int, ai: int, noAdjust: bool, noResetClock: bool,
                             rememberAdjustValue: bool, baseAdjustValue: Integer32)

  datatype DelayFilter = DelayFilter(nsecPrev: int, y: int, sExp: int)

  /** nsecPrev == -1 marks a missing previous sample. */
  datatype OffsetFilter = OffsetFilter(nsecPrev: int, y: int)

  /** Where a rate comes from: initClock, the clock reset, the PI controller, or full speed. */
  datatype Branch = Restored | Reset | Controlled | FullSpeed

  /** What the operating system is told. A rate is noted with the base it was computed from. */
  datatype Command = SetTime(t: TimeInternal) | AdjFreq(rate: Integer32, base: Integer32, branch: Branch)

  datatype State = State(masterToSlave: TimeInternal, slaveToMaster: TimeInternal, oneWayDelay: TimeInternal,
                         offset: TimeInternal, owd: DelayFilter, ofm: OffsetFilter, drift: int,
                         base: Integer32, lastAdjust: int, t1Delta: TimeInternal, t2Delta: TimeInternal,
                         commands: seq<Command>)

  /** Times of one Sync and what the clock said while it was handled; estimate is what a division by zero
      gives for the frequency. */
  datatype SyncReadings = SyncReadings(t1: TimeInternal, t2: TimeInternal, estimate: int,
                                       timeA: TimeInternal, timeB: TimeInternal, timeD: TimeInternal)

  datatype PathTimes = PathTimes(t1: TimeInternal, t2: TimeInternal, t3: TimeInternal, t4: TimeInternal,
                                 respCorrection: TimeInternal, followupCorrection: TimeInternal)

  predicate ValidOptions(o: Options) {
    o.s <= 30
  }

  const Initial := State(ZeroTime, ZeroTime, ZeroTime, ZeroTime, DelayFilter(0, 0, 0), OffsetFilter(0, 0), 0,
                         0, 0, ZeroTime, ZeroTime, [])

  // ----- the one-way delay filter -----

  function Pow2(n: nat): (p: int)
    ensures p >= 1
  {
    if n == 0 then 1 else 2 * Pow2(n - 1)
  }

  lemma {:induction false} Pow2Adds(m: nat, n: nat)
    ensures Pow2(m) * Pow2(n) == Pow2(m + n)
  {
    if m > 0 {
      Pow2Adds(m - 1, n);
      Products.Distributes(Pow2(n), Pow2(m - 1), Pow2(m - 1));
    }
  }

  lemma {:induction false} Pow2Grows(m: nat, n: nat)
    requires m <= n
    ensures Pow2(m) <= Pow2(n)
  {
    if m < n { Pow2Grows(m, n - 1); }
  }

  lemma Pow2Of31()
    ensures Pow2(31) == 0x8000_0000
  {
    Pow2Adds(16, 15);
    assert Pow2(8) == 256 && Pow2(7) == 128;
    Pow2Adds(8, 8);
    Pow2Adds(8, 7);
  }

  /** The stiffness at which products with y stay within 32 bits. */
  function ReducedS(s: nat, y: int): (r: nat)
    requires s <= 30 && Abs(y) < 0x8000_0000
    ensures r <= s && Abs(y) < Pow2(31 - r)
    decreases s
  {
    Products.QuotientIsZero(Abs(y), Pow2(31 - s));
    if Abs(y) / Pow2(31 - s) != 0 then
      Pow2Of31();
      ReducedS(s - 1, y)
    else
      s
  }

  function NextExponent(sExp: int, limit: int): (k: int)
    requires limit >= 1
    ensures 1 <= k <= limit
  {
    if sExp < 1 then 1
    else if sExp < limit then sExp + 1
    else limit
  }

  /** One step of the filter with weight k, current sample x and previous sample p. */
  function Blend(k: int, y: int, x: int, p: int): int
    requires k >= 1
  {
    DivC(Wrap32((k - 1) * y), k) + DivC(DivC(x, 2) + DivC(p, 2), k)
  }

  predicate FilterOk(f: DelayFilter) {
    Abs(f.y) < NSEC && Abs(f.nsecPrev) < NSEC
  }

  lemma ProductFits(s: nat, k: int, y: int)
    requires s <= 31 && 1 <= k <= Pow2(s) && Abs(y) < Pow2(31 - s)
    ensures Abs((k - 1) * y) < 0x8000_0000
    ensures Wrap32((k - 1) * y) == (k - 1) * y
  {
    Pow2Adds(s, 31 - s);
    Pow2Of31();
    Products.Less(k - 1, Abs(y), Pow2(s), Pow2(31 - s));
    Products.AbsOf(k - 1, y);
    WrapInRange((k - 1) * y);
  }

  lemma QuotientsBound(k: nat, a: nat, b: nat, q: nat, r: nat, n: nat)
    requires k >= 1 && a <= (k - 1) * n && b <= n && k * q <= a && k * r <= b
    ensures q + r <= n
  {
    Products.Distributes(k, q, r);
    Products.Distributes(n, k, 1);
    Products.Cancels(k, q + r, n);
  }

  lemma BlendBound(k: nat, y: int, x: int, p: int)
    requires k >= 1 && Abs(y) < NSEC && Abs(x) < NSEC && Abs(p) < NSEC
    requires Wrap32((k - 1) * y) == (k - 1) * y
    ensures Abs(Blend(k, y, x, p)) < NSEC
  {
    var a, b := (k - 1) * y, DivC(x, 2) + DivC(p, 2);
    Products.Truncates(a, k);
    Products.Truncates(b, k);
    ProductAtMost(k - 1, y, NSEC - 1);
    QuotientsBound(k, Abs(a), Abs(b), Abs(DivC(a, k)), Abs(DivC(b, k)), NSEC - 1);
  }

  lemma ProductAtMost(k: nat, y: int, n: nat)
    requires Abs(y) <= n
    ensures Abs(k * y) <= k * n
  {
    Products.AbsOf(k, y);
    Products.Grows(k, Abs(y), n);
  }

  function FilterDelay(s: nat, f: DelayFilter, x: int): (r: DelayFilter)
    requires s <= 30 && FilterOk(f) && Abs(x) < NSEC
    ensures FilterOk(r)
  {
    var reduced := ReducedS(s, f.y);
    var k := NextExponent(f.sExp, Pow2(reduced));
    ProductFits(reduced, k, f.y);
    BlendBound(k, f.y, x, f.nsecPrev);
    DelayFilter(x, Blend(k, f.y, x, f.nsecPrev), k)
  }

  // ----- the servo routines -----

  /** A delay of a second or more resets the filter; a smaller one is filtered. */
  function WithDelay(o: Options, v: State, delay: TimeInternal): State
    requires ValidOptions(o) && FilterOk(v.owd) && Canonical(delay)
  {
    if delay.seconds != 0 then
      v.(oneWayDelay := delay, owd := v.owd.(sExp := 0, nsecPrev := 0))
    else
      var f := FilterDelay(o.s, v.owd, delay.nanoseconds);
      v.(oneWayDelay := TimeInternal(0, f.y), owd := f)
  }

  function DelayMeasured(v: State, send: TimeInternal, recv: TimeInternal, correction: TimeInternal): TimeInternal {
    Half(Sum(v.masterToSlave, Difference(Difference(recv, send), correction)))
  }

  function UpdateDelay(o: Options, v: State, send: TimeInternal, recv: TimeInternal, correction: TimeInternal): State
    requires ValidOptions(o) && FilterOk(v.owd)
  {
    HalfOfSum(v.masterToSlave, Difference(Difference(recv, send), correction));
    WithDelay(o, v.(slaveToMaster := Difference(Difference(recv, send), correction)),
              DelayMeasured(v, send, recv, correction))
  }

  function PathDelayMeasured(p: PathTimes): TimeInternal {
    Half(Difference(Difference(Difference(Difference(p.t4, p.t1), Difference(p.t3, p.t2)),
                               p.respCorrection), p.followupCorrection))
  }

  function UpdatePathDelay(o: Options, v: State, p: PathTimes): State
    requires ValidOptions(o) && FilterOk(v.owd)
  {
    HalfOfDifference(Difference(Difference(Difference(p.t4, p.t1), Difference(p.t3, p.t2)), p.respCorrection),
                     p.followupCorrection);
    var delay := PathDelayMeasured(p);
    WithDelay(o, v.(slaveToMaster := delay, t1Delta := ZeroTime, t2Delta := ZeroTime), delay)
  }

  function OffsetMeasured(v: State, send: TimeInternal, recv: TimeInternal,
                          syncCorrection: TimeInternal, followupCorrection: TimeInternal): TimeInternal {
    Difference(Difference(Difference(Difference(recv, send), syncCorrection), followupCorrection), v.oneWayDelay)
  }

  function UpdateOffset(v: State, send: TimeInternal, recv: TimeInternal,
                        syncCorrection: TimeInternal, followupCorrection: TimeInternal): State
    requires Abs(v.ofm.nsecPrev) < NSEC
  {
    var m2s := Difference(Difference(Difference(recv, send), syncCorrection), followupCorrection);
    var offset := Difference(m2s, v.oneWayDelay);
    DifferenceIsCanonical(m2s, v.oneWayDelay);
    var n := offset.nanoseconds;
    var next := v.(masterToSlave := m2s, offset := offset);
    if offset.seconds != 0 then
      next.(ofm := v.ofm.(nsecPrev := -1))
    else if v.ofm.nsecPrev != -1 then
      var y := DivC(n, 2) + DivC(v.ofm.nsecPrev, 2);
      next.(ofm := OffsetFilter(n, y), offset := TimeInternal(0, y))
    else
      next.(ofm := OffsetFilter(n, n))
  }

  function InitClockVars(v: State): State {
    v.(masterToSlave := ZeroTime, slaveToMaster := ZeroTime, offset := ZeroTime,
       ofm := OffsetFilter(-1, 0), drift := 0, owd := v.owd.(sExp := 0))
  }

  function InitClock(o: Options, v: State): State {
    var next := InitClockVars(v);
    if o.noAdjust then next
    else
      var base := if o.rememberAdjustValue then Wrap32(o.baseAdjustValue + v.lastAdjust) else o.baseAdjustValue;
      next.(base := base, commands := v.commands + [AdjFreq(base, base, Restored)])
  }

  function Clamp(x: int): (r: int)
    ensures -ADJ_FREQ_MAX <= r <= ADJ_FREQ_MAX
    ensures -ADJ_FREQ_MAX <= x <= ADJ_FREQ_MAX ==> r == x
  {
    if x > ADJ_FREQ_MAX then ADJ_FREQ_MAX else if x < -ADJ_FREQ_MAX then -ADJ_FREQ_MAX else x
  }

  function AtLeastOne(x: int): (r: int)
    ensures r >= 1
  {
    if x < 1 then 1 else x
  }

  /** The time the clock is set to: the time now, less the offset, plus the cost of reading it. */
  function StepTarget(v: State, r: SyncReadings): TimeInternal {
    Sum(Difference(r.timeD, v.offset), Difference(r.timeB, r.timeA))
  }

  function Wrap64(x: int): int {
    (x + 0x8000_0000_0000_0000) % 0x1_0000_0000_0000_0000 - 0x8000_0000_0000_0000
  }

  /** How much longer the interval was by the own clock, in parts per billion of the master's interval, with the
      product cut to 64 bits. */
  function FrequencyEstimate(interval: TimeInternal, excess: TimeInternal, undefined: int): int {
    var a, b := Wrap64(Nanos(excess) * 1_000_000_000), Nanos(interval);
    if b > 0 then DivC(a, b) else if b < 0 then -DivC(a, -b) else undefined
  }

  /** The adjustment of a clock reset: the estimate by the times kept of the Sync before, clamped. */
  function StepAdjustment(v: State, r: SyncReadings): (adj: int)
    ensures -ADJ_FREQ_MAX <= adj <= ADJ_FREQ_MAX
  {
    var interval := Difference(r.t1, v.t1Delta);
    Clamp(FrequencyEstimate(interval, Difference(Difference(r.t2, v.t2Delta), interval), r.estimate))
  }

  function StepClock(v: State, r: SyncReadings): State {
    if v.t1Delta == ZeroTime then
      v.(t1Delta := r.t1, t2Delta := r.t2)
    else
      var t1Delta := Difference(r.t1, v.t1Delta);
      var t2Delta := Difference(Difference(r.t2, v.t2Delta), t1Delta);
      var adj := StepAdjustment(v, r);
      InitClockVars(v).(t1Delta := t1Delta, t2Delta := t2Delta, drift := adj,
        commands := v.commands + [SetTime(StepTarget(v, r))] + [AdjFreq(Wrap32(v.base - DivC(adj, 100)), v.base, Reset)])
  }

  /** The integral term, clamped. */
  function NextDrift(o: Options, v: State): int {
    Clamp(v.drift + DivC(v.offset.nanoseconds, AtLeastOne(o.ai)))
  }

  /** Proportional and integral term together, clamped. */
  function Adjustment(o: Options, v: State): int {
    Clamp(DivC(v.offset.nanoseconds, AtLeastOne(o.ap)) + NextDrift(o, v))
  }

  function SlewClock(o: Options, v: State): State {
    var next := v.(drift := NextDrift(o, v));
    if o.noAdjust then next
    else
      var adj := Adjustment(o, v);
      next.(commands := v.commands + [AdjFreq(Wrap32(v.base - DivC(adj, 100)), v.base, Controlled)],
            lastAdjust := if o.rememberAdjustValue && -100 <= v.offset.nanoseconds <= 100 then -adj else v.lastAdjust)
  }

  function UpdateClock(o: Options, v: State, r: SyncReadings): State {
    if v.offset.seconds == 0 then SlewClock(o, v)
    else if o.noAdjust then v
    else if !o.noResetClock then StepClock(v, r)
    else
      var adj := if v.offset.nanoseconds > 0 then ADJ_FREQ_MAX else -ADJ_FREQ_MAX;
      v.(commands := v.commands + [AdjFreq(Wrap32(v.base - adj), v.base, FullSpeed)])
  }

  lemma DifferenceIsCanonical(x: TimeInternal, y: TimeInternal)
    ensures Canonical(Difference(x, y))
  {
    NormalizedIsCanonical(Wrap32(x.seconds - y.seconds), Wrap32(x.nanoseconds - y.nanoseconds));
  }

  lemma HalfOfSum(x: TimeInternal, y: TimeInternal)
    ensures Canonical(Half(Sum(x, y)))
  {
    NormalizedIsCanonical(Wrap32(x.seconds + y.seconds), Wrap32(x.nanoseconds + y.nanoseconds));
    HalfIsExact(Sum(x, y));
  }

  lemma HalfOfDifference(x: TimeInternal, y: TimeInternal)
    ensures Canonical(Half(Difference(x, y)))
  {
    DifferenceIsCanonical(x, y);
    HalfIsExact(Difference(x, y));
  }
}
