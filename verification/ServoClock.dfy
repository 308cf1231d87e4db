/** The servo routines of src/dep/servo.c, updating the fields of the clock one after another. */
module ServoClock {
  import opened Arith
  import opened Servo

  method Limit(x: int) returns (r: int)
    ensures r == Clamp(x)
  {
    r := x;
    if r > ADJ_FREQ_MAX {
      r := ADJ_FREQ_MAX;
    } else if r < -ADJ_FREQ_MAX {
      r := -ADJ_FREQ_MAX;
    }
  }

  /** Crank down the filter cutoff by increasing the exponent. */
  method Crank(sExp: int, limit: int) returns (k: int)
    requires limit >= 1
    ensures k == NextExponent(sExp, limit)
  {
    k := sExp;
    if k < 1 {
      k := 1;
    } else if k < limit {
      k := k + 1;
    } else if k > limit {
      k := limit;
    }
  }

  method Weigh(k: int, y: int, x: int, p: int) returns (r: int)
    requires k >= 1
    ensures r == Blend(k, y, x, p)
  {
    r := DivC(Wrap32((k - 1) * y), k) + DivC(DivC(x, 2) + DivC(p, 2), k);
  }

  class Clock {
    const o: Options
    var masterToSlave: TimeInternal
    var slaveToMaster: TimeInternal
    var oneWayDelay: TimeInternal
    var offset: TimeInternal
    var owd: DelayFilter
    var ofm: OffsetFilter
    var drift: int
    var base: Integer32
    var lastAdjust: int
    var t1Delta: TimeInternal
    var t2Delta: TimeInternal
    var commands: seq<Command>

    constructor (o: Options)
      ensures View() == Initial && this.o == o
    {
      this.o := o;
      masterToSlave, slaveToMaster, oneWayDelay, offset := ZeroTime, ZeroTime, ZeroTime, ZeroTime;
      owd, ofm := DelayFilter(0, 0, 0), OffsetFilter(0, 0);
      drift, base, lastAdjust := 0, 0, 0;
      t1Delta, t2Delta := ZeroTime, ZeroTime;
      commands := [];
    }

    function View(): State
      reads this
    {
      State(masterToSlave, slaveToMaster, oneWayDelay, offset, owd, ofm, drift, base, lastAdjust,
            t1Delta, t2Delta, commands)
    }

    /** What m1 clears. */
    method ForgetOffset()
      modifies this`offset, this`oneWayDelay
      ensures View() == old(View()).(offset := ZeroTime, oneWayDelay := ZeroTime)
    {
      offset := ZeroTime;
      oneWayDelay := ZeroTime;
    }

    method ClearVars()
      modifies this
      ensures View() == InitClockVars(old(View()))
    {
      masterToSlave := ZeroTime;
      slaveToMaster := ZeroTime;
      offset := ZeroTime;
      ofm := OffsetFilter(-1, 0);
      drift := 0;
      owd := owd.(sExp := 0);
    }

    method Init()
      modifies this
      ensures View() == InitClock(o, old(View()))
    {
      ClearVars();
      if !o.noAdjust {
        base := o.baseAdjustValue;
        if o.rememberAdjustValue {
          base := Wrap32(base + lastAdjust);
        }
        commands := commands + [AdjFreq(base, base, Restored)];
      }
    }

    /** Lower the stiffness until no product with the filtered value can overflow. */
    method ReduceStiffness() returns (s: nat)
      requires ValidOptions(o) && FilterOk(owd)
      ensures s == ReducedS(o.s, owd.y)
    {
      s := o.s;
      while Abs(owd.y) / Pow2(31 - s) != 0
        invariant 0 <= s <= o.s && ReducedS(s, owd.y) == ReducedS(o.s, owd.y)
        decreases s
      {
        assert s > 0 by { Pow2Of31(); }
        s := s - 1;
      }
    }

    /** The part that updateDelay and updatePathDelay share: filter the delay just measured. */
    method FilterOneWayDelay()
      requires ValidOptions(o) && FilterOk(owd) && Canonical(oneWayDelay)
      modifies this`oneWayDelay, this`owd
      ensures View() == WithDelay(o, old(View()), old(oneWayDelay))
    {
      hide Blend, ReducedS, NextExponent;
      if oneWayDelay.seconds != 0 {
        owd := owd.(sExp := 0, nsecPrev := 0);
        return;
      }
      var s := ReduceStiffness();
      var k := Crank(owd.sExp, Pow2(s));
      var y := Weigh(k, owd.y, oneWayDelay.nanoseconds, owd.nsecPrev);
      owd := DelayFilter(oneWayDelay.nanoseconds, y, k);
      assert owd == FilterDelay(o.s, old(owd), oneWayDelay.nanoseconds);
      oneWayDelay := oneWayDelay.(nanoseconds := owd.y);
    }

    method MeasureDelay(send: TimeInternal, recv: TimeInternal, correction: TimeInternal)
      requires ValidOptions(o) && FilterOk(owd)
      modifies this
      ensures View() == UpdateDelay(o, old(View()), send, recv, correction)
    {
      hide Difference, Sum, Half;
      slaveToMaster := Difference(recv, send);
      slaveToMaster := Difference(slaveToMaster, correction);
      oneWayDelay := Sum(masterToSlave, slaveToMaster);
      HalfOfSum(masterToSlave, slaveToMaster);
      oneWayDelay := Half(oneWayDelay);
      FilterOneWayDelay();
    }

    method MeasurePathDelay(p: PathTimes)
      requires ValidOptions(o) && FilterOk(owd)
      modifies this
      ensures View() == UpdatePathDelay(o, old(View()), p)
    {
      hide Difference, Sum, Half;
      oneWayDelay := Difference(p.t4, p.t1);
      var remote := Difference(p.t3, p.t2);
      oneWayDelay := Difference(oneWayDelay, remote);
      oneWayDelay := Difference(oneWayDelay, p.respCorrection);
      HalfOfDifference(oneWayDelay, p.followupCorrection);
      oneWayDelay := Difference(oneWayDelay, p.followupCorrection);
      oneWayDelay := Half(oneWayDelay);
      slaveToMaster := oneWayDelay;
      t1Delta := ZeroTime;
      t2Delta := ZeroTime;
      FilterOneWayDelay();
    }

    method MeasureOffset(send: TimeInternal, recv: TimeInternal, syncCorrection: TimeInternal, followupCorrection: TimeInternal)
      requires Abs(ofm.nsecPrev) < NSEC
      modifies this
      ensures View() == UpdateOffset(old(View()), send, recv, syncCorrection, followupCorrection)
    {
      hide Difference, Sum, Half;
      masterToSlave := Difference(recv, send);
      masterToSlave := Difference(masterToSlave, syncCorrection);
      masterToSlave := Difference(masterToSlave, followupCorrection);
      offset := Difference(masterToSlave, oneWayDelay);
      DifferenceIsCanonical(masterToSlave, oneWayDelay);
      if offset.seconds != 0 {
        ofm := ofm.(nsecPrev := -1);
        return;
      }
      if ofm.nsecPrev != -1 {
        ofm := ofm.(y := DivC(offset.nanoseconds, 2) + DivC(ofm.nsecPrev, 2));
        ofm := ofm.(nsecPrev := offset.nanoseconds);
        offset := offset.(nanoseconds := ofm.y);
      } else {
        ofm := OffsetFilter(offset.nanoseconds, offset.nanoseconds);
      }
    }

    /** The frequency estimate by the intervals that the two time fields now hold. */
    method Estimate(undefined: int) returns (e: int)
      ensures e == FrequencyEstimate(t1Delta, t2Delta, undefined)
    {
      e := Wrap64(Nanos(t2Delta) * 1_000_000_000);
      var interval := Nanos(t1Delta);
      if interval == 0 {
        return undefined;
      }
      e := if interval > 0 then DivC(e, interval) else -DivC(e, -interval);
    }

    method Step(r: SyncReadings)
      modifies this
      ensures View() == StepClock(old(View()), r)
    {
      hide Difference, Sum, Half, FrequencyEstimate;
      if t1Delta == ZeroTime {
        t1Delta := r.t1;
        t2Delta := r.t2;
        return;
      }
      t1Delta := Difference(r.t1, t1Delta);
      t2Delta := Difference(r.t2, t2Delta);
      t2Delta := Difference(t2Delta, t1Delta);
      var estimate := Estimate(r.estimate);
      var adj := Limit(estimate);
      var reading := Difference(r.timeB, r.timeA);
      var target := Difference(r.timeD, offset);
      target := Sum(target, reading);
      commands := commands + [SetTime(target)];
      ClearVars();
      commands := commands + [AdjFreq(Wrap32(base - DivC(adj, 100)), base, Reset)];
      drift := adj;
    }

    method Slew()
      modifies this
      ensures View() == SlewClock(o, old(View()))
    {
      var ai, ap := o.ai, o.ap;
      if ap < 1 { ap := 1; }
      if ai < 1 { ai := 1; }
      drift := Limit(drift + DivC(offset.nanoseconds, ai));
      var adj := DivC(offset.nanoseconds, ap) + drift;
      if !o.noAdjust {
        adj := Limit(adj);
        commands := commands + [AdjFreq(Wrap32(base - DivC(adj, 100)), base, Controlled)];
        if o.rememberAdjustValue && offset.nanoseconds <= 100 && offset.nanoseconds >= -100 {
          lastAdjust := -adj;
        }
      }
    }

    method Adjust(r: SyncReadings)
      modifies this
      ensures View() == UpdateClock(o, old(View()), r)
    {
      if offset.seconds != 0 {
        if !o.noAdjust {
          if !o.noResetClock {
            Step(r);
          } else {
            var adj := if offset.nanoseconds > 0 then ADJ_FREQ_MAX else -ADJ_FREQ_MAX;
            commands := commands + [AdjFreq(Wrap32(base - adj), base, FullSpeed)];
          }
        }
      } else {
        Slew();
      }
    }
  }
}
