/** The interval timers of src/dep/timer.c: a timer with interval 0 is stopped; one that has run out
    is flagged and starts again. */
module Timers {

  datatype IntervalTimer = IntervalTimer(interval: int, left: int, expire: bool)

  const TIMERS: nat := 6

  const SYNC_RECEIPT: nat := 0
  const SYNC_INTERVAL: nat := 1
  const ANNOUNCE_RECEIPT: nat := 2
  const ANNOUNCE_INTERVAL: nat := 3

  const Off := IntervalTimer(0, 0, false)

  type TimerArray = ts: seq<IntervalTimer> | |ts| == TIMERS witness [Off, Off, Off, Off, Off, Off]

  function Counted(t: IntervalTimer, delta: int): IntervalTimer {
    if delta > 0 && t.interval > 0 then
      if t.left - delta <= 0 then IntervalTimer(t.interval, t.interval, true) else t.(left := t.left - delta)
    else t
  }

  function Updated(ts: TimerArray, delta: int): (r: TimerArray)
    ensures forall i :: 0 <= i < TIMERS ==> r[i] == Counted(ts[i], delta)
  {
    seq(TIMERS, i requires 0 <= i < TIMERS => Counted(ts[i], delta))
  }

  function Started(ts: TimerArray, index: nat, interval: nat): TimerArray {
    if index < TIMERS then ts[index := IntervalTimer(interval, interval, false)] else ts
  }

  function Stopped(ts: TimerArray, index: nat): TimerArray {
    if index < TIMERS then ts[index := ts[index].(interval := 0)] else ts
  }

  function Cleared(ts: TimerArray, index: nat): TimerArray {
    if index < TIMERS then ts[index := ts[index].(expire := false)] else ts
  }

  predicate Flagged(ts: TimerArray, index: nat) {
    index < TIMERS && ts[index].expire
  }

  // ----- what a timer is for -----

  function CountedAll(t: IntervalTimer, deltas: seq<nat>): IntervalTimer
    decreases |deltas|
  {
    if deltas == [] then t else CountedAll(Counted(t, deltas[0]), deltas[1..])
  }

  function Total(deltas: seq<nat>): nat {
    if deltas == [] then 0 else deltas[0] + Total(deltas[1..])
  }

  /** However the ticks are split among updates, a running timer is flagged exactly when at least as
      many ticks as were left have gone by, or it was flagged before. */
  lemma {:induction false} ExpiresOnTime(t: IntervalTimer, deltas: seq<nat>)
    requires t.interval > 0 && t.left > 0
    ensures CountedAll(t, deltas).expire <==> t.expire || Total(deltas) >= t.left
    ensures CountedAll(t, deltas).interval == t.interval
    decreases |deltas|
  {
    if deltas != [] {
      ExpiresOnTime(Counted(t, deltas[0]), deltas[1..]);
    }
  }

  lemma {:induction false} StoppedStaysSilent(t: IntervalTimer, deltas: seq<nat>)
    requires t.interval <= 0
    ensures CountedAll(t, deltas) == t
    decreases |deltas|
  {
    if deltas != [] {
      StoppedStaysSilent(t, deltas[1..]);
    }
  }

  // ----- the timers in memory -----

  class TimerSet {
    const itimer: array<IntervalTimer>
    var elapsed: int

    constructor ()
      ensures fresh(itimer) && Valid()
      ensures View() == [Off, Off, Off, Off, Off, Off] && elapsed == 0
    {
      itimer := new IntervalTimer[TIMERS](_ => Off);
      elapsed := 0;
    }

    predicate Valid() {
      itimer.Length == TIMERS
    }

    function View(): TimerArray
      requires Valid()
      reads itimer
    {
      itimer[..]
    }

    /** The periodic callback. */
    method CatchAlarm(ticks: nat)
      modifies this
      ensures elapsed == old(elapsed) + ticks
    {
      elapsed := elapsed + ticks;
    }

    method Update()
      requires Valid()
      modifies this, itimer
      ensures View() == Updated(old(View()), old(elapsed)) && elapsed == 0
    {
      var delta := elapsed;
      elapsed := 0;
      if delta <= 0 {
        return;
      }
      for i := 0 to itimer.Length
        invariant forall k :: 0 <= k < i ==> itimer[k] == Counted(old(itimer[k]), delta)
        invariant forall k :: i <= k < itimer.Length ==> itimer[k] == old(itimer[k])
        modifies itimer
      {
        if itimer[i].interval > 0 {
          itimer[i] := itimer[i].(left := itimer[i].left - delta);
          if itimer[i].left <= 0 {
            itimer[i] := itimer[i].(left := itimer[i].interval);
            itimer[i] := itimer[i].(expire := true);
          }
        }
      }
    }

    method Stop(index: nat)
      requires Valid()
      modifies itimer
      ensures View() == Stopped(old(View()), index)
    {
      if index >= TIMERS {
        return;
      }
      itimer[index] := itimer[index].(interval := 0);
    }

    method Start(index: nat, interval: nat)
      requires Valid()
      modifies itimer
      ensures View() == Started(old(View()), index, interval)
    {
      if index >= TIMERS {
        return;
      }
      itimer[index] := itimer[index].(expire := false);
      itimer[index] := itimer[index].(left := interval);
      itimer[index] := itimer[index].(interval := itimer[index].left);
    }

    method Expired(index: nat) returns (r: bool)
      requires Valid()
      modifies this, itimer
      ensures r == Flagged(Updated(old(View()), old(elapsed)), index)
      ensures View() == Cleared(Updated(old(View()), old(elapsed)), index)
      ensures elapsed == 0
    {
      hide Counted;
      Update();
      if index >= TIMERS {
        return false;
      }
      if !itimer[index].expire {
        return false;
      }
      itimer[index] := itimer[index].(expire := false);
      return true;
    }
  }
}
