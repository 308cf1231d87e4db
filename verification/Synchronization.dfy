/** What a SLAVE makes of the messages of its master, round by round: the offset by a Sync, the delay by a
    request and its response. */
module Synchronization {
  import opened Octets
  import opened Arith
  import opened Bmc
  import opened V2Bmc
  import opened Timers
  import opened ForeignMasters
  import opened PortTypes
  import opened DataSets
  import opened PortModel
  import opened PortTimers
  import Servo
  import ServoProperties
  import Steering

  // ----- around the handlers -----

  /** What a round leaves alone besides handling its message. */
  predicate SameMeasuring(p: Port, q: Port) {
    && p.state == q.state && p.servo == q.servo && p.sync == q.sync && p.delay == q.delay && p.requests == q.requests
    && p.sent == q.sent && p.kind == q.kind && p.syncInterval == q.syncInterval
  }

  /** The port is SLAVE when the message of this round is handled, and at the end of it. */
  predicate StaysSlave(cfg: Config, p: Port, env: Inputs) {
    p.state == Slave && Reconsider(cfg, p, env).state == Slave && Step(cfg, p, env).state == Slave
  }

  lemma DecidedSlave(cfg: Config, p: Port)
    requires p.state == Slave && Decision(cfg, p).1 == Slave
    ensures SameMeasuring(p, Decision(cfg, p).0)
  {
    hide BestRecord, D0, V2D0, ServoForget;
  }

  lemma LeavesSlave(cfg: Config, p: Port, s: PortState, random: UInteger16)
    requires s != Slave && s != PreMaster
    ensures ToState(cfg, p, s, random).state != Slave
  {
    hide ServoInit, ReceiptTimeout, SyncTimeout, Started, Stopped;
  }

  lemma DecisionStates(cfg: Config, p: Port)
    requires p.state == Slave
    ensures Decision(cfg, p).1 in {Master, Passive, Slave}
  {
    hide BestRecord, D0, V2D0, ServoForget;
  }

  /** A decision that leaves a SLAVE a SLAVE may change whom it follows, and nothing it measures with. */
  lemma DecisionKeepsMeasuring(cfg: Config, p: Port, env: Inputs)
    requires p.state == Slave && Reconsider(cfg, p, env).state == Slave
    ensures SameMeasuring(p, Reconsider(cfg, p, env))
  {
    hide Decision, ToState;
    if p.recordUpdate {
      var q := Reconsidering(p);
      DecisionStates(cfg, q);
      var (d, s) := Decision(cfg, q);
      if s == Slave { DecidedSlave(cfg, q); } else { LeavesSlave(cfg, d, s, env.slaveRandom); }
    }
  }

  lemma NotTimedOut(cfg: Config, p: Port, ticks: nat)
    requires CheckReceipt(cfg, p, ticks).state == Slave
    ensures var q := CheckReceipt(cfg, p, ticks);
            SameMeasuring(p, q) && q.parent == p.parent && q == p.(timers := q.timers)
  {
    hide ToState, Updated, Cleared;
    var q := p.(timers := Cleared(Updated(p.timers, ticks), SYNC_RECEIPT));
    var forgot := q.(table := q.table.(number := 0, next := 0), log := q.log + [Restarted(0)]);
    Arrives(cfg, M1(cfg, forgot), Master);
    Arrives(cfg, forgot, Listening);
  }

  /** Such a round is the decision and the handling of the message, but for the timers. */
  lemma SlaveRound(cfg: Config, p: Port, env: Inputs)
    requires StaysSlave(cfg, p, env)
    ensures var q, w := Reconsider(cfg, p, env), Step(cfg, p, env);
            SameMeasuring(p, q) && w == Handle(cfg, q, env).(timers := w.timers)
  {
    hide Reconsider, Handle, CheckReceipt, SameMeasuring;
    DecisionKeepsMeasuring(cfg, p, env);
    NotTimedOut(cfg, Handle(cfg, Reconsider(cfg, p, env), env), env.receiptTicks);
  }

  // ----- the offset -----

  /** The Sync announces a Follow_Up. */
  predicate HasFollowUp(m: Packet) {
    if m.version == 1 then m.header.assist else m.v2.twoStep
  }

  function SyncCorrection(m: Packet): TimeInternal {
    if m.version == 1 then ZeroTime else m.v2.correction
  }

  /** A Sync of version 2 does not touch the correction of the last Follow_Up. */
  function FollowUpCorrection(p: Port, m: Packet): TimeInternal {
    if m.version == 1 then ZeroTime else p.sync.followupCorrection
  }

  /** Counting down to a request: it is issued exactly if it is due and fewer than a thousand have been, in a
      counter of 16 bits with sign. */
  predicate CountsDown(p: Port, w: Port, env: Inputs) {
    var due := p.sync.r == 1;
    var issued := due && Wrap16(p.requests + 1) < 1000;
    && w.sync.r == (if due then env.requestRandom % 2 + 2 else if p.sync.r == 0 then 0xFFFF else p.sync.r - 1)
    && w.requests == (if due then Wrap16(p.requests + 1) else p.requests)
    && w.sent == (if issued then p.sent.(delayReq := Next16(p.sent.delayReq)) else p.sent)
    && w.delay == (if issued then p.delay.(sentRequest := true, receivedPeerResp := false,
                                           sequenceId := Next16(p.sent.delayReq)) else p.delay)
  }

  /** The servo after a correction by the time origin and the times of a Sync. */
  function Steered(cfg: Config, p: Port, origin: TimeInternal, t1: TimeInternal, t2: TimeInternal,
                   c1: TimeInternal, c2: TimeInternal, env: Inputs): Filtered {
    ServoClock(cfg.servo, ServoOffset(p.servo, origin, t2, c1, c2),
               Servo.SyncReadings(t1, t2, env.estimate, env.timeA, env.timeB, env.timeD))
  }

  /** An accepted Sync that has no Follow_Up corrects by its own time stamp, the time it was received, and
      its correction; one that has, notes its time of reception and correction, and leaves the servo alone. */
  lemma AcceptedSteers(cfg: Config, p: Port, m: Packet, time: TimeInternal, env: Inputs)
    requires p.state == Slave && AcceptSync(cfg, p, m, time, env).state == Slave
    ensures var w := AcceptSync(cfg, p, m, time, env);
            && w.servo == (if HasFollowUp(m) then p.servo
                           else Steered(cfg, p, m.stamp, p.sync.t1, time, SyncCorrection(m), FollowUpCorrection(p, m), env))
            && w.sync.(r := 0) == SyncTimes(HasFollowUp(m), p.sync.t1, time, SyncCorrection(m), FollowUpCorrection(p, m), 0)
            && w.parent.lastSync == SequenceOf(m) && w.kind == p.kind && CountsDown(p, w, env)
            && (FromParent(p, m) ==> FromParent(w, m))
  {
    hide ServoOffset, ServoClock, ServoInit, ReceiptTimeout, Added, Wrap16, CountDown, CountsDown;
    var noted := NoteSync(p, m, time);
    var corrected := if noted.sync.waitingForFollow then noted else Correct(cfg, noted, m.stamp, env);
    var applied := if m.version == 1 then S1(corrected, Candidate(m.header, m.sync)) else corrected;
    CountedDown(cfg, applied, env);
    SameCountDown(applied, p, CountDown(cfg, applied, env), AcceptSync(cfg, p, m, time, env), env);
  }

  lemma CountedDown(cfg: Config, p: Port, env: Inputs)
    requires p.state == Slave && CountDown(cfg, p, env).state == Slave
    ensures var w := CountDown(cfg, p, env);
            && CountsDown(p, w, env)
            && w.servo == p.servo && w.sync.(r := 0) == p.sync.(r := 0) && w.parent == p.parent && w.kind == p.kind
  {
    hide ServoInit, Started, Stopped, ReceiptTimeout, Wrap16;
  }

  lemma SameCountDown(p: Port, q: Port, v: Port, w: Port, env: Inputs)
    requires CountsDown(p, v, env)
    requires p.sync.r == q.sync.r && p.requests == q.requests && p.sent == q.sent && p.delay == q.delay
    requires v.sync.r == w.sync.r && v.requests == w.requests && v.sent == w.sent && v.delay == w.delay
    ensures CountsDown(q, w, env)
  {
  }

  lemma SeenKeepsMeasuring(cfg: Config, p: Port, m: Packet, time: TimeInternal, env: Inputs)
    requires !FromSelf(cfg, m)
    ensures var q := SeenSync(cfg, p, m, time, env); SameMeasuring(p, q) && q.parent == p.parent
  {
    hide FromSelf, TechnologyOk, Added;
  }

  lemma KindDoesNotSteer(cfg: Config, p: Port, origin: TimeInternal, t1: TimeInternal, t2: TimeInternal,
                         c1: TimeInternal, c2: TimeInternal, env: Inputs, q: Port)
    requires p.servo == q.servo
    ensures Steered(cfg, p, origin, t1, t2, c1, c2, env) == Steered(cfg, q, origin, t1, t2, c1, c2, env)
  {
    hide ServoOffset, ServoClock;
  }

  /** A round in which a SLAVE accepts a Sync and stays SLAVE. */
  predicate TakesSync(cfg: Config, p: Port, m: Packet, env: Inputs) {
    StaysSlave(cfg, p, env) && env.reception == Received(m) && Accepts(cfg, Reconsider(cfg, p, env), m)
  }

  lemma SyncSteers(cfg: Config, p: Port, m: Packet, env: Inputs)
    requires TakesSync(cfg, p, m, env)
    ensures var w, time, c1, c2 := Step(cfg, p, env), ReceiveTime(cfg, m), SyncCorrection(m), FollowUpCorrection(p, m);
            && w.servo == (if HasFollowUp(m) then p.servo
                           else Steered(cfg, p, m.stamp, p.sync.t1, time, c1, c2, env))
            && w.sync.(r := 0) == SyncTimes(HasFollowUp(m), p.sync.t1, time, c1, c2, 0)
            && w.parent.lastSync == SequenceOf(m) && w.kind == SYNC && CountsDown(p, w, env)
  {
    hide Reconsider, AcceptSync, SeenSync, Accepts, Handle, StaysSlave, FromSelf, FollowUpCorrection, HasFollowUp, Steered,
         ReceiveTime, Step, CountsDown;
    var q := Reconsider(cfg, p, env);
    SlaveRound(cfg, p, env);
    IsSlave(cfg, p, env);
    AcceptedInRound(cfg, q, m, env);
    NotFromSelf(cfg, q, m);
    var k := q.(kind := SYNC);
    var a := AcceptSync(cfg, k, m, ReceiveTime(cfg, m), env);
    SeenKeepsMeasuring(cfg, a, m, ReceiveTime(cfg, m), env);
    AcceptedSteers(cfg, k, m, ReceiveTime(cfg, m), env);
    SameCorrection(p, k, m);
    SameCountDown(k, p, a, Step(cfg, p, env), env);
    KindDoesNotSteer(cfg, k, m.stamp, p.sync.t1, ReceiveTime(cfg, m), SyncCorrection(m), FollowUpCorrection(p, m), env, p);
  }

  lemma SameCorrection(p: Port, q: Port, m: Packet)
    requires p.sync == q.sync
    ensures FollowUpCorrection(p, m) == FollowUpCorrection(q, m)
  {
  }

  lemma IsSlave(cfg: Config, p: Port, env: Inputs)
    requires StaysSlave(cfg, p, env)
    ensures p.state == Slave && Reconsider(cfg, p, env).state == Slave && Step(cfg, p, env).state == Slave
  {
    hide Reconsider, Step;
  }

  /** A round in which the Follow_Up that a SLAVE waits for comes in. */
  predicate TakesFollowUp(cfg: Config, p: Port, m: Packet, env: Inputs) {
    && StaysSlave(cfg, p, env) && env.reception == Received(m)
    && (m.version == 1 || m.version == 2) && KindOf(m, p.kind) == FOLLOW_UP
    && m.length >= (if m.version == 1 then 52 else 44) && !FromSelf(cfg, m) && !(m.version == 1 && m.header.burst)
    && FollowUpExpected(Reconsider(cfg, p, env), m)
  }

  /** It corrects by its own time stamp, with the time at which its Sync was received and both corrections. */
  lemma FollowUpSteers(cfg: Config, p: Port, m: Packet, env: Inputs)
    requires TakesFollowUp(cfg, p, m, env)
    ensures var w := Step(cfg, p, env);
            var c2 := if m.version == 1 then p.sync.followupCorrection else m.v2.correction;
            && w.servo == Steered(cfg, p, m.stamp, m.stamp, p.sync.t2, p.sync.syncCorrection, c2, env)
            && w.sync == p.sync.(waitingForFollow := false, t1 := m.stamp, followupCorrection := c2)
            && w.delay == p.delay && w.sent == p.sent && w.requests == p.requests
  {
    hide Reconsider, Step, ServoOffset, ServoClock, FromSelf, KindOf, FollowUpExpected;
    SlaveRound(cfg, p, env);
    FollowUpHandled(cfg, Reconsider(cfg, p, env), m, env);
  }

  lemma FollowUpHandled(cfg: Config, p: Port, m: Packet, env: Inputs)
    requires env.reception == Received(m) && (m.version == 1 || m.version == 2) && KindOf(m, p.kind) == FOLLOW_UP
    requires m.length >= (if m.version == 1 then 52 else 44) && p.state == Slave
    requires !FromSelf(cfg, m) && !(m.version == 1 && m.header.burst) && FollowUpExpected(p, m)
    ensures Handle(cfg, p, env) == UseFollowUp(cfg, p.(kind := FOLLOW_UP), m, env)
  {
    hide UseFollowUp, FromSelf, KindOf, ReceiveTime;
  }

  /** The two-step way: a Sync that has a Follow_Up, and then that, correct the clock like a one-step Sync with
      the time stamp of the Follow_Up would, received when the Sync was. */
  lemma TwoStepsSteer(cfg: Config, p: Port, m: Packet, env: Inputs, f: Packet, next: Inputs)
    requires TakesSync(cfg, p, m, env) && HasFollowUp(m) && f.version == m.version
    requires TakesFollowUp(cfg, Step(cfg, p, env), f, next)
    ensures var c2 := if m.version == 1 then ZeroTime else f.v2.correction;
            Step(cfg, Step(cfg, p, env), next).servo ==
            Steered(cfg, p, f.stamp, f.stamp, ReceiveTime(cfg, m), SyncCorrection(m), c2, next)
  {
    hide TakesSync, TakesFollowUp, Step, Steered, ReceiveTime;
    SyncSteers(cfg, p, m, env);
    FollowUpSteers(cfg, Step(cfg, p, env), f, next);
    var c2 := if m.version == 1 then ZeroTime else f.v2.correction;
    KindDoesNotSteer(cfg, Step(cfg, p, env), f.stamp, f.stamp, ReceiveTime(cfg, m), SyncCorrection(m), c2, next, p);
  }

  // ----- what that measures -----

  /** From sent to received it took total nanoseconds by the two clocks, less the corrections. */
  predicate Transit(sent: TimeInternal, received: TimeInternal, c1: TimeInternal, c2: TimeInternal, total: int) {
    && Canonical(sent) && Canonical(received) && Canonical(c1) && Canonical(c2)
    && ServoProperties.Fits(Nanos(received) - Nanos(sent))
    && ServoProperties.Fits(Nanos(received) - Nanos(sent) - Nanos(c1))
    && Nanos(received) - Nanos(sent) - Nanos(c1) - Nanos(c2) == total && ServoProperties.Fits(total)
  }

  lemma DifferenceOf(x: TimeInternal, y: TimeInternal, total: int)
    requires ServoProperties.Exactly(x, total) && Canonical(y) && ServoProperties.Fits(total - Nanos(y))
    ensures ServoProperties.Exactly(Difference(x, y), total - Nanos(y))
  {
    ServoProperties.DifferenceFits(x, y);
  }

  lemma TransitIsExact(sent: TimeInternal, received: TimeInternal, c1: TimeInternal, c2: TimeInternal, total: int)
    requires Transit(sent, received, c1, c2, total)
    ensures ServoProperties.Exactly(Difference(Difference(Difference(received, sent), c1), c2), total)
  {
    hide Nanos, Difference;
    ServoProperties.DifferenceFits(received, sent);
    DifferenceOf(Difference(received, sent), c1, Nanos(received) - Nanos(sent));
    DifferenceOf(Difference(Difference(received, sent), c1), c2, Nanos(received) - Nanos(sent) - Nanos(c1));
  }

  /** The offset filter: the mean of two samples, or the one there is. */
  function Smoothed(prev: int, n: int): int {
    if prev == -1 then n else DivC(n, 2) + DivC(prev, 2)
  }

  /** A Sync sent at origin, that took total by the two clocks, before the clock is adjusted: the delay to the
      slave becomes exactly that, and the offset, if it is less than a second off the delay in use, exactly the
      rest, smoothed with the sample before. */
  lemma OffsetTaken(v: Filtered, origin: TimeInternal, t2: TimeInternal, c1: TimeInternal, c2: TimeInternal, total: int)
    requires Transit(origin, t2, c1, c2, total) && Canonical(v.oneWayDelay) && Abs(total - Nanos(v.oneWayDelay)) < NSEC
    ensures var u, n := ServoOffset(v, origin, t2, c1, c2), total - Nanos(v.oneWayDelay);
            && ServoProperties.Exactly(u.masterToSlave, total)
            && u.offset.seconds == 0 && u.offset.nanoseconds == Smoothed(v.ofm.nsecPrev, n) && u.ofm.nsecPrev == n
            && u.oneWayDelay == v.oneWayDelay && u.owd == v.owd && u.slaveToMaster == v.slaveToMaster
            && u.drift == v.drift && u.commands == v.commands
  {
    hide Nanos, Difference, Canonical;
    TransitIsExact(origin, t2, c1, c2, total);
    var m2s := Difference(Difference(Difference(t2, origin), c1), c2);
    DifferenceOf(m2s, v.oneWayDelay, total);
    ServoProperties.OnlyNanoseconds(Difference(m2s, v.oneWayDelay), total - Nanos(v.oneWayDelay));
  }

  /** The adjustment of the clock changes none of it. */
  lemma SteeredMeasures(cfg: Config, p: Port, origin: TimeInternal, t1: TimeInternal, t2: TimeInternal,
                        c1: TimeInternal, c2: TimeInternal, env: Inputs, total: int)
    requires Transit(origin, t2, c1, c2, total) && Canonical(p.servo.oneWayDelay)
    requires Abs(total - Nanos(p.servo.oneWayDelay)) < NSEC
    ensures var v, n := Steered(cfg, p, origin, t1, t2, c1, c2, env), total - Nanos(p.servo.oneWayDelay);
            && ServoProperties.Exactly(v.masterToSlave, total)
            && v.offset.seconds == 0 && v.offset.nanoseconds == Smoothed(p.servo.ofm.nsecPrev, n) && v.ofm.nsecPrev == n
            && v.oneWayDelay == p.servo.oneWayDelay && v.owd == p.servo.owd && v.slaveToMaster == p.servo.slaveToMaster
  {
    hide Nanos, Canonical, Servo.UpdateOffset;
    OffsetTaken(p.servo, origin, t2, c1, c2, total);
  }

  /** A message of another port that came in at time t, by the own clock; its stamp is later by the latency. */
  predicate CameIn(cfg: Config, m: Packet, t: TimeInternal) {
    && !FromSelf(cfg, m) && m.time.seconds > 0 && Canonical(m.time) && Canonical(cfg.inboundLatency) && Canonical(t)
    && Nanos(t) == Nanos(m.time) - Nanos(cfg.inboundLatency) && ServoProperties.Fits(Nanos(t))
  }

  /** A message of our own that went out at time t; its stamp is earlier by the latency. */
  predicate WentOut(cfg: Config, m: Packet, t: TimeInternal) {
    && Canonical(m.time) && Canonical(cfg.outboundLatency) && Canonical(t)
    && Nanos(t) == Nanos(m.time) + Nanos(cfg.outboundLatency) && ServoProperties.Fits(Nanos(t))
  }

  lemma OneForm(x: TimeInternal, y: TimeInternal)
    requires Canonical(x) && Canonical(y) && Nanos(x) == Nanos(y)
    ensures x == y
  {
    CanonicalIsUnique(x);
    CanonicalIsUnique(y);
  }

  lemma TimeCameIn(cfg: Config, m: Packet, t: TimeInternal)
    requires CameIn(cfg, m, t)
    ensures ReceiveTime(cfg, m) == t
  {
    hide Nanos, Canonical, Difference, FromSelf;
    ServoProperties.DifferenceFits(m.time, cfg.inboundLatency);
    OneForm(Difference(m.time, cfg.inboundLatency), t);
  }

  lemma TimeWentOut(cfg: Config, m: Packet, t: TimeInternal)
    requires WentOut(cfg, m, t)
    ensures Sum(m.time, cfg.outboundLatency) == t
  {
    hide Nanos, Canonical, Sum;
    ServoProperties.SumFits(m.time, cfg.outboundLatency);
    OneForm(Sum(m.time, cfg.outboundLatency), t);
  }

  /** A one-step Sync of a master that the own clock is off by off nanoseconds, over a link of delay d: the
      offset measured is exactly what is not yet known of the delay, plus off. */
  lemma SyncFindsOffset(cfg: Config, p: Port, m: Packet, env: Inputs, t: TimeInternal, d: int, off: int)
    requires TakesSync(cfg, p, m, env) && !HasFollowUp(m) && CameIn(cfg, m, t)
    requires Transit(m.stamp, t, SyncCorrection(m), FollowUpCorrection(p, m), d + off)
    requires Canonical(p.servo.oneWayDelay) && Abs(d + off - Nanos(p.servo.oneWayDelay)) < NSEC
    ensures var v, n := Step(cfg, p, env).servo, d + off - Nanos(p.servo.oneWayDelay);
            && ServoProperties.Exactly(v.masterToSlave, d + off)
            && v.offset.seconds == 0 && v.offset.nanoseconds == Smoothed(p.servo.ofm.nsecPrev, n) && v.ofm.nsecPrev == n
            && v.oneWayDelay == p.servo.oneWayDelay && v.owd == p.servo.owd
  {
    hide TakesSync, Step, Steered, Transit, Nanos, Canonical, FollowUpCorrection, SyncCorrection, CameIn, ReceiveTime;
    SyncSteers(cfg, p, m, env);
    TimeCameIn(cfg, m, t);
    SteeredMeasures(cfg, p, m.stamp, p.sync.t1, t, SyncCorrection(m), FollowUpCorrection(p, m), env, d + off);
  }

  /** With the delay of the link known and no sample before, that is the true offset; and the clock is steered
      towards the master, whichever way it is off, unless the drift opposes. */
  lemma SlaveSteersToMaster(cfg: Config, p: Port, m: Packet, env: Inputs, t: TimeInternal, d: int, off: int)
    requires TakesSync(cfg, p, m, env) && !HasFollowUp(m) && CameIn(cfg, m, t)
    requires Transit(m.stamp, t, SyncCorrection(m), FollowUpCorrection(p, m), d + off)
    requires ServoProperties.Exactly(p.servo.oneWayDelay, d) && Abs(off) < NSEC && p.servo.ofm.nsecPrev == -1
    requires !cfg.servo.noAdjust
    ensures var v := Step(cfg, p, env).servo;
            && v.offset == TimeInternal(0, off) && |v.commands| == |p.servo.commands| + 1
            && Steering.Brings(p.servo.drift, off, Steering.LastTurn(v))
  {
    hide TakesSync, Step, Steered, Transit, Nanos, Canonical, FollowUpCorrection, SyncCorrection, CameIn, ReceiveTime,
         Steering.LastTurn, Steering.Brings, Servo.UpdateClock;
    SyncSteers(cfg, p, m, env);
    TimeCameIn(cfg, m, t);
    SteeredSteers(cfg, p, m.stamp, p.sync.t1, t, SyncCorrection(m), FollowUpCorrection(p, m), env, d, off);
  }

  lemma SteeredSteers(cfg: Config, p: Port, origin: TimeInternal, t1: TimeInternal, t2: TimeInternal,
                      c1: TimeInternal, c2: TimeInternal, env: Inputs, d: int, off: int)
    requires Transit(origin, t2, c1, c2, d + off) && ServoProperties.Exactly(p.servo.oneWayDelay, d)
    requires Abs(off) < NSEC && p.servo.ofm.nsecPrev == -1 && !cfg.servo.noAdjust
    ensures var v := Steered(cfg, p, origin, t1, t2, c1, c2, env);
            && v.offset == TimeInternal(0, off) && |v.commands| == |p.servo.commands| + 1
            && Steering.Brings(p.servo.drift, off, Steering.LastTurn(v))
  {
    hide Nanos, Canonical, Transit, Steering.LastTurn, Steering.Brings, Servo.UpdateClock, Servo.UpdateOffset;
    SteeredMeasures(cfg, p, origin, t1, t2, c1, c2, env, d + off);
    var u := ServoOffset(p.servo, origin, t2, c1, c2);
    OffsetTaken(p.servo, origin, t2, c1, c2, d + off);
    var r := Servo.SyncReadings(t1, t2, env.estimate, env.timeA, env.timeB, env.timeD);
    Steering.SteersWell(cfg.servo, u, r, off);
  }

  /** A Sync of version 2 without Follow_Up is corrected by what the last Follow_Up left behind: the delay to
      the slave is then right exactly if that was nothing. */
  lemma OldCorrectionCounts(cfg: Config, p: Port, m: Packet, env: Inputs, t: TimeInternal, total: int)
    requires TakesSync(cfg, p, m, env) && m.version == 2 && !HasFollowUp(m) && CameIn(cfg, m, t)
    requires Transit(m.stamp, t, m.v2.correction, ZeroTime, total)
    requires var kept := p.sync.followupCorrection;
             Canonical(kept) && ServoProperties.Fits(total - Nanos(kept)) && Canonical(p.servo.oneWayDelay)
             && Abs(total - Nanos(kept) - Nanos(p.servo.oneWayDelay)) < NSEC
    ensures ServoProperties.Exactly(Step(cfg, p, env).servo.masterToSlave, total) <==> p.sync.followupCorrection == ZeroTime
  {
    hide TakesSync, Step, Steered, CameIn, ReceiveTime;
    var kept := p.sync.followupCorrection;
    SyncSteers(cfg, p, m, env);
    TimeCameIn(cfg, m, t);
    SteeredMeasures(cfg, p, m.stamp, p.sync.t1, t, m.v2.correction, kept, env, total - Nanos(kept));
    if Nanos(kept) == 0 { OneForm(kept, ZeroTime); }
  }
}
