/** What a delay request and its response measure, round by round, of either mechanism. */
module DelayMeasurement {
  import opened Octets
  import opened Arith
  import opened ForeignMasters
  import opened PortTypes
  import opened PortModel
  import opened PortTimers
  import opened Synchronization
  import Servo
  import ServoProperties

  // ----- request and response -----

  /** A round in which the own Delay_Req comes back with the time it was sent. */
  predicate TakesLoopBack(cfg: Config, p: Port, m: Packet, env: Inputs) {
    && StaysSlave(cfg, p, env) && env.reception == Received(m) && !cfg.pdelay
    && (m.version == 1 || m.version == 2) && KindOf(m, p.kind) == DELAY_REQ
    && m.length >= (if m.version == 1 then 124 else 44) && FromSelf(cfg, m) && m.time.seconds != 0
  }

  /** A round in which the response to the request outstanding comes in. */
  predicate TakesResponse(cfg: Config, p: Port, m: Packet, env: Inputs) {
    && StaysSlave(cfg, p, env) && env.reception == Received(m)
    && (m.version == 1 || m.version == 2) && KindOf(m, p.kind) == DELAY_RESP
    && m.length >= (if m.version == 1 then 60 else 54) && !FromSelf(cfg, m)
    && p.delay.sentRequest && DelayRespOk(cfg, Reconsider(cfg, p, env), m)
  }

  function ResponseCorrection(m: Packet): TimeInternal {
    if m.version == 1 then ZeroTime else m.v2.correction
  }

  lemma LoopBackHandled(cfg: Config, p: Port, m: Packet, env: Inputs)
    requires p.state == Slave && env.reception == Received(m)
    requires (m.version == 1 || m.version == 2) && KindOf(m, p.kind) == DELAY_REQ
    requires m.length >= (if m.version == 1 then 124 else 44) && FromSelf(cfg, m) && m.time.seconds != 0
    ensures Handle(cfg, p, env) == DelayReqTxComplete(cfg, p.(kind := DELAY_REQ), m, m.time)
  {
    hide DelayReqTxComplete, FromSelf, KindOf;
  }

  lemma ResponseHandled(cfg: Config, p: Port, m: Packet, env: Inputs)
    requires p.state == Slave && env.reception == Received(m)
    requires (m.version == 1 || m.version == 2) && KindOf(m, p.kind) == DELAY_RESP
    requires m.length >= (if m.version == 1 then 60 else 54) && !FromSelf(cfg, m)
    requires p.delay.sentRequest && DelayRespOk(cfg, p, m)
    ensures Handle(cfg, p, env) == UseDelayResp(cfg, p.(kind := DELAY_RESP), m)
  {
    hide UseDelayResp, FromSelf, KindOf, ReceiveTime;
  }

  /** The loop-back gives the time of transmission, with the latency; if the time of reception is there
      already, the delay is measured and the request is done with. */
  lemma LoopBackMeasures(cfg: Config, p: Port, m: Packet, env: Inputs)
    requires TakesLoopBack(cfg, p, m, env)
    ensures var w, t3 := Step(cfg, p, env), Sum(m.time, cfg.outboundLatency);
            && w.sync == p.sync
            && (if p.delay.t4.seconds != 0
                then w.servo == ServoDelay(cfg.servo, p.servo, t3, p.delay.t4, p.delay.respCorrection)
                     && w.delay == p.delay.(t3 := ZeroTime, t4 := ZeroTime, respCorrection := ZeroTime, sentRequest := false)
                else w.servo == p.servo && w.delay == p.delay.(t3 := t3))
  {
    hide Reconsider, Step, ServoDelay, FromSelf, KindOf, Sum;
    SlaveRound(cfg, p, env);
    LoopBackHandled(cfg, Reconsider(cfg, p, env), m, env);
  }

  /** And the response the time of reception, likewise. */
  lemma ResponseMeasures(cfg: Config, p: Port, m: Packet, env: Inputs)
    requires TakesResponse(cfg, p, m, env)
    ensures var w, c := Step(cfg, p, env), ResponseCorrection(m);
            && AnswerNumber(m) == p.delay.sequenceId && w.sync == p.sync
            && (if p.delay.t3.seconds != 0
                then w.servo == ServoDelay(cfg.servo, p.servo, p.delay.t3, m.stamp, c)
                     && w.delay == p.delay.(t3 := ZeroTime, t4 := ZeroTime, respCorrection := ZeroTime, sentRequest := false)
                else w.servo == p.servo && w.delay == p.delay.(t4 := m.stamp, respCorrection := c))
  {
    hide Reconsider, Step, ServoDelay, FromSelf, KindOf;
    SlaveRound(cfg, p, env);
    ResponseHandled(cfg, Reconsider(cfg, p, env), m, env);
  }

  /** Both halves of a measurement, in either order. */
  predicate TakesHalves(cfg: Config, p: Port, req: Packet, resp: Packet, e1: Inputs, e2: Inputs, loopBackFirst: bool) {
    if loopBackFirst then TakesLoopBack(cfg, p, req, e1) && TakesResponse(cfg, Step(cfg, p, e1), resp, e2)
    else TakesResponse(cfg, p, resp, e1) && TakesLoopBack(cfg, Step(cfg, p, e1), req, e2)
  }

  lemma HalvesMeasure(cfg: Config, p: Port, req: Packet, resp: Packet, e1: Inputs, e2: Inputs, loopBackFirst: bool)
    requires TakesHalves(cfg, p, req, resp, e1, e2, loopBackFirst)
    requires p.delay.t3.seconds == 0 && p.delay.t4.seconds == 0
    requires Sum(req.time, cfg.outboundLatency).seconds != 0 && resp.stamp.seconds != 0
    ensures var w := Step(cfg, Step(cfg, p, e1), e2);
            && w.servo == ServoDelay(cfg.servo, p.servo, Sum(req.time, cfg.outboundLatency), resp.stamp, ResponseCorrection(resp))
            && w.delay == p.delay.(t3 := ZeroTime, t4 := ZeroTime, respCorrection := ZeroTime, sentRequest := false)
            && AnswerNumber(resp) == p.delay.sequenceId
  {
    hide TakesLoopBack, TakesResponse, Step, ServoDelay, Sum, AnswerNumber;
    var q := Step(cfg, p, e1);
    if loopBackFirst {
      LoopBackMeasures(cfg, p, req, e1);
      ResponseMeasures(cfg, q, resp, e2);
    } else {
      ResponseMeasures(cfg, p, resp, e1);
      LoopBackMeasures(cfg, q, req, e2);
    }
  }

  // ----- what that measures -----

  /** What becomes of a delay of d: one of a second or more is taken as it is and clears the filter, a smaller
      one goes through the filter. */
  predicate Found(o: ServoOptions, before: Filtered, v: Filtered, d: int) {
    if Abs(d) >= NSEC then ServoProperties.Exactly(v.oneWayDelay, d) && v.owd == before.owd.(sExp := 0, nsecPrev := 0)
    else
      var f := Servo.FilterDelay(o.s, before.owd, d);
      v.owd == f && v.oneWayDelay == TimeInternal(0, f.y)
  }

  lemma SameFilter(o: ServoOptions, before: Filtered, also: Filtered, v: Filtered, d: int)
    requires Found(o, before, v, d) && before.owd == also.owd
    ensures Found(o, also, v, d)
  {
  }

  lemma DelayFound(o: ServoOptions, v: Filtered, w: Filtered, delay: TimeInternal, d: int)
    requires ServoProperties.Exactly(delay, d)
    requires w.oneWayDelay == Servo.WithDelay(o, v, delay).oneWayDelay && w.owd == Servo.WithDelay(o, v, delay).owd
    ensures Found(o, v, w, d)
  {
    hide Servo.FilterDelay;
    if Abs(d) < NSEC { ServoProperties.OnlyNanoseconds(delay, d); }
  }

  /** The delay to the slave, with the offset of its clock, and the delay from it, less that offset. */
  lemma RequestFindsDelay(o: ServoOptions, v: Filtered, sent: TimeInternal, received: TimeInternal, c: TimeInternal,
                          d: int, off: int)
    requires ServoProperties.Exactly(v.masterToSlave, d + off) && ServoProperties.Fits(2 * d)
    requires Transit(sent, received, c, ZeroTime, d - off)
    ensures Found(o, v, ServoDelay(o, v, sent, received, c), d)
  {
    hide Found, Servo.FilterDelay, Sum, Difference, Half, Nanos;
    DelayTransit(sent, received, c, d - off);
    ServoProperties.HalfOfRoundTrip(v.masterToSlave, Difference(Difference(received, sent), c), d, off);
    DelayFound(o, v.(slaveToMaster := Difference(Difference(received, sent), c)), ServoDelay(o, v, sent, received, c),
               Servo.DelayMeasured(v, sent, received, c), d);
    SameFilter(o, v.(slaveToMaster := Difference(Difference(received, sent), c)), v, ServoDelay(o, v, sent, received, c), d);
  }

  lemma DelayTransit(sent: TimeInternal, received: TimeInternal, c: TimeInternal, total: int)
    requires Transit(sent, received, c, ZeroTime, total)
    ensures ServoProperties.Exactly(Difference(Difference(received, sent), c), total)
  {
    hide Difference;
    ServoProperties.DifferenceFits(received, sent);
    DifferenceOf(Difference(received, sent), c, Nanos(received) - Nanos(sent));
  }

  /** The rounds after the Sync. */
  lemma RequestRounds(cfg: Config, p: Port, req: Packet, resp: Packet, e1: Inputs, e2: Inputs, loopBackFirst: bool,
                      t3: TimeInternal, d: int, off: int)
    requires ServoProperties.Exactly(p.servo.masterToSlave, d + off) && ServoProperties.Fits(2 * d)
    requires p.delay.t3.seconds == 0 && p.delay.t4.seconds == 0
    requires TakesHalves(cfg, p, req, resp, e1, e2, loopBackFirst)
    requires WentOut(cfg, req, t3) && t3.seconds != 0 && resp.stamp.seconds != 0
    requires Transit(t3, resp.stamp, ResponseCorrection(resp), ZeroTime, d - off)
    ensures var w := Step(cfg, Step(cfg, p, e1), e2);
            && Found(cfg.servo, p.servo, w.servo, d)
            && AnswerNumber(resp) == p.delay.sequenceId && !w.delay.sentRequest
  {
    hide TakesHalves, Transit, WentOut, Step, ServoDelay, Sum, Found, AnswerNumber, ResponseCorrection, ServoProperties.Exactly;
    TimeWentOut(cfg, req, t3);
    HalvesMeasure(cfg, p, req, resp, e1, e2, loopBackFirst);
    RequestFindsDelay(cfg.servo, p.servo, t3, resp.stamp, ResponseCorrection(resp), d, off);
  }

  lemma RequestIsDue(p: Port, w: Port, env: Inputs)
    requires CountsDown(p, w, env) && p.sync.r == 1 && Wrap16(p.requests + 1) < 1000
    ensures w.delay.sequenceId == Next16(p.sent.delayReq) && w.delay.t3 == p.delay.t3 && w.delay.t4 == p.delay.t4
  {
  }

  /** A whole exchange over a link of delay d each way, with a master the own clock is off by off: a one-step
      Sync, on which a request is due, and then its loop-back and its response in either order. The delay
      measured is exactly d, with latencies and corrections taken off. */
  lemma ExchangeFindsDelay(cfg: Config, p: Port, m: Packet, e0: Inputs, req: Packet, resp: Packet, e1: Inputs, e2: Inputs,
                           loopBackFirst: bool, t2: TimeInternal, t3: TimeInternal, d: int, off: int)
    requires TakesSync(cfg, p, m, e0) && !HasFollowUp(m) && CameIn(cfg, m, t2)
    requires Transit(m.stamp, t2, SyncCorrection(m), FollowUpCorrection(p, m), d + off)
    requires Canonical(p.servo.oneWayDelay) && Abs(d + off - Nanos(p.servo.oneWayDelay)) < NSEC
    requires p.sync.r == 1 && Wrap16(p.requests + 1) < 1000 && p.delay.t3.seconds == 0 && p.delay.t4.seconds == 0
    requires TakesHalves(cfg, Step(cfg, p, e0), req, resp, e1, e2, loopBackFirst)
    requires WentOut(cfg, req, t3) && t3.seconds != 0 && resp.stamp.seconds != 0
    requires Transit(t3, resp.stamp, ResponseCorrection(resp), ZeroTime, d - off) && ServoProperties.Fits(2 * d)
    ensures var w := Step(cfg, Step(cfg, Step(cfg, p, e0), e1), e2);
            && Found(cfg.servo, p.servo, w.servo, d)
            && AnswerNumber(resp) == Next16(p.sent.delayReq) && !w.delay.sentRequest
  {
    hide TakesSync, TakesHalves, Transit, CameIn, WentOut, Step, Nanos, Canonical, Found, SyncCorrection, CountsDown,
         FollowUpCorrection, HasFollowUp, Wrap16, AnswerNumber, ResponseCorrection, ServoProperties.Exactly, Steered;
    var q := Step(cfg, p, e0);
    SyncFindsOffset(cfg, p, m, e0, t2, d, off);
    SyncSteers(cfg, p, m, e0);
    RequestIsDue(p, q, e0);
    RequestRounds(cfg, q, req, resp, e1, e2, loopBackFirst, t3, d, off);
    SameFilter(cfg.servo, q.servo, p.servo, Step(cfg, Step(cfg, q, e1), e2).servo, d);
  }

  /** With a two-step Sync before it, the same. */
  lemma TwoStepExchangeFindsDelay(cfg: Config, p: Port, m: Packet, e0: Inputs, f: Packet, e: Inputs,
                                  req: Packet, resp: Packet, e1: Inputs, e2: Inputs,
                                  loopBackFirst: bool, t2: TimeInternal, t3: TimeInternal, d: int, off: int)
    requires TakesSync(cfg, p, m, e0) && HasFollowUp(m) && CameIn(cfg, m, t2) && f.version == m.version
    requires TakesFollowUp(cfg, Step(cfg, p, e0), f, e)
    requires Transit(f.stamp, t2, SyncCorrection(m), ResponseCorrection(f), d + off)
    requires Canonical(p.servo.oneWayDelay) && Abs(d + off - Nanos(p.servo.oneWayDelay)) < NSEC
    requires p.sync.r == 1 && Wrap16(p.requests + 1) < 1000 && p.delay.t3.seconds == 0 && p.delay.t4.seconds == 0
    requires TakesHalves(cfg, Step(cfg, Step(cfg, p, e0), e), req, resp, e1, e2, loopBackFirst)
    requires WentOut(cfg, req, t3) && t3.seconds != 0 && resp.stamp.seconds != 0
    requires Transit(t3, resp.stamp, ResponseCorrection(resp), ZeroTime, d - off) && ServoProperties.Fits(2 * d)
    ensures var q := Step(cfg, Step(cfg, p, e0), e);
            var w, n := Step(cfg, Step(cfg, q, e1), e2), d + off - Nanos(p.servo.oneWayDelay);
            && q.servo.offset.seconds == 0 && q.servo.offset.nanoseconds == Smoothed(p.servo.ofm.nsecPrev, n)
            && Found(cfg.servo, p.servo, w.servo, d)
            && AnswerNumber(resp) == Next16(p.sent.delayReq) && !w.delay.sentRequest
  {
    hide TakesSync, TakesFollowUp, TakesHalves, Transit, CameIn, WentOut, Step, Nanos, Canonical, Found, CountsDown,
         SyncCorrection, HasFollowUp, Wrap16, AnswerNumber, Steered, ReceiveTime, ServoProperties.Exactly;
    var q := Step(cfg, Step(cfg, p, e0), e);
    SyncSteers(cfg, p, m, e0);
    RequestIsDue(p, Step(cfg, p, e0), e0);
    FollowUpSteers(cfg, Step(cfg, p, e0), f, e);
    TwoStepsSteer(cfg, p, m, e0, f, e);
    TimeCameIn(cfg, m, t2);
    SteeredMeasures(cfg, p, f.stamp, f.stamp, t2, SyncCorrection(m), ResponseCorrection(f), e, d + off);
    RequestRounds(cfg, q, req, resp, e1, e2, loopBackFirst, t3, d, off);
    SameFilter(cfg.servo, q.servo, p.servo, Step(cfg, Step(cfg, q, e1), e2).servo, d);
  }

  // ----- the delay to a peer -----

  /** A request for the delay to a peer is outstanding, and nothing of it has come in. */
  predicate PeerAsked(cfg: Config, p: Port) {
    && cfg.pdelay && Active(p.state) && p.delay.sentRequest && !p.delay.receivedPeerResp && p.delay.peer == NoPathTimes
  }

  /** The own request, looped back with its time of transmission. */
  predicate OwnPeerRequest(cfg: Config, m: Packet, time: TimeInternal) {
    FromSelf(cfg, m) && m.length >= 54 && time != ZeroTime && Sum(time, cfg.outboundLatency).seconds != 0
  }

  /** Of the peer, about that request. */
  predicate OfPeer(cfg: Config, p: Port, m: Packet) {
    !FromSelf(cfg, m) && m.length >= 54 && m.v2.sequenceId == p.delay.sequenceId && m.v2Requester == Me(cfg)
  }

  predicate PeerResponse(cfg: Config, p: Port, m: Packet, time: TimeInternal) {
    OfPeer(cfg, p, m) && m.v2.twoStep && time.seconds != 0
  }

  function PeerTimes(cfg: Config, sent: TimeInternal, resp: Packet, received: TimeInternal, f: Packet): Servo.PathTimes {
    Servo.PathTimes(Sum(sent, cfg.outboundLatency), resp.stamp, f.stamp, received, resp.v2.correction, f.v2.correction)
  }

  /** The delay to the peer has been measured once, and the request is done with. */
  function AfterPeer(cfg: Config, p: Port, times: Servo.PathTimes): Port {
    p.(servo := ServoPathDelay(cfg.servo, p.servo, times),
       delay := p.delay.(receivedPeerResp := true, waitingForPeerFollow := true, peer := NoPathTimes, sentRequest := false))
  }

  /** The loop-back may come before the response or after its Follow_Up, and makes no difference. */
  lemma PeerMeasures(cfg: Config, p: Port, req: Packet, sent: TimeInternal, resp: Packet, received: TimeInternal,
                     f: Packet, env: Inputs)
    requires PeerAsked(cfg, p) && OwnPeerRequest(cfg, req, sent)
    requires PeerResponse(cfg, p, resp, received) && OfPeer(cfg, p, f)
    ensures var first := HandlePDelayResp(cfg, HandlePDelayReq(cfg, p, req, sent, env), resp, received, env);
            HandlePDelayRespFollowUp(cfg, first, f) == AfterPeer(cfg, p, PeerTimes(cfg, sent, resp, received, f))
    ensures var rest := HandlePDelayRespFollowUp(cfg, HandlePDelayResp(cfg, p, resp, received, env), f);
            HandlePDelayReq(cfg, rest, req, sent, env) == AfterPeer(cfg, p, PeerTimes(cfg, sent, resp, received, f))
  {
    hide Sum, ServoPathDelay, FromSelf;
  }

  /** In between it does: the delay is then measured without the time of the Follow_Up, and that leaves the
      port FAULTY. */
  lemma PeerOvertaken(cfg: Config, p: Port, req: Packet, sent: TimeInternal, resp: Packet, received: TimeInternal,
                      f: Packet, env: Inputs)
    requires PeerAsked(cfg, p) && OwnPeerRequest(cfg, req, sent)
    requires PeerResponse(cfg, p, resp, received) && OfPeer(cfg, p, f)
    ensures var q := HandlePDelayReq(cfg, HandlePDelayResp(cfg, p, resp, received, env), req, sent, env);
            && q.servo == ServoPathDelay(cfg.servo, p.servo, Servo.PathTimes(Sum(sent, cfg.outboundLatency), resp.stamp,
                                                                             ZeroTime, received, resp.v2.correction, ZeroTime))
            && HandlePDelayRespFollowUp(cfg, q, f) == ToFaulty(cfg, q) && ToFaulty(cfg, q).state == Faulty
  {
    hide Sum, ServoPathDelay, FromSelf, ServoInit, ReceiptTimeout;
  }

  /** The request took d to the peer, which took turnaround to answer, and the answer d back; residence times on
      the way are in the corrections. The clocks of the two may differ by anything. */
  predicate PeerLink(t: Servo.PathTimes, d: int, turnaround: int) {
    var round, c1, c2 := Nanos(t.t4) - Nanos(t.t1), Nanos(t.respCorrection), Nanos(t.followupCorrection);
    && Canonical(t.t1) && Canonical(t.t2) && Canonical(t.t3) && Canonical(t.t4)
    && Canonical(t.respCorrection) && Canonical(t.followupCorrection)
    && Nanos(t.t3) - Nanos(t.t2) == turnaround && round == 2 * d + turnaround + c1 + c2
    && ServoProperties.Fits(round) && ServoProperties.Fits(turnaround) && ServoProperties.Fits(round - turnaround)
    && ServoProperties.Fits(2 * d + c2) && ServoProperties.Fits(2 * d)
  }

  lemma PeerLinkIsExact(t: Servo.PathTimes, d: int, turnaround: int)
    requires PeerLink(t, d, turnaround)
    ensures ServoProperties.Exactly(Servo.PathDelayMeasured(t), d)
  {
    hide Difference, Half, Nanos;
    ServoProperties.DifferenceFits(t.t4, t.t1);
    ServoProperties.DifferenceFits(t.t3, t.t2);
    var round, c1 := Difference(t.t4, t.t1), Nanos(t.respCorrection);
    DifferenceOf(round, Difference(t.t3, t.t2), Nanos(t.t4) - Nanos(t.t1));
    var twice := Difference(round, Difference(t.t3, t.t2));
    DifferenceOf(twice, t.respCorrection, Nanos(t.t4) - Nanos(t.t1) - turnaround);
    DifferenceOf(Difference(twice, t.respCorrection), t.followupCorrection, Nanos(t.t4) - Nanos(t.t1) - turnaround - c1);
    HalfExactly(Difference(Difference(twice, t.respCorrection), t.followupCorrection), d);
  }

  lemma HalfExactly(t: TimeInternal, d: int)
    requires ServoProperties.Exactly(t, 2 * d)
    ensures ServoProperties.Exactly(Half(t), d)
  {
    HalfIsExact(t);
  }

  /** The delay found is that of the link, whatever the clock of the peer and the time it takes to answer. */
  lemma PeerFindsDelay(cfg: Config, p: Port, req: Packet, sent: TimeInternal, resp: Packet, received: TimeInternal,
                       f: Packet, env: Inputs, d: int, turnaround: int)
    requires PeerAsked(cfg, p) && OwnPeerRequest(cfg, req, sent)
    requires PeerResponse(cfg, p, resp, received) && OfPeer(cfg, p, f)
    requires PeerLink(PeerTimes(cfg, sent, resp, received, f), d, turnaround)
    ensures var w := HandlePDelayRespFollowUp(
                       cfg, HandlePDelayResp(cfg, HandlePDelayReq(cfg, p, req, sent, env), resp, received, env), f);
            Found(cfg.servo, p.servo, w.servo, d) && !w.delay.sentRequest
  {
    hide PeerAsked, OwnPeerRequest, PeerResponse, OfPeer, PeerLink, Found, HandlePDelayReq, HandlePDelayResp, HandlePDelayRespFollowUp,
         Servo.PathDelayMeasured, Servo.WithDelay, PeerTimes;
    var t := PeerTimes(cfg, sent, resp, received, f);
    PeerMeasures(cfg, p, req, sent, resp, received, f, env);
    PeerLinkIsExact(t, d, turnaround);
    PathDelayFound(cfg.servo, p.servo, t, d);
  }

  lemma PathDelayFound(o: ServoOptions, v: Filtered, t: Servo.PathTimes, d: int)
    requires ServoProperties.Exactly(Servo.PathDelayMeasured(t), d)
    ensures Found(o, v, ServoPathDelay(o, v, t), d)
  {
    hide Found, Servo.PathDelayMeasured;
    var u := v.(slaveToMaster := Servo.PathDelayMeasured(t), t1Delta := ZeroTime, t2Delta := ZeroTime);
    DelayFound(o, u, ServoPathDelay(o, v, t), Servo.PathDelayMeasured(t), d);
    SameFilter(o, u, v, ServoPathDelay(o, v, t), d);
  }
}
