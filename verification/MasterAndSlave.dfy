/** A master and a slave that measure the delay of the link between them: what one sends is what the other
    corrects its clock by. */
module MasterAndSlave {
  import opened Octets
  import opened Arith
  import opened ForeignMasters
  import opened PortTypes
  import opened PortModel
  import opened Serving
  import opened Synchronization
  import opened DelayMeasurement
  import ServoProperties

  /** The message a port has sent last. */
  function LastSent(p: Port): Output
    requires p.outbox != []
  {
    p.outbox[|p.outbox| - 1]
  }

  /** A version 2 Sync of a master comes back to it, and it sends the Follow_Up. */
  predicate FollowsUp(cfg: Config, p: Port, echo: Packet, env: Inputs) {
    && SeesOwn(p.state) && env.reception == Received(echo) && Arrives(p, echo, SYNC, 124, 44) && echo.version == 2
    && FromSelf(cfg, echo) && echo.time != ZeroTime
    && p.sent.syncPending && SequenceOf(echo) == p.sent.sync && env.replySent
  }

  /** A version 2 Delay_Req of another port comes in at a MASTER, and it sends the Delay_Resp. */
  predicate Responds(cfg: Config, p: Port, req: Packet, env: Inputs) {
    && p.state == Master && env.reception == Received(req) && Arrives(p, req, DELAY_REQ, 124, 44) && req.version == 2
    && !FromSelf(cfg, req) && ReceiveTime(cfg, req).seconds != 0 && env.replySent
  }

  /** The Follow_Up as the slave gets it. */
  predicate CarriesFollowUp(f: Packet, o: Output) {
    f.version == 2 && o.FollowUpOut? && f.stamp == o.sent && FollowUpNumber(f) == o.sequenceId
  }

  /** The Delay_Resp as the slave gets it. */
  predicate CarriesResponse(resp: Packet, o: Output) {
    resp.version == 2 && o.DelayRespOut? && resp.stamp == o.received && AnswerNumber(resp) == o.sequenceId
    && resp.v2.correction == o.correction && V2Key(resp.v2Requester) == o.requester
  }

  lemma FollowUpSays(cfg: Config, p: Port, echo: Packet, env: Inputs, s: TimeInternal)
    requires FollowsUp(cfg, p, echo, env) && WentOut(cfg, echo, s)
    ensures var q := Handle(cfg, p, env); q.outbox != [] && LastSent(q) == FollowUpOut(SequenceOf(echo), s)
  {
    hide Handle, WentOut, FromSelf, Sum;
    SyncIsFollowedUp(cfg, p, echo, env);
    TimeWentOut(cfg, echo, s);
  }

  lemma ResponseSays(cfg: Config, p: Port, req: Packet, env: Inputs, r: TimeInternal)
    requires Responds(cfg, p, req, env) && CameIn(cfg, req, r)
    ensures var q := Handle(cfg, p, env);
            q.outbox != [] && LastSent(q) == DelayRespOut(Sender(req), SequenceOf(req), r, req.v2.correction)
  {
    hide Handle, CameIn, FromSelf, ReceiveTime;
    MasterAnswers(cfg, p, req, env);
    TimeCameIn(cfg, req, r);
  }

  /** The times of one exchange: the Sync leaves at s and arrives at t2, the request leaves at t3 and arrives at r,
      each by the clock of the port concerned. The link takes d either way, and the slave's clock is ahead by off. */
  datatype Times = Times(s: TimeInternal, t2: TimeInternal, t3: TimeInternal, r: TimeInternal, d: int, off: int)

  /** A Sync with its Follow_Up and a request with its response over that link, with the corrections that were added
      on the way: what the Sync and its Follow_Up carry, and what the request had when it arrived. */
  predicate OverLink(t: Times, syncCorrection: TimeInternal, followUpCorrection: TimeInternal, requestCorrection: TimeInternal) {
    && Transit(t.s, t.t2, syncCorrection, followUpCorrection, t.d + t.off)
    && Transit(t.t3, t.r, requestCorrection, ZeroTime, t.d - t.off) && ServoProperties.Fits(2 * t.d)
    && t.t3.seconds != 0 && t.r.seconds != 0
  }

  /** Whatever latencies the two ports have and corrections are added on the way: the slave finds exactly the delay
      of the link, and before that its offset, up to the delay it knew, smoothed with the sample before. */
  lemma SlaveFindsLink(cfg: Config, p: Port, m: Packet, e0: Inputs, f: Packet, e: Inputs, req: Packet, resp: Packet,
                       e1: Inputs, e2: Inputs, loopBackFirst: bool,
                       mcfg: Config, mp: Port, echo: Packet, me: Inputs, mq: Port, mreq: Packet, mf: Inputs, t: Times)
    requires TakesSync(cfg, p, m, e0) && HasFollowUp(m) && m.version == 2 && CameIn(cfg, m, t.t2)
    requires FollowsUp(mcfg, mp, echo, me) && WentOut(mcfg, echo, t.s)
    requires Handle(mcfg, mp, me).outbox != [] && CarriesFollowUp(f, LastSent(Handle(mcfg, mp, me)))
    requires TakesFollowUp(cfg, Step(cfg, p, e0), f, e)
    requires TakesHalves(cfg, Step(cfg, Step(cfg, p, e0), e), req, resp, e1, e2, loopBackFirst) && WentOut(cfg, req, t.t3)
    requires Responds(mcfg, mq, mreq, mf) && CameIn(mcfg, mreq, t.r)
    requires Handle(mcfg, mq, mf).outbox != [] && CarriesResponse(resp, LastSent(Handle(mcfg, mq, mf)))
    requires OverLink(t, m.v2.correction, f.v2.correction, mreq.v2.correction)
    requires Canonical(p.servo.oneWayDelay) && Abs(t.d + t.off - Nanos(p.servo.oneWayDelay)) < NSEC
    requires p.sync.r == 1 && Wrap16(p.requests + 1) < 1000 && p.delay.t3.seconds == 0 && p.delay.t4.seconds == 0
    ensures var q := Step(cfg, Step(cfg, p, e0), e);
            var w, n := Step(cfg, Step(cfg, q, e1), e2), t.d + t.off - Nanos(p.servo.oneWayDelay);
            && q.servo.offset.seconds == 0 && q.servo.offset.nanoseconds == Smoothed(p.servo.ofm.nsecPrev, n)
            && Found(cfg.servo, p.servo, w.servo, t.d) && !w.delay.sentRequest
  {
    hide TakesSync, TakesFollowUp, TakesHalves, FollowsUp, Responds, CameIn, WentOut, Transit, Step, Handle, Found, Nanos,
         Canonical, HasFollowUp, Wrap16, FromSelf;
    FollowUpSays(mcfg, mp, echo, me, t.s);
    ResponseSays(mcfg, mq, mreq, mf, t.r);
    TwoStepExchangeFindsDelay(cfg, p, m, e0, f, e, req, resp, e1, e2, loopBackFirst, t.t2, t.t3, t.d, t.off);
  }
}
