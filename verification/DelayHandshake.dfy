/** The two halves of a delay measurement may arrive in either order. */
module DelayHandshake {
  import opened Octets
  import opened Arith
  import opened V2Bmc
  import opened Timers
  import opened ForeignMasters
  import opened PortTypes
  import opened PortModel

  /** A SLAVE with a delay request outstanding, of which neither half has arrived. */
  predicate Outstanding(cfg: Config, p: Port) {
    p.state == Slave && !cfg.pdelay && p.delay.sentRequest && p.delay.t3 == ZeroTime && p.delay.t4 == ZeroTime
  }

  /** The request, looped back with its time of transmission. */
  predicate OwnRequest(cfg: Config, m: Packet, time: TimeInternal) {
    FromSelf(cfg, m) && m.length >= (if m.version == 1 then 124 else 44) && time != ZeroTime
  }

  /** The response to it. */
  predicate ItsResponse(cfg: Config, p: Port, m: Packet) {
    !FromSelf(cfg, m) && m.length >= (if m.version == 1 then 60 else 54) && DelayRespOk(cfg, p, m)
  }

  function Correction(m: Packet): TimeInternal {
    if m.version == 1 then ZeroTime else m.v2.correction
  }

  function RequestFirst(cfg: Config, p: Port, req: Packet, time: TimeInternal, resp: Packet, env: Inputs): Port {
    HandleDelayResp(cfg, HandleDelayReq(cfg, p, req, time, env), resp)
  }

  function ResponseFirst(cfg: Config, p: Port, req: Packet, time: TimeInternal, resp: Packet, env: Inputs): Port {
    HandleDelayReq(cfg, HandleDelayResp(cfg, p, resp), req, time, env)
  }

  /** The delay has been measured once, with both times and the correction, and the request is done with. */
  function AfterMeasuring(cfg: Config, p: Port, time: TimeInternal, resp: Packet): Port {
    p.(servo := ServoDelay(cfg.servo, p.servo, Sum(time, cfg.outboundLatency), resp.stamp, Correction(resp)),
       delay := p.delay.(t3 := ZeroTime, t4 := ZeroTime, respCorrection := ZeroTime, sentRequest := false))
  }

  /** The port without its history of measurements. */
  function Forgetful(p: Port): Port {
    p.(measures := [])
  }

  /** With one half there, only the other is missing. */
  function Waiting(p: Port, t3: TimeInternal, resp: Packet): Port {
    p.(delay := p.delay.(t3 := t3, t4 := resp.stamp, respCorrection := Correction(resp)))
  }

  lemma OrderRequestFirst(cfg: Config, p: Port, req: Packet, time: TimeInternal, resp: Packet, env: Inputs)
    requires Outstanding(cfg, p) && OwnRequest(cfg, req, time) && ItsResponse(cfg, p, resp)
    ensures var t3 := Sum(time, cfg.outboundLatency);
            Forgetful(RequestFirst(cfg, p, req, time, resp, env)) ==
            Forgetful(if t3.seconds != 0 then AfterMeasuring(cfg, p, time, resp) else Waiting(p, t3, resp))
  {
    hide Sum, ServoDelay;
  }

  lemma OrderResponseFirst(cfg: Config, p: Port, req: Packet, time: TimeInternal, resp: Packet, env: Inputs)
    requires Outstanding(cfg, p) && OwnRequest(cfg, req, time) && ItsResponse(cfg, p, resp)
    ensures var t3 := Sum(time, cfg.outboundLatency);
            Forgetful(ResponseFirst(cfg, p, req, time, resp, env)) ==
            Forgetful(if resp.stamp.seconds != 0 then AfterMeasuring(cfg, p, time, resp) else Waiting(p, t3, resp))
  {
    hide Sum, ServoDelay;
  }

  /** The order makes no difference exactly if both times have non-zero seconds, or neither; with
      non-zero seconds the delay is measured exactly once either way. */
  lemma OrderOfHalves(cfg: Config, p: Port, req: Packet, time: TimeInternal, resp: Packet, env: Inputs)
    requires Outstanding(cfg, p) && OwnRequest(cfg, req, time) && ItsResponse(cfg, p, resp)
    ensures var t3, t4 := Sum(time, cfg.outboundLatency), resp.stamp;
            var a := Forgetful(RequestFirst(cfg, p, req, time, resp, env));
            var b := Forgetful(ResponseFirst(cfg, p, req, time, resp, env));
            && (a == b <==> (t3.seconds != 0 <==> t4.seconds != 0))
            && (t3.seconds != 0 && t4.seconds != 0 ==> a == b == Forgetful(AfterMeasuring(cfg, p, time, resp)))
  {
    hide Sum, ServoDelay, RequestFirst, ResponseFirst;
    OrderRequestFirst(cfg, p, req, time, resp, env);
    OrderResponseFirst(cfg, p, req, time, resp, env);
  }

  /** Once measured, a second copy of either half measures nothing. */
  lemma MeasuredOnce(cfg: Config, p: Port, req: Packet, time: TimeInternal, resp: Packet, env: Inputs)
    requires Outstanding(cfg, p) && OwnRequest(cfg, req, time)
    ensures var q := AfterMeasuring(cfg, p, time, resp);
            && (resp.length >= (if resp.version == 1 then 60 else 54) ==> HandleDelayResp(cfg, q, resp).servo == q.servo)
            && HandleDelayReq(cfg, q, req, time, env).servo == q.servo
  {
    hide Sum, ServoDelay;
  }

  /** A response counts exactly if it comes from the parent, not from the port itself, to a request that is
      outstanding, with its sequence number and the identity of the port. */
  lemma OnlyItsResponseCounts(cfg: Config, p: Port, m: Packet)
    requires m.length >= (if m.version == 1 then 60 else 54) && p.delay.t3.seconds != 0
    ensures HandleDelayResp(cfg, p, m) != p <==>
            && p.state == Slave && p.delay.sentRequest && !FromSelf(cfg, m)
            && (if m.version == 1 then m.requestSequence else m.v2.sequenceId) == p.delay.sequenceId
            && (if m.version == 1 then m.requester == V1Key(cfg.technology, cfg.uuid, cfg.portId)
                else m.v2Requester == PortIdentity(cfg.clockIdentity, cfg.portId))
            && Sender(m) == ParentKey(p.parent, m.version != 1)
  {
    hide ServoDelay, Sender, ParentKey, FromSelf;
    assert UseDelayResp(cfg, p, m).delay.t3 == ZeroTime;
  }

  /** A port that has just become SLAVE starts with both halves missing. */
  lemma FirstRequestIsOutstanding(cfg: Config, p: Port, random: UInteger16)
    requires !cfg.pdelay
    ensures Outstanding(cfg, IssueDelayReq(cfg, ToState(cfg, p, Slave, random), true))
  {
    hide ServoInit, Started, Stopped, ReceiptTimeout;
  }

  // ----- a request issued while halves of an earlier one are there -----

  /** The first half of a request to come is measured with the other half of an earlier request exactly if
      that one is there, with seconds, when the request is issued; and then it is used up. */
  lemma EarlierHalfIsUsed(cfg: Config, p: Port, req: Packet, time: TimeInternal, resp: Packet, env: Inputs)
    requires p.state == Slave && !cfg.pdelay && OwnRequest(cfg, req, time)
    requires ItsResponse(cfg, IssueDelayReq(cfg, p, true), resp)
    ensures var q, t3 := IssueDelayReq(cfg, p, true), Sum(time, cfg.outboundLatency);
            var a, b := HandleDelayReq(cfg, q, req, time, env), HandleDelayResp(cfg, q, resp);
            && a.measures == q.measures + [LoopedBack(SequenceOf(req), t3)]
                             + (if p.delay.t4.seconds != 0 then [Measured(t3, p.delay.t4, p.delay.respCorrection)] else [])
            && a.servo == (if p.delay.t4.seconds != 0 then ServoDelay(cfg.servo, p.servo, t3, p.delay.t4, p.delay.respCorrection)
                           else p.servo)
            && b.measures == q.measures + [Answered(AnswerNumber(resp), resp.stamp, Correction(resp))]
                             + (if p.delay.t3.seconds != 0 then [Measured(p.delay.t3, resp.stamp, Correction(resp))] else [])
            && b.servo == (if p.delay.t3.seconds != 0 then ServoDelay(cfg.servo, p.servo, p.delay.t3, resp.stamp, Correction(resp))
                           else p.servo)
  {
    hide Sum, ServoDelay;
  }
}
