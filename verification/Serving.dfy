/** What a port sends to others because of what it receives: the master's half of the exchanges. */
module Serving {
  import opened Octets
  import opened Arith
  import opened Timers
  import opened ForeignMasters
  import opened PortTypes
  import opened PortModel

  /** The technologies of a version 1 message and the port agree; 255 agrees with every other. */
  predicate Agree(cfg: Config, m: Packet) {
    m.version != 1 || m.header.technology == cfg.technology || m.header.technology == 255 || cfg.technology == 255
  }

  /** A message of this kind, of either version and long enough for it. */
  predicate Arrives(p: Port, m: Packet, kind: nat, v1Length: int, v2Length: int) {
    && (m.version == 1 || m.version == 2) && KindOf(m, p.kind) == kind
    && m.length >= 40 && m.length >= (if m.version == 1 then v1Length else v2Length)
  }

  /** What becomes of a port that sends one message. */
  predicate Sends(p: Port, q: Port, o: Output, ok: bool) {
    if ok then q == p.(outbox := p.outbox + [o]) else q.state == Faulty && q.outbox == p.outbox
  }

  lemma SendingOrFaulty(cfg: Config, p: Port, o: Output, ok: bool)
    ensures Sends(p, Reply(cfg, p, o, ok), o, ok)
  {
    hide ServoInit, Started, Stopped, ReceiptTimeout;
  }

  /** A MASTER answers exactly the requests of others that agree in technology and have a time of reception with
      seconds: with their number, their sender, the time they were received, and under version 2 their
      correction. An answer that cannot be sent leaves it FAULTY. Any other request changes nothing. */
  lemma MasterAnswers(cfg: Config, p: Port, m: Packet, env: Inputs)
    requires p.state == Master && env.reception == Received(m) && Arrives(p, m, DELAY_REQ, 124, 44)
    ensures var q, t := p.(kind := DELAY_REQ), ReceiveTime(cfg, m);
            var o := DelayRespOut(Sender(m), SequenceOf(m), t, if m.version == 1 then ZeroTime else m.v2.correction);
            if !FromSelf(cfg, m) && Agree(cfg, m) && t.seconds != 0 then Sends(q, Handle(cfg, p, env), o, env.replySent)
            else Handle(cfg, p, env) == q
  {
    hide ToFaulty, FromSelf, ReceiveTime, KindOf, Sender, SequenceOf;
    SendingOrFaulty(cfg, p.(kind := DELAY_REQ),
                    DelayRespOut(Sender(m), SequenceOf(m), ReceiveTime(cfg, m), if m.version == 1 then ZeroTime else m.v2.correction),
                    env.replySent);
  }

  /** States that take up a Sync of their own. */
  predicate SeesOwn(s: PortState) {
    s == Listening || s == Passive || s == Master || s == PreMaster
  }

  /** A Sync of the port itself that comes back is followed up exactly if one is pending and has this number: with
      this number and the time it was sent, latency included; and then none is pending. */
  lemma SyncIsFollowedUp(cfg: Config, p: Port, m: Packet, env: Inputs)
    requires SeesOwn(p.state) && env.reception == Received(m) && Arrives(p, m, SYNC, 124, 44)
    requires FromSelf(cfg, m) && m.time != ZeroTime
    ensures var q := p.(kind := SYNC);
            if p.sent.syncPending && SequenceOf(m) == p.sent.sync then
              Sends(q.(sent := q.sent.(syncPending := false)), Handle(cfg, p, env),
                    FollowUpOut(p.sent.sync, Sum(m.time, cfg.outboundLatency)), env.replySent)
            else Handle(cfg, p, env) == q
  {
    hide ToFaulty, KindOf, Sum;
    SendingOrFaulty(cfg, p.(kind := SYNC, sent := p.sent.(syncPending := false)),
                    FollowUpOut(p.sent.sync, Sum(m.time, cfg.outboundLatency)), env.replySent);
  }

  // ----- the delay to a peer, asked by the peer -----

  /** Every Pdelay_Req of another port is answered, in every state from LISTENING on, with its number and the time
      it was received; its header is kept. */
  lemma PeerIsAnswered(cfg: Config, p: Port, m: Packet, env: Inputs)
    requires Active(p.state) && env.reception == Received(m) && Arrives(p, m, PDELAY_REQ, 54, 54)
    requires !FromSelf(cfg, m) && ReceiveTime(cfg, m) != ZeroTime
    ensures var kept := PeerRequest(m.v2.source, m.v2.sequenceId, m.v2.correction);
            Sends(p.(kind := PDELAY_REQ, sent := p.sent.(peer := kept)), Handle(cfg, p, env),
                  PDelayRespOut(m.v2.source, m.v2.sequenceId, ReceiveTime(cfg, m)), env.replySent)
  {
    hide ToFaulty, FromSelf, KindOf, ReceiveTime;
    SendingOrFaulty(cfg, Asked(p.(kind := PDELAY_REQ), m), PDelayRespOut(m.v2.source, m.v2.sequenceId, ReceiveTime(cfg, m)),
                    env.replySent);
  }

  /** When the response comes back, the header kept is followed up with the time the response was sent. */
  lemma PeerIsFollowedUp(cfg: Config, p: Port, m: Packet, env: Inputs)
    requires Active(p.state) && env.reception == Received(m) && Arrives(p, m, PDELAY_RESP, 54, 54)
    requires FromSelf(cfg, m) && m.time != ZeroTime
    ensures var t := Sum(m.time, cfg.outboundLatency);
            Sends(p.(kind := PDELAY_RESP, delay := p.delay.(peer := p.delay.peer.(t3 := t))), Handle(cfg, p, env),
                  PDelayRespFollowUpOut(p.sent.peer, t), env.replySent)
  {
    hide ToFaulty, KindOf, Sum;
    var t := Sum(m.time, cfg.outboundLatency);
    SendingOrFaulty(cfg, p.(kind := PDELAY_RESP, delay := p.delay.(peer := p.delay.peer.(t3 := t))),
                    PDelayRespFollowUpOut(p.sent.peer, t), env.replySent);
  }

  /** Only one header is kept: if a second peer asks before the response to the first has come back, the Follow_Up
      for that response goes to the second, with the number of the second. */
  lemma SecondPeerIsFollowedUp(cfg: Config, p: Port, a: Packet, b: Packet, echo: Packet, e1: Inputs, e2: Inputs, e3: Inputs)
    requires Active(p.state) && e1.replySent && e2.replySent && e3.replySent
    requires e1.reception == Received(a) && e2.reception == Received(b) && e3.reception == Received(echo)
    requires Arrives(p, a, PDELAY_REQ, 54, 54) && !FromSelf(cfg, a) && ReceiveTime(cfg, a) != ZeroTime
    requires b.version == 2 && Arrives(p, b, PDELAY_REQ, 54, 54) && !FromSelf(cfg, b) && ReceiveTime(cfg, b) != ZeroTime
    requires echo.version == 2 && Arrives(p, echo, PDELAY_RESP, 54, 54) && FromSelf(cfg, echo) && echo.time != ZeroTime
    requires echo.v2.sequenceId == a.v2.sequenceId
    ensures Handle(cfg, Handle(cfg, Handle(cfg, p, e1), e2), e3).outbox == p.outbox
            + [PDelayRespOut(a.v2.source, a.v2.sequenceId, ReceiveTime(cfg, a))]
            + [PDelayRespOut(b.v2.source, b.v2.sequenceId, ReceiveTime(cfg, b))]
            + [PDelayRespFollowUpOut(PeerRequest(b.v2.source, b.v2.sequenceId, b.v2.correction),
                                     Sum(echo.time, cfg.outboundLatency))]
  {
    hide Handle, FromSelf, ReceiveTime, Sum;
    PeerIsAnswered(cfg, p, a, e1);
    var q := Handle(cfg, p, e1);
    PeerIsAnswered(cfg, q, b, e2);
    PeerIsFollowedUp(cfg, Handle(cfg, q, e2), echo, e3);
  }
}
