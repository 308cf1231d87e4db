/** A slave and its master measuring the delay between them with version 2 messages. */
module TwoNodes {
  import opened Octets
  import opened Arith
  import opened ForeignMasters
  import opened PortTypes
  import opened PortModel
  import Msg

  /** The message as a port sees it after unpacking. */
  predicate Unpacked(m: Packet, b: Bytes)
    requires |b| >= 64
  {
    var h := Msg.HeaderOf(b);
    && m.version == h.version % 0x10 && m.kind == h.kind && m.length == h.length
    && m.v2.source == h.source && m.v2.sequenceId == h.sequenceId
    && m.v2Requester == Msg.ReadIdentity(b, 44) && m.stamp == FromWire(Msg.ReadStamp(b).time)
  }

  /** A Delay_Req of the slave, possibly with a correction added on the way. */
  predicate RequestOf(cfg: Config, p: Port, request: Msg.V2MsgHeader) {
    request.source == Me(cfg) && request.sequenceId == p.delay.sequenceId
  }

  /** The response a master packs to a request, in the buffer it last used for anything. */
  ghost predicate ResponseTo(master: Msg.Node, request: Msg.V2MsgHeader, interval: Octet, received: TimeInternal,
                             halfEpoch: nat, epoch: UInteger16, b: Bytes)
    requires |b| >= 64
  {
    exists was: Bytes :: |was| == |b| && Msg.Stamped(Msg.HeaderOf(was), master)
      && Msg.Packed(was, b, Msg.DelayRespMessage(false, request, interval, Msg.V2Time(epoch, ToWire(received, halfEpoch))))
  }

  /** The slave accepts the response of its parent, the correction comes back as the request brought it,
      and the time of reception arrives unchanged exactly for seconds below INT_MAX. */
  lemma ResponseIsAccepted(cfg: Config, p: Port, master: Msg.Node, request: Msg.V2MsgHeader, interval: Octet,
                           received: TimeInternal, halfEpoch: nat, epoch: UInteger16, b: Bytes, m: Packet)
    requires RequestOf(cfg, p, request) && |b| >= 64
    requires received.seconds >= 0 && received.nanoseconds >= 0 && halfEpoch <= 1
    requires ParentKey(p.parent, true) == V2Key(master.identity)
    requires ResponseTo(master, request, interval, received, halfEpoch, epoch, b) && Unpacked(m, b)
    ensures m.version == 2 && m.kind == DELAY_RESP && m.length == 54 && DelayRespOk(cfg, p, m)
    ensures Msg.HeaderOf(b).correction == request.correction
    ensures m.stamp == received <==> received.seconds < INT_MAX
    ensures p.state == Slave && p.delay.sentRequest && master.identity != Me(cfg) ==>
              HandleDelayResp(cfg, p, m) == UseDelayResp(cfg, p, m)
  {
    hide Msg.HeaderOf, Msg.ReadStamp, Msg.ReadIdentity, ToWire, FromWire, UseDelayResp;
    WireRoundTrip(received, halfEpoch);
  }

  /** The whole exchange over two buffers. */
  method DelayExchange(cfg: Config, ghost p: Port, slaveBuf: array<Octet>, masterBuf: array<Octet>, master: Msg.Node,
                       sequenceId: UInteger16, sent: Msg.V2Time, correction: Msg.Integer64, interval: Octet,
                       received: TimeInternal, halfEpoch: nat, epoch: UInteger16)
    requires slaveBuf != masterBuf && slaveBuf.Length >= 64 && masterBuf.Length >= 64
    requires Msg.HeaderOf(slaveBuf[..]).source == Me(cfg) && Msg.Stamped(Msg.HeaderOf(masterBuf[..]), master)
    requires sequenceId == p.delay.sequenceId && ParentKey(p.parent, true) == V2Key(master.identity)
    requires 0 <= received.seconds < INT_MAX && received.nanoseconds >= 0 && halfEpoch <= 1
    modifies slaveBuf, masterBuf
    ensures forall m: Packet :: Unpacked(m, masterBuf[..]) ==> DelayRespOk(cfg, p, m) && m.stamp == received
    ensures Msg.HeaderOf(masterBuf[..]).correction == correction
  {
    hide Msg.HeaderOf, Msg.ReadStamp, Msg.ReadIdentity, ToWire, FromWire, DelayRespOk, Unpacked, Msg.Stamped;
    Msg.PackV2DelayReq(slaveBuf, Msg.DelayReqMessage(true, sequenceId, sent));
    var request := Msg.HeaderOf(slaveBuf[..]).(correction := correction);
    ghost var was := masterBuf[..];
    Msg.PackV2DelayResp(masterBuf, Msg.DelayRespMessage(false, request, interval, Msg.V2Time(epoch, ToWire(received, halfEpoch))));
    ghost var b := masterBuf[..];
    assert ResponseTo(master, request, interval, received, halfEpoch, epoch, b);
    forall m: Packet | Unpacked(m, b) ensures DelayRespOk(cfg, p, m) && m.stamp == received {
      ResponseIsAccepted(cfg, p, master, request, interval, received, halfEpoch, epoch, b, m);
    }
  }
}
