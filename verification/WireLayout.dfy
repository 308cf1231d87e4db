/** Where everything stands on the wire: the octets of a packed message, written out in their order. */
module WireLayout {
  import opened Octets
  import opened Arith
  import opened V2Bmc
  import opened Msg

  // ----- numbers, high octet first -----

  function Octets16(x: UInteger16): (b: Bytes)
    ensures |b| == 2
  {
    [x / 0x100, x % 0x100]
  }

  function Octets32(x: UInteger32): (b: Bytes)
    ensures |b| == 4
  {
    Octets16(x / 0x1_0000) + Octets16(x % 0x1_0000)
  }

  /** Two's complement. */
  function Octets64(x: Integer64): (b: Bytes)
    ensures |b| == 8
  {
    var u := if x >= 0 then x else x + 0x1_0000_0000_0000_0000;
    Octets32(u / 0x1_0000_0000) + Octets32(u % 0x1_0000_0000)
  }

  function IdentityOctets(id: PortIdentity): (b: Bytes)
    ensures |b| == 10
  {
    id.clock + Octets16(id.port)
  }

  function StampOctets(t: V2Time): (b: Bytes)
    ensures |b| == 10
  {
    var ns := t.time.nanoseconds;
    Octets16(t.epoch) + Octets32(t.time.seconds) + Octets32(if ns >= 0 then ns else ns + 0x1_0000_0000)
  }

  // ----- the header, octets 0 to 33 -----

  function HeaderOctets(h: V2MsgHeader): (b: Bytes)
    requires h.transport < 0x10 && h.kind < 0x10
    ensures |b| == 34
  {
    [h.transport * 0x10 + h.kind, h.version] + Octets16(h.length) + [h.domain, h.reserved2, h.flags.0, h.flags.1]
    + Octets64(h.correction) + Octets32(h.reserved3) + IdentityOctets(h.source) + Octets16(h.sequenceId)
    + [h.control, h.logInterval]
  }

  lemma Stands16(b: Bytes, o: nat)
    requires o + 2 <= |b|
    ensures b[o..o + 2] == Octets16(Read16(b, o))
  {
  }

  lemma Stands32(b: Bytes, o: nat)
    requires o + 4 <= |b|
    ensures b[o..o + 4] == Octets32(Read32(b, o))
  {
    hide Read16, Octets16;
    Stands16(b, o);
    Stands16(b, o + 2);
    assert b[o..o + 4] == b[o..o + 2] + b[o + 2..o + 4];
  }

  lemma Stands64(b: Bytes, o: nat)
    requires o + 8 <= |b|
    ensures b[o..o + 8] == Octets64(Read64(b, o))
  {
    hide Read32, Octets32;
    Stands32(b, o);
    Stands32(b, o + 4);
    assert b[o..o + 8] == b[o..o + 4] + b[o + 4..o + 8];
  }

  lemma StandsIdentity(b: Bytes, o: nat)
    requires o + 10 <= |b|
    ensures b[o..o + 10] == IdentityOctets(ReadIdentity(b, o))
  {
    hide Read16, Octets16;
    Stands16(b, o + 8);
    assert b[o..o + 10] == b[o..o + 8] + b[o + 8..o + 10];
  }

  lemma StandsTime(b: Bytes)
    requires |b| >= 44
    ensures b[34..44] == StampOctets(ReadStamp(b))
  {
    hide Read16, Read32, Octets16, Octets32;
    Stands16(b, 34);
    Stands32(b, 36);
    Stands32(b, 40);
    assert b[34..44] == b[34..36] + b[36..40] + b[40..44];
  }

  /** The header read from a buffer is what its first 34 octets say, each in its place. */
  lemma HeaderStands(b: Bytes)
    requires |b| >= 34
    ensures b[..34] == HeaderOctets(HeaderOf(b))
  {
    hide Read16, Read32, Read64, ReadIdentity, Octets16, Octets32, Octets64, IdentityOctets;
    Stands16(b, 2);
    Stands64(b, 8);
    Stands32(b, 16);
    StandsIdentity(b, 20);
    Stands16(b, 30);
    FirstOctet(b[0]);
    assert b[..34] == [b[0], b[1]] + b[2..4] + [b[4], b[5], b[6], b[7]] + b[8..16] + b[16..20] + b[20..30] + b[30..32]
                      + [b[32], b[33]];
  }

  lemma FirstOctet(x: Octet)
    ensures x / 0x10 * 0x10 + x % 0x10 == x
  {
  }

  // ----- whole messages -----

  /** Octets 44 to 63 of an Announce. */
  function AnnounceOctets(a: AnnounceBody): (b: Bytes)
    ensures |b| == 20
  {
    Octets16(a.utcOffset) + [0]
    + [a.announce.priority1, a.announce.quality.clockClass, a.announce.quality.clockAccuracy]
    + Octets16(a.announce.quality.variance) + [a.announce.priority2] + a.announce.identity
    + Octets16(a.announce.stepsRemoved) + [a.timeSource]
  }

  lemma StandsAnnounce(b: Bytes)
    requires |b| >= 64 && b[46] == 0
    ensures b[44..64] == AnnounceOctets(ReadAnnounce(b))
  {
    hide Read16;
    Stands16(b, 44);
    Stands16(b, 50);
    assert b[44..64] == b[44..46] + [b[46]] + [b[47], b[48], b[49]] + b[50..52] + [b[52]] + b[53..61] + [b[61], b[62]] + [b[63]];
  }

  /** What follows the time stamp. */
  function Rest(m: Message): Bytes {
    if m.AnnounceMessage? then AnnounceOctets(m.body)
    else if NamesRequester(m) then IdentityOctets(m.request.source)
    else if m.PDelayReqMessage? then [0, 0, 0, 0, 0, 0, 0, 0, 0, 0]
    else []
  }

  /** A packed message, octet for octet: its header, its time stamp, the rest, and behind it what was there. */
  lemma MessageStands(was: Bytes, now: Bytes, m: Message)
    requires |was| == |now| >= 64 && Packed(was, now, m)
    ensures var h := HeaderAfter(HeaderOf(was), m);
            h.kind < 0x10 && now == HeaderOctets(h) + StampOctets(m.stamp) + Rest(m) + was[LengthOf(m)..]
  {
    hide HeaderOf, ReadStamp, ReadIdentity, ReadAnnounce, HeaderOctets, StampOctets, IdentityOctets, AnnounceOctets;
    HeaderStands(now);
    StandsTime(now);
    StandsIdentity(now, 44);
    if m.AnnounceMessage? { StandsAnnounce(now); }
    TransportOf(was);
    assert now == now[..34] + now[34..44] + now[44..LengthOf(m)] + now[LengthOf(m)..];
  }

  lemma TransportOf(b: Bytes)
    requires |b| >= 34
    ensures HeaderOf(b).transport < 0x10
  {
  }

  /** Type, length and control field of each message, as the octets 0, 2, 3 and 32 say them, and the flags of
      the two that say whether a Follow_Up is to come. */
  lemma TypeStands(was: Bytes, now: Bytes, m: Message)
    requires |was| == |now| >= 64 && Packed(was, now, m)
    ensures var (kind, length, control) :=
              match m
              case SyncMessage(_, _, _, _, _) => (0x0, 44, 0)
              case DelayReqMessage(_, _, _) => (0x1, 44, 1)
              case PDelayReqMessage(_, _, _) => (0x2, 54, 5)
              case PDelayRespMessage(_, _, _, _) => (0x3, 54, 5)
              case FollowUpMessage(_, _, _, _) => (0x8, 44, 2)
              case DelayRespMessage(_, _, _, _) => (0x9, 54, 3)
              case PDelayRespFollowUpMessage(_, _, _) => (0xA, 54, 5)
              case AnnounceMessage(_, _, _, _, _) => (0xB, 64, 5);
            now[0] == was[0] / 0x10 * 0x10 + kind && now[2] == 0 && now[3] == length && now[32] == control
    ensures m.SyncMessage? ==>
              now[6] == (if m.twoStep then 2 else 0) + (if m.unicast then 4 else 0) && now[7] == 0
              && now[33] == if m.unicast then 0x7F else m.interval
    ensures m.PDelayRespMessage? ==>
              now[6] == (if m.twoStep then 2 else 0) + (if m.unicast then 4 else 0) && now[33] == 0x7F
  {
    hide Read64, Read32, ReadIdentity, ReadStamp, ReadAnnounce, CorrectionOf, SequenceOf, DomainAfter;
  }
}
