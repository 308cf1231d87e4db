/** The wire format of src/dep/msg.c: messages packed into a shared buffer whose header is written once,
    and the way back. Numbers are in network byte order. */
module Msg {
  import opened Octets
  import opened Arith
  import opened V2Bmc
  import opened PortModel

  const V2_SYNC_LENGTH := 44
  const V2_DELAY_REQ_LENGTH := 44
  const V2_FOLLOW_UP_LENGTH := 44
  const V2_DELAY_RESP_LENGTH := 54
  const V2_PDELAY_LENGTH := 54
  const V2_ANNOUNCE_LENGTH := 64

  const UNICAST_FLAG := 0x04
  const TWO_STEP_FLAG := 0x02
  const LOGMEAN := 0x7F
  const OTHER_CONTROL := 5

  type Integer64 = x: int | -0x8000_0000_0000_0000 <= x < 0x8000_0000_0000_0000

  // ----- numbers in the buffer -----

  function Read16(b: Bytes, o: nat): UInteger16
    requires o + 2 <= |b|
  {
    var high: UInteger16 := b[o];
    high * 0x100 + b[o + 1]
  }

  function Read32(b: Bytes, o: nat): UInteger32
    requires o + 4 <= |b|
  {
    Read16(b, o) * 0x1_0000 + Read16(b, o + 2)
  }

  /** Two's complement. */
  function Signed32(x: UInteger32): Integer32 {
    if x < 0x8000_0000 then x else x - 0x1_0000_0000
  }

  function Read64(b: Bytes, o: nat): Integer64
    requires o + 8 <= |b|
  {
    Signed32(Read32(b, o)) * 0x1_0000_0000 + Read32(b, o + 4)
  }

  function ReadIdentity(b: Bytes, o: nat): PortIdentity
    requires o + 10 <= |b|
  {
    PortIdentity(b[o..o + 8], Read16(b, o + 8))
  }

  datatype V2Time = V2Time(epoch: UInteger16, time: TimeRepresentation)

  function ReadTime(b: Bytes, o: nat): TimeRepresentation
    requires o + 8 <= |b|
  {
    TimeRepresentation(Read32(b, o), Signed32(Read32(b, o + 4)))
  }

  function ReadStamp(b: Bytes): V2Time
    requires |b| >= 44
  {
    V2Time(Read16(b, 34), ReadTime(b, 36))
  }

  /** Nothing but the n octets from o on has changed. */
  ghost predicate Only(was: Bytes, now: Bytes, o: nat, n: nat) {
    |now| == |was| && forall i :: 0 <= i < |now| && !(o <= i < o + n) ==> now[i] == was[i]
  }

  method Put16(buf: array<Octet>, o: nat, x: UInteger16)
    requires o + 2 <= buf.Length
    modifies buf
    ensures Read16(buf[..], o) == x && Only(old(buf[..]), buf[..], o, 2)
  {
    buf[o] := x / 0x100;
    buf[o + 1] := x % 0x100;
  }

  method Put32(buf: array<Octet>, o: nat, x: UInteger32)
    requires o + 4 <= buf.Length
    modifies buf
    ensures Read32(buf[..], o) == x && Only(old(buf[..]), buf[..], o, 4)
  {
    hide Read16;
    Put16(buf, o, x / 0x1_0000);
    ghost var half := buf[..];
    Put16(buf, o + 2, x % 0x1_0000);
    SameRead16(half, buf[..], o);
  }

  lemma SameRead16(a: Bytes, b: Bytes, o: nat)
    requires o + 2 <= |a| == |b| && a[o] == b[o] && a[o + 1] == b[o + 1]
    ensures Read16(a, o) == Read16(b, o)
  {
  }

  lemma SameRead32(a: Bytes, b: Bytes, o: nat)
    requires o + 4 <= |a| == |b| && a[o..o + 4] == b[o..o + 4]
    ensures Read32(a, o) == Read32(b, o)
  {
    var s, t := a[o..o + 4], b[o..o + 4];
    assert s[0] == a[o] && s[1] == a[o + 1] && s[2] == a[o + 2] && s[3] == a[o + 3];
    assert t[0] == b[o] && t[1] == b[o + 1] && t[2] == b[o + 2] && t[3] == b[o + 3];
  }

  function Unsigned32(x: Integer32): (r: UInteger32)
    ensures Signed32(r) == x
  {
    if x >= 0 then x else x + 0x1_0000_0000
  }

  method PutTime(buf: array<Octet>, o: nat, t: TimeRepresentation)
    requires o + 8 <= buf.Length
    modifies buf
    ensures ReadTime(buf[..], o) == t && Only(old(buf[..]), buf[..], o, 8)
  {
    hide Read32;
    Put32(buf, o, t.seconds);
    ghost var half := buf[..];
    Put32(buf, o + 4, Unsigned32(t.nanoseconds));
    assert half[o..o + 4] == buf[..][o..o + 4];
    SameRead32(half, buf[..], o);
  }

  method PutStamp(buf: array<Octet>, t: V2Time)
    requires buf.Length >= 64
    modifies buf
    ensures ReadStamp(buf[..]) == t && Only(old(buf[..]), buf[..], 34, 10)
  {
    hide Read16, ReadTime;
    Put16(buf, 34, t.epoch);
    ghost var half := buf[..];
    PutTime(buf, 36, t.time);
    SameRead16(half, buf[..], 34);
  }

  /** The two halves of a 64-bit number, the high one first. */
  method Put64(buf: array<Octet>, o: nat, x: Integer64)
    requires o + 8 <= buf.Length
    modifies buf
    ensures Read64(buf[..], o) == x && Only(old(buf[..]), buf[..], o, 8)
  {
    hide Read32;
    Put32(buf, o, Unsigned32(x / 0x1_0000_0000));
    ghost var half := buf[..];
    Put32(buf, o + 4, x % 0x1_0000_0000);
    assert half[o..o + 4] == buf[..][o..o + 4];
    SameRead32(half, buf[..], o);
  }

  method PutClock(buf: array<Octet>, o: nat, clock: ClockIdentity)
    requires o + 8 <= buf.Length
    modifies buf
    ensures buf[..][o..o + 8] == clock && Only(old(buf[..]), buf[..], o, 8)
  {
    for k := 0 to 8
      invariant forall i :: 0 <= i < k ==> buf[o + i] == clock[i]
      invariant forall i :: 0 <= i < buf.Length && !(o <= i < o + 8) ==> buf[i] == old(buf[i])
    {
      buf[o + k] := clock[k];
    }
  }

  method PutIdentity(buf: array<Octet>, o: nat, id: PortIdentity)
    requires o + 10 <= buf.Length
    modifies buf
    ensures ReadIdentity(buf[..], o) == id && Only(old(buf[..]), buf[..], o, 10)
  {
    hide Read16;
    PutClock(buf, o, id.clock);
    ghost var half := buf[..];
    Put16(buf, o + 8, id.port);
    assert buf[..][o..o + 8] == half[o..o + 8];
  }

  // ----- the common header -----

  /** What msgUnpackV2Header reads. */
  datatype V2MsgHeader = V2MsgHeader(transport: Octet, kind: Octet, version: Octet, length: UInteger16, domain: Octet,
                                     reserved2: Octet, flags: (Octet, Octet), correction: Integer64, reserved3: UInteger32,
                                     source: PortIdentity, sequenceId: UInteger16, control: Octet, logInterval: Octet)

  function HeaderOf(b: Bytes): V2MsgHeader
    requires |b| >= 34
  {
    V2MsgHeader(b[0] / 0x10, b[0] % 0x10, b[1], Read16(b, 2), b[4], b[5], (b[6], b[7]), Read64(b, 8), Read32(b, 16),
                ReadIdentity(b, 20), Read16(b, 30), b[32], b[33])
  }

  /** Who sends: the first octet of the header, the domain and the port identity. */
  datatype Node = Node(transportSpecific: Octet, domain: Octet, identity: PortIdentity)

  /** The header is written once; type, length, correction, sequence number, control and interval are left
      to the messages. */
  method PackV2Header(buf: array<Octet>, node: Node)
    requires buf.Length >= 64
    modifies buf
    ensures var h := HeaderOf(buf[..]);
            h == HeaderOf(old(buf[..])).(transport := node.transportSpecific / 0x10, kind := node.transportSpecific % 0x10,
                                         version := 2, domain := node.domain, reserved2 := 0, flags := (0, 0),
                                         reserved3 := 0, source := node.identity)
    ensures buf[34..] == old(buf[34..])
  {
    hide Read16, Read32, Read64, ReadIdentity;
    ghost var was := buf[..];
    buf[0] := node.transportSpecific;
    buf[1] := 2;
    buf[4], buf[5], buf[6], buf[7] := node.domain, 0, 0, 0;
    Put32(buf, 16, 0);
    ghost var half := buf[..];
    PutIdentity(buf, 20, node.identity);
    SameRead32(half, buf[..], 16);
    SameRead16(was, buf[..], 2);
    SameRead16(was, buf[..], 30);
    SameRead64(was, buf[..], 8);
  }

  lemma SameRead64(a: Bytes, b: Bytes, o: nat)
    requires o + 8 <= |a| == |b| && a[o..o + 8] == b[o..o + 8]
    ensures Read64(a, o) == Read64(b, o)
  {
    hide Read32;
    assert a[o..o + 4] == a[o..o + 8][..4] && b[o..o + 4] == b[o..o + 8][..4];
    assert a[o + 4..o + 8] == a[o..o + 8][4..] && b[o + 4..o + 8] == b[o..o + 8][4..];
    SameRead32(a, b, o);
    SameRead32(a, b, o + 4);
  }

  // ----- the messages -----

  /** The part of an Announce behind its time stamp. */
  datatype AnnounceBody = AnnounceBody(utcOffset: UInteger16, announce: Announce, timeSource: Octet)

  datatype Message =
    | AnnounceMessage(sequenceId: UInteger16, interval: Octet, properties: Octet, stamp: V2Time, body: AnnounceBody)
    | SyncMessage(unicast: bool, twoStep: bool, sequenceId: UInteger16, interval: Octet, stamp: V2Time)
    | DelayReqMessage(unicast: bool, sequenceId: UInteger16, stamp: V2Time)
    | PDelayReqMessage(unicast: bool, sequenceId: UInteger16, stamp: V2Time)
    | FollowUpMessage(unicast: bool, sequenceId: UInteger16, interval: Octet, stamp: V2Time)
    | DelayRespMessage(unicast: bool, request: V2MsgHeader, interval: Octet, stamp: V2Time)
    | PDelayRespMessage(unicast: bool, twoStep: bool, request: V2MsgHeader, stamp: V2Time)
    | PDelayRespFollowUpMessage(unicast: bool, request: V2MsgHeader, stamp: V2Time)

  function KindOf(m: Message): Octet {
    match m
    case AnnounceMessage(_, _, _, _, _) => ANNOUNCE
    case SyncMessage(_, _, _, _, _) => SYNC
    case DelayReqMessage(_, _, _) => DELAY_REQ
    case PDelayReqMessage(_, _, _) => PDELAY_REQ
    case FollowUpMessage(_, _, _, _) => FOLLOW_UP
    case DelayRespMessage(_, _, _, _) => DELAY_RESP
    case PDelayRespMessage(_, _, _, _) => PDELAY_RESP
    case PDelayRespFollowUpMessage(_, _, _) => PDELAY_RESP_FOLLOW_UP
  }

  function LengthOf(m: Message): UInteger16 {
    match m
    case AnnounceMessage(_, _, _, _, _) => V2_ANNOUNCE_LENGTH
    case SyncMessage(_, _, _, _, _) => V2_SYNC_LENGTH
    case DelayReqMessage(_, _, _) => V2_DELAY_REQ_LENGTH
    case PDelayReqMessage(_, _, _) => V2_PDELAY_LENGTH
    case FollowUpMessage(_, _, _, _) => V2_FOLLOW_UP_LENGTH
    case DelayRespMessage(_, _, _, _) => V2_DELAY_RESP_LENGTH
    case PDelayRespMessage(_, _, _, _) => V2_PDELAY_LENGTH
    case PDelayRespFollowUpMessage(_, _, _) => V2_PDELAY_LENGTH
  }

  /** A response carries the sequence number of its request. */
  function SequenceOf(m: Message): UInteger16 {
    if m.DelayRespMessage? || m.PDelayRespMessage? || m.PDelayRespFollowUpMessage? then m.request.sequenceId
    else m.sequenceId
  }

  /** Delay_Resp and Pdelay_Resp_Follow_Up echo the correction of the request. */
  function CorrectionOf(m: Message): Integer64 {
    if m.DelayRespMessage? || m.PDelayRespFollowUpMessage? then m.request.correction else 0
  }

  function ControlOf(m: Message): Octet {
    match m
    case SyncMessage(_, _, _, _, _) => 0
    case DelayReqMessage(_, _, _) => 1
    case FollowUpMessage(_, _, _, _) => 2
    case DelayRespMessage(_, _, _, _) => 3
    case _ => OTHER_CONTROL
  }

  function IntervalOf(m: Message): Octet {
    match m
    case AnnounceMessage(_, interval, _, _, _) => interval
    case SyncMessage(unicast, _, _, interval, _) => if unicast then LOGMEAN else interval
    case FollowUpMessage(unicast, _, interval, _) => if unicast then LOGMEAN else interval
    case DelayRespMessage(unicast, _, interval, _) => if unicast then LOGMEAN else interval
    case _ => LOGMEAN
  }

  function Unicast(unicast: bool): Octet {
    if unicast then UNICAST_FLAG else 0
  }

  /** A flag octet with the unicast bit set. */
  function WithUnicast(flags: Octet): Octet {
    if flags / UNICAST_FLAG % 2 == 0 then flags + UNICAST_FLAG else flags
  }

  function TwoStep(twoStep: bool): Octet {
    if twoStep then TWO_STEP_FLAG else 0
  }

  /** Follow_Up keeps the flags of the message before, and the peer responses the second octet of them. */
  function FlagsAfter(flags: (Octet, Octet), m: Message): (Octet, Octet) {
    match m
    case AnnounceMessage(_, _, properties, _, _) => (0, properties)
    case SyncMessage(unicast, twoStep, _, _, _) => (TwoStep(twoStep) + Unicast(unicast), 0)
    case FollowUpMessage(unicast, _, _, _) => if unicast then (WithUnicast(flags.0), flags.1) else flags
    case PDelayRespMessage(unicast, twoStep, _, _) => (TwoStep(twoStep) + Unicast(unicast), flags.1)
    case PDelayRespFollowUpMessage(unicast, _, _) => (Unicast(unicast), flags.1)
    case _ => (Unicast(m.unicast), 0)
  }

  /** A response goes out in the domain of its request, and so does everything packed after it. */
  function DomainAfter(domain: Octet, m: Message): Octet {
    if m.DelayRespMessage? || m.PDelayRespMessage? || m.PDelayRespFollowUpMessage? then m.request.domain else domain
  }

  /** The header after a message has been packed. */
  function HeaderAfter(h: V2MsgHeader, m: Message): V2MsgHeader {
    h.(kind := KindOf(m), length := LengthOf(m), domain := DomainAfter(h.domain, m), flags := FlagsAfter(h.flags, m),
       correction := CorrectionOf(m), sequenceId := SequenceOf(m), control := ControlOf(m), logInterval := IntervalOf(m))
  }

  /** The port whose request is answered. */
  predicate NamesRequester(m: Message) {
    m.DelayRespMessage? || m.PDelayRespMessage? || m.PDelayRespFollowUpMessage?
  }

  /** The assignments to the header that all pack routines make. */
  method PackHead(buf: array<Octet>, kind: Octet, length: UInteger16, correction: Integer64, sequenceId: UInteger16,
                  control: Octet, interval: Octet)
    requires buf.Length >= 64 && kind < 0x10
    modifies buf
    ensures HeaderOf(buf[..]) == HeaderOf(old(buf[..])).(kind := kind, length := length, correction := correction,
                                   sequenceId := sequenceId, control := control, logInterval := interval)
    ensures buf[34..] == old(buf[34..])
  {
    hide Read16, Read32, Read64;
    ghost var was := buf[..];
    buf[0] := buf[0] / 0x10 * 0x10 + kind;
    Put16(buf, 2, length);
    ghost var a := buf[..];
    Put64(buf, 8, correction);
    ghost var b := buf[..];
    Put16(buf, 30, sequenceId);
    ghost var c := buf[..];
    buf[32], buf[33] := control, interval;
    SameRead16(a, buf[..], 2);
    SameRead64(b, buf[..], 8);
    SameRead32(was, buf[..], 16);
    SameRead16(was, buf[..], 28);
    SameRead16(c, buf[..], 30);
    assert buf[..][20..28] == was[20..28];
  }

  function ReadAnnounce(b: Bytes): AnnounceBody
    requires |b| >= 64
  {
    var high: UInteger16 := b[61];
    AnnounceBody(Read16(b, 44),
                 Announce(b[53..61], b[47], Quality(b[48], b[49], Read16(b, 50)), b[52], high * 0x100 + b[62]),
                 b[63])
  }

  /** A message has been packed over the one before; the octets behind it are as they were. */
  ghost predicate Packed(was: Bytes, now: Bytes, m: Message)
    requires |was| == |now| >= 64
  {
    && HeaderOf(now) == HeaderAfter(HeaderOf(was), m) && ReadStamp(now) == m.stamp
    && (NamesRequester(m) ==> ReadIdentity(now, 44) == m.request.source)
    && (m.AnnounceMessage? ==> ReadAnnounce(now) == m.body)
    && (m.AnnounceMessage? ==> now[46] == 0)
    && (m.PDelayReqMessage? ==> forall i :: 44 <= i < 54 ==> now[i] == 0)
    && now[LengthOf(m)..] == was[LengthOf(m)..]
  }

  lemma SameHeader(a: Bytes, b: Bytes)
    requires 34 <= |a| == |b| && a[..34] == b[..34]
    ensures HeaderOf(a) == HeaderOf(b)
  {
    hide Read16, Read32, Read64;
    forall i | 0 <= i < 34 ensures a[i] == b[i] { assert a[i] == a[..34][i] && b[i] == b[..34][i]; }
    SameRead16(a, b, 2);
    SameRead16(a, b, 28);
    SameRead16(a, b, 30);
    SameRead32(a, b, 16);
    SameRead64(a, b, 8);
    assert a[20..28] == b[20..28];
  }

  lemma FlagsOnly(a: Bytes, b: Bytes)
    requires 34 <= |a| == |b| && forall i :: 0 <= i < 34 && i != 4 && i != 6 && i != 7 ==> a[i] == b[i]
    ensures HeaderOf(b) == HeaderOf(a).(domain := b[4], flags := (b[6], b[7]))
  {
    SameHeader(a[4 := b[4]][6 := b[6]][7 := b[7]], b);
    hide Read16, Read32, Read64;
    var c := a[4 := b[4]][6 := b[6]][7 := b[7]];
    SameRead16(a, c, 2);
    SameRead16(a, c, 28);
    SameRead16(a, c, 30);
    SameRead32(a, c, 16);
    SameRead64(a, c, 8);
    assert a[20..28] == c[20..28];
  }

  /** Behind the message nothing has changed. */
  lemma TailKept(was: Bytes, head: Bytes, now: Bytes, length: nat)
    requires 34 <= length <= |was| == |head| == |now| && head[34..] == was[34..]
    requires forall i :: length <= i < |now| ==> now[i] == head[i]
    ensures now[length..] == was[length..]
  {
    forall i | length <= i < |now| ensures head[i] == was[i] {
      assert head[i] == head[34..][i - 34] && was[i] == was[34..][i - 34];
    }
  }

  method PackAnnounce(buf: array<Octet>, m: Message)
    requires buf.Length >= 64 && m.AnnounceMessage?
    modifies buf
    ensures Packed(old(buf[..]), buf[..], m)
  {
    hide Read16, Read32, Read64, ReadIdentity, ReadStamp, ReadAnnounce;
    ghost var was := buf[..];
    PackHead(buf, ANNOUNCE, V2_ANNOUNCE_LENGTH, 0, m.sequenceId, OTHER_CONTROL, m.interval);
    ghost var head := buf[..];
    buf[6], buf[7] := 0, m.properties;
    FlagsOnly(head, buf[..]);
    ghost var flagged := buf[..];
    PutStamp(buf, m.stamp);
    PutAnnounce(buf, m.body);
    SameHeader(flagged, buf[..]);
    TailKept(was, head, buf[..], LengthOf(m));
  }

  /** Octets 44 to 52. */
  predicate ReadsQuality(b: Bytes, body: AnnounceBody)
    requires |b| >= 64
  {
    && Read16(b, 44) == body.utcOffset && b[46] == 0 && b[47] == body.announce.priority1
    && b[48] == body.announce.quality.clockClass && b[49] == body.announce.quality.clockAccuracy
    && Read16(b, 50) == body.announce.quality.variance && b[52] == body.announce.priority2
  }

  method PutQuality(buf: array<Octet>, body: AnnounceBody)
    requires buf.Length >= 64
    modifies buf
    ensures ReadsQuality(buf[..], body) && Only(old(buf[..]), buf[..], 44, 9)
  {
    hide Read16;
    var a := body.announce;
    Put16(buf, 44, body.utcOffset);
    ghost var half := buf[..];
    buf[46] := 0;
    buf[47], buf[48], buf[49] := a.priority1, a.quality.clockClass, a.quality.clockAccuracy;
    Put16(buf, 50, a.quality.variance);
    ghost var most := buf[..];
    buf[52] := a.priority2;
    SameRead16(half, buf[..], 44);
    SameRead16(most, buf[..], 50);
  }

  lemma SameQuality(a: Bytes, b: Bytes, body: AnnounceBody)
    requires 64 <= |a| == |b| && ReadsQuality(a, body) && forall i :: 44 <= i < 53 ==> a[i] == b[i]
    ensures ReadsQuality(b, body)
  {
  }

  lemma SameStamp(a: Bytes, b: Bytes)
    requires 44 <= |a| == |b| && a[34..44] == b[34..44]
    ensures ReadStamp(a) == ReadStamp(b)
  {
    hide Read16, Read32;
    forall i | 34 <= i < 44 ensures a[i] == b[i] { assert a[i] == a[34..44][i - 34] && b[i] == b[34..44][i - 34]; }
    SameRead16(a, b, 34);
    assert a[36..40] == b[36..40] && a[40..44] == b[40..44];
    SameRead32(a, b, 36);
    SameRead32(a, b, 40);
  }

  method PutAnnounce(buf: array<Octet>, body: AnnounceBody)
    requires buf.Length >= 64
    modifies buf
    ensures ReadAnnounce(buf[..]) == body && buf[46] == 0 && Only(old(buf[..]), buf[..], 44, 20)
    ensures ReadStamp(buf[..]) == ReadStamp(old(buf[..]))
  {
    hide Read16, ReadStamp;
    ghost var was := buf[..];
    PutQuality(buf, body);
    ghost var most := buf[..];
    PutClock(buf, 53, body.announce.identity);
    ghost var named := buf[..];
    buf[61], buf[62] := body.announce.stepsRemoved / 0x100, body.announce.stepsRemoved % 0x100;
    buf[63] := body.timeSource;
    SameQuality(most, buf[..], body);
    assert buf[..][34..44] == was[34..44];
    SameStamp(was, buf[..]);
    assert buf[..][53..61] == named[53..61];
  }

  method PackV2Sync(buf: array<Octet>, m: Message)
    requires buf.Length >= 64 && m.SyncMessage?
    modifies buf
    ensures Packed(old(buf[..]), buf[..], m)
  {
    hide Read16, Read32, Read64, ReadIdentity, ReadStamp;
    ghost var was := buf[..];
    PackHead(buf, SYNC, V2_SYNC_LENGTH, 0, m.sequenceId, 0, if m.unicast then LOGMEAN else m.interval);
    ghost var head := buf[..];
    if m.twoStep {
      buf[6] := TWO_STEP_FLAG;
    } else {
      buf[6] := 0;
    }
    buf[7] := 0;
    if m.unicast {
      buf[6] := buf[6] + UNICAST_FLAG;
    }
    FlagsOnly(head, buf[..]);
    ghost var flagged := buf[..];
    PutStamp(buf, m.stamp);
    SameHeader(flagged, buf[..]);
    TailKept(was, head, buf[..], LengthOf(m));
  }

  method PackV2DelayReq(buf: array<Octet>, m: Message)
    requires buf.Length >= 64 && m.DelayReqMessage?
    modifies buf
    ensures Packed(old(buf[..]), buf[..], m)
  {
    hide Read16, Read32, Read64, ReadIdentity, ReadStamp;
    ghost var was := buf[..];
    PackHead(buf, DELAY_REQ, V2_DELAY_REQ_LENGTH, 0, m.sequenceId, 1, LOGMEAN);
    ghost var head := buf[..];
    buf[6], buf[7] := 0, 0;
    if m.unicast {
      buf[6] := buf[6] + UNICAST_FLAG;
    }
    FlagsOnly(head, buf[..]);
    ghost var flagged := buf[..];
    PutStamp(buf, m.stamp);
    SameHeader(flagged, buf[..]);
    TailKept(was, head, buf[..], LengthOf(m));
  }

  method PackV2PDelayReq(buf: array<Octet>, m: Message)
    requires buf.Length >= 64 && m.PDelayReqMessage?
    modifies buf
    ensures Packed(old(buf[..]), buf[..], m)
  {
    hide Read16, Read32, Read64, ReadIdentity, ReadStamp;
    ghost var was := buf[..];
    PackHead(buf, PDELAY_REQ, V2_PDELAY_LENGTH, 0, m.sequenceId, OTHER_CONTROL, LOGMEAN);
    ghost var head := buf[..];
    buf[6], buf[7] := 0, 0;
    if m.unicast {
      buf[6] := buf[6] + UNICAST_FLAG;
    }
    FlagsOnly(head, buf[..]);
    ghost var flagged := buf[..];
    PutStamp(buf, m.stamp);
    ghost var stamped := buf[..];
    for k := 44 to 54
      invariant forall i :: 0 <= i < buf.Length && !(44 <= i < 54) ==> buf[i] == stamped[i]
      invariant forall i :: 44 <= i < k ==> buf[i] == 0
    {
      buf[k] := 0;
    }
    SameStamp(stamped, buf[..]);
    SameHeader(flagged, buf[..]);
    TailKept(was, head, buf[..], LengthOf(m));
  }

  method PackV2FollowUp(buf: array<Octet>, m: Message)
    requires buf.Length >= 64 && m.FollowUpMessage?
    modifies buf
    ensures Packed(old(buf[..]), buf[..], m)
  {
    hide Read16, Read32, Read64, ReadIdentity, ReadStamp;
    ghost var was := buf[..];
    PackHead(buf, FOLLOW_UP, V2_FOLLOW_UP_LENGTH, 0, m.sequenceId, 2, if m.unicast then LOGMEAN else m.interval);
    ghost var head := buf[..];
    if m.unicast && buf[6] / UNICAST_FLAG % 2 == 0 {
      buf[6] := buf[6] + UNICAST_FLAG;
    }
    FlagsOnly(head, buf[..]);
    ghost var flagged := buf[..];
    PutStamp(buf, m.stamp);
    SameHeader(flagged, buf[..]);
    TailKept(was, head, buf[..], LengthOf(m));
  }

  /** The time stamp, and the port whose request is answered. */
  method PutAnswer(buf: array<Octet>, stamp: V2Time, requester: PortIdentity)
    requires buf.Length >= 64
    modifies buf
    ensures ReadStamp(buf[..]) == stamp && ReadIdentity(buf[..], 44) == requester && Only(old(buf[..]), buf[..], 34, 20)
  {
    hide ReadStamp, ReadIdentity;
    PutStamp(buf, stamp);
    ghost var stamped := buf[..];
    PutIdentity(buf, 44, requester);
    SameStamp(stamped, buf[..]);
  }

  method PackV2DelayResp(buf: array<Octet>, m: Message)
    requires buf.Length >= 64 && m.DelayRespMessage?
    modifies buf
    ensures Packed(old(buf[..]), buf[..], m)
  {
    hide Read16, HeaderOf, ReadStamp, ReadIdentity;
    ghost var was := buf[..];
    PackHead(buf, DELAY_RESP, V2_DELAY_RESP_LENGTH, m.request.correction, m.request.sequenceId, 3,
             if m.unicast then LOGMEAN else m.interval);
    ghost var head := buf[..];
    buf[4] := m.request.domain;
    buf[6] := 0;
    if m.unicast {
      buf[6] := buf[6] + UNICAST_FLAG;
    }
    buf[7] := 0;
    FlagsOnly(head, buf[..]);
    ghost var flagged := buf[..];
    PutAnswer(buf, m.stamp, m.request.source);
    SameHeader(flagged, buf[..]);
    TailKept(was, head, buf[..], LengthOf(m));
  }

  method PackV2PDelayResp(buf: array<Octet>, m: Message)
    requires buf.Length >= 64 && m.PDelayRespMessage?
    modifies buf
    ensures Packed(old(buf[..]), buf[..], m)
  {
    hide Read16, Read32, Read64, ReadStamp, ReadIdentity;
    ghost var was := buf[..];
    PackHead(buf, PDELAY_RESP, V2_PDELAY_LENGTH, 0, m.request.sequenceId, OTHER_CONTROL, LOGMEAN);
    ghost var head := buf[..];
    buf[4] := m.request.domain;
    if m.twoStep {
      buf[6] := TWO_STEP_FLAG;
    } else {
      buf[6] := 0;
    }
    if m.unicast {
      buf[6] := buf[6] + UNICAST_FLAG;
    }
    FlagsOnly(head, buf[..]);
    ghost var flagged := buf[..];
    PutAnswer(buf, m.stamp, m.request.source);
    SameHeader(flagged, buf[..]);
    TailKept(was, head, buf[..], LengthOf(m));
  }

  method PackV2PDelayRespFollowUp(buf: array<Octet>, m: Message)
    requires buf.Length >= 64 && m.PDelayRespFollowUpMessage?
    modifies buf
    ensures Packed(old(buf[..]), buf[..], m)
  {
    hide Read16, Read32, Read64, ReadStamp, ReadIdentity;
    ghost var was := buf[..];
    PackHead(buf, PDELAY_RESP_FOLLOW_UP, V2_PDELAY_LENGTH, m.request.correction, m.request.sequenceId, OTHER_CONTROL, LOGMEAN);
    ghost var head := buf[..];
    buf[4] := m.request.domain;
    buf[6] := 0;
    if m.unicast {
      buf[6] := buf[6] + UNICAST_FLAG;
    }
    FlagsOnly(head, buf[..]);
    ghost var flagged := buf[..];
    PutAnswer(buf, m.stamp, m.request.source);
    SameHeader(flagged, buf[..]);
    TailKept(was, head, buf[..], LengthOf(m));
  }

  // ----- any sequence of messages -----

  method Pack(buf: array<Octet>, m: Message)
    requires buf.Length >= 64
    modifies buf
    ensures Packed(old(buf[..]), buf[..], m)
  {
    match m
    case AnnounceMessage(_, _, _, _, _) => PackAnnounce(buf, m);
    case SyncMessage(_, _, _, _, _) => PackV2Sync(buf, m);
    case DelayReqMessage(_, _, _) => PackV2DelayReq(buf, m);
    case PDelayReqMessage(_, _, _) => PackV2PDelayReq(buf, m);
    case FollowUpMessage(_, _, _, _) => PackV2FollowUp(buf, m);
    case DelayRespMessage(_, _, _, _) => PackV2DelayResp(buf, m);
    case PDelayRespMessage(_, _, _, _) => PackV2PDelayResp(buf, m);
    case PDelayRespFollowUpMessage(_, _, _) => PackV2PDelayRespFollowUp(buf, m);
  }

  function HeaderAfterAll(h: V2MsgHeader, ms: seq<Message>): V2MsgHeader {
    if ms == [] then h else HeaderAfter(HeaderAfterAll(h, ms[..|ms| - 1]), ms[|ms| - 1])
  }

  /** The header carries the stamp of a node. */
  predicate Stamped(h: V2MsgHeader, node: Node) {
    && h.version == 2 && h.transport == node.transportSpecific / 0x10 && h.source == node.identity
    && h.reserved2 == 0 && h.reserved3 == 0
  }

  /** The domain is that of the last response packed, if any: the node's own is not put back. */
  function DomainAfterAll(own: Octet, ms: seq<Message>): Octet {
    if ms == [] then own
    else if NamesRequester(ms[|ms| - 1]) then ms[|ms| - 1].request.domain
    else DomainAfterAll(own, ms[..|ms| - 1])
  }

  /** Whatever is packed after the header: version, transport and port identity stay the node's own, and
      type, length, sequence number and correction are those of the last message. */
  lemma {:induction false} StampSurvives(h: V2MsgHeader, node: Node, ms: seq<Message>)
    requires Stamped(h, node)
    ensures var r := HeaderAfterAll(h, ms);
            && Stamped(r, node) && r.domain == DomainAfterAll(h.domain, ms)
            && (ms != [] ==> var m := ms[|ms| - 1];
                  r.kind == KindOf(m) && r.length == LengthOf(m) && r.sequenceId == SequenceOf(m)
                  && r.correction == CorrectionOf(m))
  {
    hide KindOf, LengthOf, FlagsAfter, ControlOf, IntervalOf, SequenceOf, CorrectionOf;
    if ms != [] {
      StampSurvives(h, node, ms[..|ms| - 1]);
    }
  }

  /** The shared buffer: the header once, then messages one over the other. */
  method PackAll(buf: array<Octet>, node: Node, ms: seq<Message>)
    requires buf.Length >= 64
    modifies buf
    ensures var h := HeaderOf(buf[..]);
            && Stamped(h, node) && h.domain == DomainAfterAll(node.domain, ms)
            && (ms != [] ==> var m := ms[|ms| - 1];
                  && h.kind == KindOf(m) && h.length == LengthOf(m) && h.sequenceId == SequenceOf(m)
                  && h.correction == CorrectionOf(m) && ReadStamp(buf[..]) == m.stamp
                  && (NamesRequester(m) ==> ReadIdentity(buf[..], 44) == m.request.source)
                  && (m.AnnounceMessage? ==> ReadAnnounce(buf[..]) == m.body))
  {
    hide HeaderOf, HeaderAfter, ReadStamp, ReadIdentity, ReadAnnounce;
    PackV2Header(buf, node);
    ghost var start := HeaderOf(buf[..]);
    for i := 0 to |ms|
      invariant HeaderOf(buf[..]) == HeaderAfterAll(start, ms[..i])
      invariant i > 0 ==> exists was: Bytes :: |was| == buf.Length && Packed(was, buf[..], ms[i - 1])
    {
      assert ms[..i + 1][..i] == ms[..i];
      Pack(buf, ms[i]);
    }
    assert ms[..|ms|] == ms;
    StampSurvives(start, node, ms);
  }

  // ----- Follow_Up of version 1 -----

  datatype FollowUp = FollowUp(associated: UInteger16, preciseOrigin: TimeRepresentation)

  function ReadFollowUp(b: Bytes): FollowUp
    requires |b| >= 52
  {
    FollowUp(Read16(b, 42), ReadTime(b, 44))
  }

  /** Clears a bit of a flag octet. */
  function Without(flags: Octet, bit: Octet): (r: Octet)
    requires bit > 0
  {
    if flags / bit % 2 == 1 then flags - bit else flags
  }

  /** Octets a Follow_Up leaves as they are: message type, ports, control, flags and contents are its own. */
  predicate OutsideFollowUp(i: nat) {
    i < 20 || 20 < i < 28 || 32 < i < 35 || 35 < i < 40 || 52 <= i
  }

  method PackFollowUp(buf: array<Octet>, port: UInteger16, general: UInteger16, m: FollowUp)
    requires buf.Length >= 52
    modifies buf
    ensures ReadFollowUp(buf[..]) == m && buf[20] == 2 && buf[32] == 2
    ensures Read16(buf[..], 28) == port && Read16(buf[..], 30) == general
    ensures buf[35] == Without(Without(old(buf[35]), 0x40), 0x20) && buf[40] == buf[41] == 0
    ensures forall i :: 0 <= i < buf.Length && OutsideFollowUp(i) ==> buf[i] == old(buf[i])
  {
    hide Read16, ReadTime;
    buf[20] := 2;
    Put16(buf, 28, port);
    ghost var ported := buf[..];
    Put16(buf, 30, general);
    ghost var numbered := buf[..];
    buf[32] := 2;
    buf[35] := Without(Without(buf[35], 0x40), 0x20);
    buf[40], buf[41] := 0, 0;
    Put16(buf, 42, m.associated);
    ghost var associated := buf[..];
    PutTime(buf, 44, m.preciseOrigin);
    SameRead16(ported, buf[..], 28);
    SameRead16(numbered, buf[..], 30);
    SameRead16(associated, buf[..], 42);
  }

  /** A time sent in a Follow_Up and read back: it and the half epoch arrive unchanged exactly when the
      seconds stay below INT_MAX and the signs agree, whether or not the nanoseconds are zero. */
  method FollowUpOverWire(buf: array<Octet>, port: UInteger16, general: UInteger16, associated: UInteger16,
                          t: TimeInternal, halfEpoch: nat) returns (r: TimeInternal, half: nat)
    requires buf.Length >= 52
    requires t.seconds > -0x8000_0000 && t.nanoseconds > -0x8000_0000 && halfEpoch <= 1
    modifies buf
    ensures ReadFollowUp(buf[..]).associated == associated
    ensures r == t <==> Abs(t.seconds) < INT_MAX && !(t.seconds > 0 && t.nanoseconds < 0) && !(t.seconds < 0 && t.nanoseconds > 0)
    ensures half == halfEpoch <==> Abs(t.seconds) < INT_MAX
  {
    hide ReadFollowUp;
    PackFollowUp(buf, port, general, FollowUp(associated, ToWire(t, halfEpoch)));
    var follow := ReadFollowUp(buf[..]);
    r, half := FromWire(follow.preciseOrigin), HalfEpochOf(follow.preciseOrigin);
    WireRoundTrip(t, halfEpoch);
  }
}
