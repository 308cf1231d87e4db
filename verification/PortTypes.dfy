/** The state of one port (PtpClock in src/datatypes.h), its options, and what reaches it from outside. */
module PortTypes {
  import opened Octets
  import opened Arith
  import opened Bmc
  import opened V2Bmc
  import opened Timers
  import opened ForeignMasters
  import Servo
  import ServoProperties

  datatype PortState =
    Initializing | Faulty | Disabled | Listening | PreMaster | Master | Passive | Uncalibrated | Slave

  /** PTP_DEFAULT: a communication technology that agrees with every other. */
  const ANY_TECHNOLOGY := 255

  const HEADER_LENGTH := 40
  const PRIORITY2 := 128

  type ServoOptions = o: Servo.Options | Servo.ValidOptions(o)
    witness Servo.Options(0, 0, 0, false, false, false, 0)

  type Filtered = v: Servo.State | ServoProperties.FiltersOk(v) witness Servo.Initial

  type ForeignMasterTable = t: Table | Safe(t) witness Table([Blank], 0, 0, 0)

  const NoUuid: Uuid := [0, 0, 0, 0, 0, 0]
  const NoClock: ClockIdentity := [0, 0, 0, 0, 0, 0, 0, 0]
  const NoCode: Code := [0, 0, 0, 0]

  /** A record of the table as calloc leaves it. */
  const Blank := Slot(0, NoUuid, 0, NoClock,
                      Candidate(Header(0, NoUuid, 0, 0, false, false),
                                Bmc.Sync(0, NoUuid, 0, 0, 0, NoCode, 0, false, false, 0)),
                      V2Candidate(PortIdentity(NoClock, 0), 0, Announce(NoClock, 0, Quality(0, 0, 0), 0, 0)))

  const NoPathTimes := Servo.PathTimes(ZeroTime, ZeroTime, ZeroTime, ZeroTime, ZeroTime, ZeroTime)

  const NoPeer := PeerRequest(PortIdentity(NoClock, 0), 0, ZeroTime)

  /** Run time options, the identity of the port, and what initData derives from them once and for all. */
  datatype Config = Config(slaveOnly: bool, ptpv2: bool, pdelay: bool, servo: ServoOptions,
                           technology: Octet, uuid: Uuid, clockIdentity: ClockIdentity, portId: UInteger16,
                           stratum: Octet, identifier: Code, variance: int, preferred: bool,
                           priority1: Octet, quality: Quality,
                           syncInterval: int, announceInterval: int, maxForeignRecords: nat,
                           inboundLatency: TimeInternal, outboundLatency: TimeInternal)

  predicate ValidConfig(cfg: Config) {
    cfg.maxForeignRecords >= 1
  }

  /** Attributes of the own clock that management messages may change. */
  datatype OwnClock = OwnClock(stratum: Octet, identifier: Code, variance: int, preferred: bool)

  datatype Parent = Parent(technology: Octet, uuid: Uuid, clockIdentity: ClockIdentity, portId: UInteger16,
                           lastSync: UInteger16, lastAnnounce: UInteger16)

  datatype Grandmaster = Grandmaster(technology: Octet, uuid: Uuid, clockIdentity: ClockIdentity,
                                     portId: UInteger16, sequenceId: UInteger16,
                                     priority1: Octet, quality: Quality, priority2: Octet)

  /** The Sync in progress; r counts the Syncs down to the next delay request. */
  datatype SyncTimes = SyncTimes(waitingForFollow: bool, t1: TimeInternal, t2: TimeInternal,
                                 syncCorrection: TimeInternal, followupCorrection: TimeInternal, r: UInteger16)

  /** The delay request in progress, of either mechanism. */
  datatype Delay = Delay(sentRequest: bool, sequenceId: UInteger16, t3: TimeInternal, t4: TimeInternal,
                         respCorrection: TimeInternal, receivedPeerResp: bool, waitingForPeerFollow: bool,
                         peer: Servo.PathTimes)

  /** What is kept of the last Pdelay_Req of another port. */
  datatype PeerRequest = PeerRequest(source: PortIdentity, sequenceId: UInteger16, correction: TimeInternal)

  /** Sequence numbers of the messages sent, whether a Sync is waiting for its own time stamp, and whom a
      Pdelay_Resp was sent to. */
  datatype Sent = Sent(sync: UInteger16, announce: UInteger16, delayReq: UInteger16, syncPending: bool,
                       peer: PeerRequest)

  /** A message handed to the network, with what the handlers put into it. */
  datatype Output =
    | SyncOut(sequenceId: UInteger16)
    | AnnounceOut(sequenceId: UInteger16)
    | FollowUpOut(sequenceId: UInteger16, sent: TimeInternal)
    | DelayReqOut(sequenceId: UInteger16, toPeer: bool)
    | DelayRespOut(requester: Key, sequenceId: UInteger16, received: TimeInternal, correction: TimeInternal)
    | PDelayRespOut(peer: PortIdentity, sequenceId: UInteger16, received: TimeInternal)
    | PDelayRespFollowUpOut(request: PeerRequest, sent: TimeInternal)
    | ManagementOut

  /** What the properties speak of. */
  datatype Event =
    | Restarted(next: nat)
    | Decided(agreeing: bool)
    | AppliedSync(c: Candidate)
    | AppliedAnnounce(v2: V2Candidate)
    | SyncAccepted(parent: Key, sequenceId: UInteger16, received: TimeInternal)
    | FollowUpUsed(parent: Key, sequenceId: UInteger16, received: TimeInternal)

  /** What happens to the two halves of a delay measurement: the time the request was sent, which comes
      with its loop-back, and the time it was received, which comes with the response. A request notes
      whether halves of an earlier one are still there; Forgotten is the entry to SLAVE. */
  datatype DelayEvent =
    | RequestIssued(sequenceId: UInteger16, sentPending: bool, answerPending: bool)
    | LoopedBack(sequenceId: UInteger16, t3: TimeInternal)
    | Answered(sequenceId: UInteger16, t4: TimeInternal, correction: TimeInternal)
    | Measured(t3: TimeInternal, t4: TimeInternal, correction: TimeInternal)
    | Forgotten

  datatype Port = Port(state: PortState, timers: TimerArray, table: ForeignMasterTable, recordUpdate: bool,
                       kind: nat, own: OwnClock, configuredInterval: int, syncInterval: int,
                       parent: Parent, gm: Grandmaster, stepsRemoved: UInteger16,
                       sync: SyncTimes, delay: Delay, sent: Sent, requests: int, servo: Filtered,
                       log: seq<Event>, measures: seq<DelayEvent>, outbox: seq<Output>)

  datatype Management =
    | ForAnother
    | Query(answered: bool)
    | InitializeClock
    | GotoFaulty
    | DisablePort(port: UInteger16)
    | EnablePort(port: UInteger16)
    | SetPreferred(preferred: bool)
    | SetSyncInterval(interval: int)
    | UpdateDefaultDataSet(stratum: Octet, identifier: Code, variance: int, preferred: bool, interval: int)
    | OtherCommand

  datatype V2Header = V2Header(source: PortIdentity, sequenceId: UInteger16, twoStep: bool, correction: TimeInternal)

  /** A message with every reading of its octets that a handler may use. The header of the other
      version is whatever an earlier message left behind. */
  datatype Packet = Packet(length: int, version: nat, control: Octet, kind: nat, time: TimeInternal,
                           header: Header, v2: V2Header, stamp: TimeInternal,
                           sync: Bmc.Sync, announce: V2Candidate, translated: Candidate,
                           associated: UInteger16, requestSequence: UInteger16,
                           requester: Key, v2Requester: PortIdentity, management: Management)

  datatype Reception = Failed | Nothing | Received(packet: Packet)

  /** What the outside does during one step: reception, ticks before each timer is looked at, success
      of each send, random numbers, and readings of the clock. */
  datatype Inputs = Inputs(networkUp: bool, reception: Reception,
                           syncTicks: nat, announceTicks: nat, receiptTicks: nat,
                           syncSent: bool, announceSent: bool, replySent: bool,
                           slaveRandom: UInteger16, requestRandom: UInteger16,
                           estimate: int, timeA: TimeInternal, timeB: TimeInternal, timeD: TimeInternal)

  function Me(cfg: Config): PortIdentity {
    PortIdentity(cfg.clockIdentity, cfg.portId)
  }

  function V1Me(cfg: Config): Receiver {
    Receiver(cfg.uuid, cfg.portId)
  }

  function ParentKey(parent: Parent, v2: bool): Key {
    if v2 then V2Key(PortIdentity(parent.clockIdentity, parent.portId))
    else V1Key(parent.technology, parent.uuid, parent.portId)
  }

  function SourceKey(h: Header): Key {
    V1Key(h.technology, h.uuid, h.portId)
  }

  /** Who a message is from, by the header of its own version. */
  function Sender(m: Packet): Key {
    if m.version == 1 then SourceKey(m.header) else V2Key(m.v2.source)
  }

  function SequenceOf(m: Packet): UInteger16 {
    if m.version == 1 then m.header.sequenceId else m.v2.sequenceId
  }

  /** The records in use that belong to the parent carry the number noted of its last Sync. */
  predicate ParentsRecords(t: Table, parent: Parent) {
    forall i :: 0 <= i < t.number <= |t.slots| && KeyOf(t.slots[i], false) == ParentKey(parent, false) ==>
      t.slots[i].v1.header.sequenceId == parent.lastSync
  }

  /** The number of the Sync a Follow_Up belongs to, by what it carries. */
  function FollowUpNumber(m: Packet): UInteger16 {
    if m.version == 1 then m.associated else m.v2.sequenceId
  }

  /** The number of the request a Delay_Resp answers, by what it carries. */
  function AnswerNumber(m: Packet): UInteger16 {
    if m.version == 1 then m.requestSequence else m.v2.sequenceId
  }

  predicate FromSelf(cfg: Config, m: Packet) {
    Sender(m) == if m.version == 1 then V1Key(cfg.technology, cfg.uuid, cfg.portId) else V2Key(Me(cfg))
  }

  predicate FromParent(p: Port, m: Packet) {
    Sender(m) == ParentKey(p.parent, m.version != 1)
  }

  function Next16(x: UInteger16): UInteger16 {
    (x + 1) % 0x1_0000
  }

  function Wrap16(x: int): int {
    (x + 0x8000) % 0x1_0000 - 0x8000
  }

  // ----- the servo, on states whose filters are in range -----

  function ServoInit(o: ServoOptions, v: Filtered): Filtered {
    Servo.InitClock(o, v)
  }

  function ServoDelay(o: ServoOptions, v: Filtered, send: TimeInternal, recv: TimeInternal, correction: TimeInternal): Filtered {
    Servo.UpdateDelay(o, v, send, recv, correction)
  }

  function ServoPathDelay(o: ServoOptions, v: Filtered, times: Servo.PathTimes): Filtered {
    Servo.UpdatePathDelay(o, v, times)
  }

  function ServoOffset(v: Filtered, send: TimeInternal, recv: TimeInternal, c1: TimeInternal, c2: TimeInternal): Filtered {
    Servo.DifferenceIsCanonical(Difference(Difference(Difference(recv, send), c1), c2), v.oneWayDelay);
    Servo.UpdateOffset(v, send, recv, c1, c2)
  }

  function ServoClock(o: ServoOptions, v: Filtered, readings: Servo.SyncReadings): Filtered {
    Servo.UpdateClock(o, v, readings)
  }

  /** The part of the servo that m1 clears. */
  function ServoForget(v: Filtered): Filtered {
    v.(offset := ZeroTime, oneWayDelay := ZeroTime)
  }
}
