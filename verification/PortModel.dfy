/** The protocol engine of src/protocol.c as functions on the state of a port. */
module PortModel {
  import opened Octets
  import opened Arith
  import opened Bmc
  import opened V2Bmc
  import opened Timers
  import opened ForeignMasters
  import opened PortTypes
  import opened DataSets

  const SYNC := 0x0
  const DELAY_REQ := 0x1
  const PDELAY_REQ := 0x2
  const PDELAY_RESP := 0x3
  const V1_MANAGEMENT := 0x4
  const FOLLOW_UP := 0x8
  const DELAY_RESP := 0x9
  const PDELAY_RESP_FOLLOW_UP := 0xA
  const ANNOUNCE := 0xB
  const MANAGEMENT := 0xD

  // ----- timeouts, cut to the 16 bits of the timer -----

  function SyncTimeout(interval: int): UInteger16 {
    Servo.Pow2(if interval < 0 then 0 else interval) % 0x1_0000
  }

  function ReceiptTimeout(interval: int): UInteger16 {
    10 * Servo.Pow2(if interval < 0 then 0 else interval) % 0x1_0000
  }

  // ----- changes of state -----

  function Leaving(cfg: Config, p: Port): Port {
    match p.state
    case Master =>
      p.(timers := Started(Stopped(Stopped(p.timers, SYNC_INTERVAL), ANNOUNCE_INTERVAL),
                           SYNC_RECEIPT, ReceiptTimeout(p.syncInterval)))
    case Slave => p.(servo := ServoInit(cfg.servo, p.servo))
    case _ => p
  }

  function EnterMaster(cfg: Config, p: Port): Port {
    var started :=
      if p.state == PreMaster then p.timers
      else if cfg.ptpv2 then
        Started(Started(p.timers, SYNC_INTERVAL, SyncTimeout(p.syncInterval)),
                ANNOUNCE_INTERVAL, SyncTimeout(cfg.announceInterval))
      else Started(p.timers, SYNC_INTERVAL, SyncTimeout(p.syncInterval));
    p.(timers := Stopped(Stopped(started, SYNC_RECEIPT), ANNOUNCE_RECEIPT), state := Master)
  }

  function EnterSlave(cfg: Config, p: Port, random: UInteger16): Port {
    p.(servo := ServoInit(cfg.servo, p.servo),
       sync := p.sync.(r := random % 4 + 4, waitingForFollow := false),
       delay := p.delay.(t3 := ZeroTime, t4 := ZeroTime),
       timers := Started(p.timers, SYNC_RECEIPT, ReceiptTimeout(p.syncInterval)),
       state := Slave, measures := p.measures + [Forgotten])
  }

  function Entering(cfg: Config, p: Port, s: PortState, random: UInteger16): Port {
    match s
    case Initializing | Faulty | Disabled => p.(timers := Stopped(p.timers, SYNC_RECEIPT), state := s)
    case Listening => p.(timers := Started(p.timers, SYNC_RECEIPT, ReceiptTimeout(p.syncInterval)), state := s)
    case Master => EnterMaster(cfg, p)
    case Passive | Uncalibrated => p.(state := s)
    case Slave => EnterSlave(cfg, p, random)
    case PreMaster => p
  }

  function ToState(cfg: Config, p: Port, s: PortState, random: UInteger16): Port {
    Entering(cfg, Leaving(cfg, p), s, random)
  }

  /** Only entering SLAVE takes a random number. */
  function ToFaulty(cfg: Config, p: Port): Port {
    ToState(cfg, p, Faulty, 0)
  }

  // ----- sending -----

  /** Hand a message to the network. */
  function Reply(cfg: Config, p: Port, o: Output, ok: bool): Port {
    if ok then p.(outbox := p.outbox + [o]) else ToFaulty(cfg, p)
  }

  /** The next Sync waits for its time stamp if it could be sent. */
  function Numbered(p: Port, ok: bool): Port {
    var seqn := Next16(p.sent.sync);
    p.(sent := p.sent.(sync := seqn, syncPending := ok), gm := p.gm.(sequenceId := seqn))
  }

  function IssueSync(cfg: Config, p: Port, ok: bool): Port {
    var q := Numbered(p, ok);
    Reply(cfg, q, SyncOut(q.sent.sync), ok)
  }

  function IssueAnnounce(cfg: Config, p: Port, ok: bool): Port {
    if !cfg.ptpv2 then p
    else
      var seqn := Next16(p.sent.announce);
      var q := p.(sent := p.sent.(announce := seqn), gm := p.gm.(sequenceId := seqn));
      Reply(cfg, q, AnnounceOut(seqn), ok)
  }

  /** A new delay request is outstanding if it could be sent. */
  function Requested(p: Port, ok: bool): Port {
    var seqn := Next16(p.sent.delayReq);
    var issued := RequestIssued(seqn, p.delay.t3.seconds != 0, p.delay.t4.seconds != 0);
    p.(delay := p.delay.(sentRequest := ok, receivedPeerResp := false, sequenceId := seqn),
       sent := p.sent.(delayReq := seqn), measures := p.measures + [issued])
  }

  function IssueDelayReq(cfg: Config, p: Port, ok: bool): Port {
    var q := Requested(p, ok);
    Reply(cfg, q, DelayReqOut(q.sent.delayReq, cfg.ptpv2 && cfg.pdelay), ok)
  }

  // ----- foreign masters -----

  function Remember(p: Port, e: Entry): Port {
    p.(recordUpdate := true, table := Added(p.table, e).0)
  }

  function RememberSync(p: Port, m: Packet): Port {
    Remember(p, FromSync(Candidate(m.header, m.sync)))
  }

  function RememberAnnounce(p: Port, m: Packet): Port {
    Remember(p, FromAnnounce(m.v2.source, m.announce, m.translated))
  }

  // ----- Sync -----

  function Readings(p: Port, env: Inputs): Servo.SyncReadings {
    Servo.SyncReadings(p.sync.t1, p.sync.t2, env.estimate, env.timeA, env.timeB, env.timeD)
  }

  /** Correct the clock by a time of the master and the time the Sync was received. */
  function Correct(cfg: Config, p: Port, origin: TimeInternal, env: Inputs): Port {
    var v := ServoOffset(p.servo, origin, p.sync.t2, p.sync.syncCorrection, p.sync.followupCorrection);
    p.(servo := ServoClock(cfg.servo, v, Readings(p, env)))
  }

  /** A Sync of the parent with a new sequence number: note it down. */
  function NoteSync(p: Port, m: Packet, time: TimeInternal): Port {
    var two := if m.version == 1 then m.header.assist else m.v2.twoStep;
    var q := if m.version == 1 then
               RememberSync(p, m).(sync := p.sync.(syncCorrection := ZeroTime, followupCorrection := ZeroTime,
                                                   t2 := time, waitingForFollow := two))
             else
               p.(parent := p.parent.(lastSync := m.v2.sequenceId),
                  sync := p.sync.(syncCorrection := m.v2.correction, t2 := time, waitingForFollow := two));
    q.(log := q.log + [SyncAccepted(Sender(m), SequenceOf(m), time)])
  }

  /** Count down to the next delay request. */
  function CountDown(cfg: Config, p: Port, env: Inputs): Port {
    var r := if p.sync.r == 0 then 0xFFFF else p.sync.r - 1;
    if r != 0 then p.(sync := p.sync.(r := r))
    else
      var requests := Wrap16(p.requests + 1);
      var counted := p.(requests := requests, sync := p.sync.(r := r));
      var q := if requests < 1000 then IssueDelayReq(cfg, counted, env.replySent) else counted;
      q.(sync := q.sync.(r := env.requestRandom % 2 + 2))
  }

  function AcceptSync(cfg: Config, p: Port, m: Packet, time: TimeInternal, env: Inputs): Port {
    var noted := NoteSync(p, m, time);
    var corrected := if noted.sync.waitingForFollow then noted else Correct(cfg, noted, m.stamp, env);
    var applied := if m.version == 1 then S1(corrected, Candidate(m.header, m.sync)) else corrected;
    var counted := CountDown(cfg, applied, env);
    counted.(timers := Started(counted.timers, SYNC_RECEIPT, ReceiptTimeout(counted.syncInterval)))
  }

  predicate TechnologyOk(cfg: Config, m: Packet) {
    || m.header.technology == cfg.technology
    || m.header.technology == ANY_TECHNOLOGY
    || cfg.technology == ANY_TECHNOLOGY
  }

  /** The time stamp of a Sync of our own has come back: send the Follow_Up. */
  function SyncTxComplete(cfg: Config, p: Port, time: TimeInternal, env: Inputs): Port {
    Reply(cfg, p.(sent := p.sent.(syncPending := false)), FollowUpOut(p.sent.sync, Sum(time, cfg.outboundLatency)),
          env.replySent)
  }

  /** What a Sync means in any state that takes part in the protocol. */
  function SeenSync(cfg: Config, p: Port, m: Packet, time: TimeInternal, env: Inputs): Port {
    if m.version == 1 && !TechnologyOk(cfg, m) then p
    else if FromSelf(cfg, m) then
      if p.sent.syncPending && SequenceOf(m) == p.sent.sync then SyncTxComplete(cfg, p, time, env) else p
    else if m.version == 1 then RememberSync(p, m)
    else p
  }

  function HandleSync(cfg: Config, p: Port, m: Packet, time: TimeInternal, env: Inputs): Port {
    if m.length < (if m.version == 1 then 124 else 44) then ToFaulty(cfg, p)
    else if time == ZeroTime then p
    else
      match p.state
      case Faulty | Initializing | Disabled => p
      case Uncalibrated | Slave =>
        if FromSelf(cfg, m) || m.header.burst then p
        else if !FromParent(p, m) then SeenSync(cfg, p, m, time, env)
        else if SequenceOf(m) == p.parent.lastSync then p
        else SeenSync(cfg, AcceptSync(cfg, p, m, time, env), m, time, env)
      case _ => SeenSync(cfg, p, m, time, env)
  }

  // ----- Follow_Up -----

  predicate FollowUpExpected(p: Port, m: Packet) {
    && p.sync.waitingForFollow
    && FollowUpNumber(m) == p.parent.lastSync
    && FromParent(p, m)
  }

  function UseFollowUp(cfg: Config, p: Port, m: Packet, env: Inputs): Port {
    var times := if m.version == 1 then p.sync.(waitingForFollow := false, t1 := m.stamp)
                 else p.sync.(waitingForFollow := false, t1 := m.stamp, followupCorrection := m.v2.correction);
    var q := p.(sync := times, log := p.log + [FollowUpUsed(Sender(m), FollowUpNumber(m), p.sync.t2)]);
    Correct(cfg, q, m.stamp, env)
  }

  function HandleFollowUp(cfg: Config, p: Port, m: Packet, env: Inputs): Port {
    if m.length < (if m.version == 1 then 52 else 44) then ToFaulty(cfg, p)
    else if p.state != Slave || FromSelf(cfg, m) || (m.version == 1 && m.header.burst) then p
    else if FollowUpExpected(p, m) then UseFollowUp(cfg, p, m, env)
    else p
  }

  // ----- delay request and response -----

  /** Both times of the delay request are known. */
  function FinishDelay(cfg: Config, p: Port): Port {
    p.(servo := ServoDelay(cfg.servo, p.servo, p.delay.t3, p.delay.t4, p.delay.respCorrection),
       measures := p.measures + [Measured(p.delay.t3, p.delay.t4, p.delay.respCorrection)],
       delay := p.delay.(t3 := ZeroTime, t4 := ZeroTime, respCorrection := ZeroTime, sentRequest := false))
  }

  /** The peer delay has been measured; its times and corrections are used up. */
  function FinishPeerDelay(cfg: Config, p: Port): Port {
    p.(servo := ServoPathDelay(cfg.servo, p.servo, p.delay.peer),
       delay := p.delay.(peer := NoPathTimes, sentRequest := false))
  }

  /** Our own delay request has come back with its time of transmission. */
  function DelayReqTxComplete(cfg: Config, p: Port, m: Packet, time: TimeInternal): Port {
    if cfg.pdelay then
      var q := p.(delay := p.delay.(peer := p.delay.peer.(t1 := Sum(time, cfg.outboundLatency))));
      if q.delay.peer.t3.seconds != 0 then FinishPeerDelay(cfg, q) else q
    else
      var t3 := Sum(time, cfg.outboundLatency);
      var q := p.(delay := p.delay.(t3 := t3), measures := p.measures + [LoopedBack(SequenceOf(m), t3)]);
      if q.delay.t4.seconds != 0 then FinishDelay(cfg, q) else q
  }

  function HandleDelayReq(cfg: Config, p: Port, m: Packet, time: TimeInternal, env: Inputs): Port {
    if m.length < (if m.version == 1 then 124 else 44) then ToFaulty(cfg, p)
    else if time == ZeroTime then p
    else if p.state == Master then
      if FromSelf(cfg, m) || (m.version == 1 && !TechnologyOk(cfg, m)) then p
      else
        var correction := if m.version == 1 then ZeroTime else m.v2.correction;
        Reply(cfg, p, DelayRespOut(Sender(m), SequenceOf(m), time, correction), env.replySent)
    else if p.state == Slave && FromSelf(cfg, m) then DelayReqTxComplete(cfg, p, m, time)
    else p
  }

  predicate DelayRespOk(cfg: Config, p: Port, m: Packet) {
    && AnswerNumber(m) == p.delay.sequenceId
    && (if m.version == 1 then m.requester == V1Key(cfg.technology, cfg.uuid, cfg.portId) else m.v2Requester == Me(cfg))
    && FromParent(p, m)
  }

  function UseDelayResp(cfg: Config, p: Port, m: Packet): Port {
    var correction := if m.version == 1 then ZeroTime else m.v2.correction;
    var q := p.(delay := p.delay.(t4 := m.stamp, respCorrection := correction),
                measures := p.measures + [Answered(AnswerNumber(m), m.stamp, correction)]);
    if q.delay.t3.seconds != 0 then FinishDelay(cfg, q) else q
  }

  function HandleDelayResp(cfg: Config, p: Port, m: Packet): Port {
    if m.length < (if m.version == 1 then 60 else 54) then ToFaulty(cfg, p)
    else if p.state != Slave || FromSelf(cfg, m) || !p.delay.sentRequest then p
    else if DelayRespOk(cfg, p, m) then UseDelayResp(cfg, p, m)
    else p
  }

  // ----- peer delay -----

  /** States from LISTENING on. */
  predicate Active(s: PortState) {
    s != Initializing && s != Faulty && s != Disabled
  }

  /** The header of a Pdelay_Req is kept for the Follow_Up of its response. */
  function Asked(p: Port, m: Packet): Port {
    p.(sent := p.sent.(peer := PeerRequest(m.v2.source, m.v2.sequenceId, m.v2.correction)))
  }

  function HandlePDelayReq(cfg: Config, p: Port, m: Packet, time: TimeInternal, env: Inputs): Port {
    if m.length < 54 then ToFaulty(cfg, p)
    else if time == ZeroTime || !Active(p.state) then p
    else if FromSelf(cfg, m) then
      var q := p.(delay := p.delay.(peer := p.delay.peer.(t1 := Sum(time, cfg.outboundLatency))));
      if q.delay.peer.t4.seconds != 0 then FinishPeerDelay(cfg, q) else q
    else
      Reply(cfg, Asked(p, m), PDelayRespOut(m.v2.source, m.v2.sequenceId, time), env.replySent)
  }

  function HandlePDelayResp(cfg: Config, p: Port, m: Packet, time: TimeInternal, env: Inputs): Port {
    if m.length < 54 then ToFaulty(cfg, p)
    else if time == ZeroTime || !Active(p.state) then p
    else if FromSelf(cfg, m) then
      var t3 := Sum(time, cfg.outboundLatency);
      var q := p.(delay := p.delay.(peer := p.delay.peer.(t3 := t3)));
      Reply(cfg, q, PDelayRespFollowUpOut(p.sent.peer, t3), env.replySent)
    else
      var current := m.v2.sequenceId == p.delay.sequenceId;
      if !cfg.pdelay || m.v2Requester != Me(cfg) || (p.delay.receivedPeerResp && current) then ToFaulty(cfg, p)
      else if !current then p
      else if !p.delay.sentRequest then ToFaulty(cfg, p)
      else
        var times := p.delay.peer.(t4 := time, t2 := m.stamp, respCorrection := m.v2.correction);
        var q := p.(delay := p.delay.(receivedPeerResp := true, waitingForPeerFollow := m.v2.twoStep, peer := times));
        if !m.v2.twoStep && times.t1.seconds != 0 then FinishPeerDelay(cfg, q) else q
  }

  function HandlePDelayRespFollowUp(cfg: Config, p: Port, m: Packet): Port {
    if m.length < 54 then ToFaulty(cfg, p)
    else if !Active(p.state) || FromSelf(cfg, m) then p
    else if !cfg.pdelay || m.v2Requester != Me(cfg) then ToFaulty(cfg, p)
    else if m.v2.sequenceId != p.delay.sequenceId then p
    else if !p.delay.sentRequest then ToFaulty(cfg, p)
    else
      var q := p.(delay := p.delay.(peer := p.delay.peer.(t3 := m.stamp, followupCorrection := m.v2.correction)));
      if !q.delay.waitingForPeerFollow then q
      else if q.delay.peer.t1.seconds != 0 then FinishPeerDelay(cfg, q)
      else q.(delay := q.delay.(sentRequest := false))
  }

  // ----- Announce -----

  /** What the parent says about itself: the header scratch area with the contents of the record. */
  function Announced(m: Packet): V2Candidate {
    V2Candidate(m.v2.source, m.v2.sequenceId, m.announce.announce)
  }

  function HandleAnnounce(cfg: Config, p: Port, m: Packet): Port {
    if m.length < 64 then ToFaulty(cfg, p)
    else if !Active(p.state) || FromSelf(cfg, m) then p
    else if (p.state == Slave || p.state == Uncalibrated) && V2Key(m.v2.source) == ParentKey(p.parent, true) then
      if m.v2.sequenceId == p.parent.lastAnnounce then p
      else RememberAnnounce(V2S1(RememberAnnounce(p, m), Announced(m)), m)
    else RememberAnnounce(p, m)
  }

  // ----- management -----

  /** Take over what a management message sets; the state it asks for comes with it. */
  function Unload(p: Port, c: Management, cfg: Config): (Port, PortState) {
    match c
    case InitializeClock => (p, Initializing)
    case GotoFaulty => (p, Faulty)
    case DisablePort(port) => (p, if port == 1 then Disabled else p.state)
    case EnablePort(port) => (p, if port == 1 then Initializing else p.state)
    case SetPreferred(preferred) => (p.(own := p.own.(preferred := preferred)), p.state)
    case SetSyncInterval(interval) => (p.(configuredInterval := interval), p.state)
    case UpdateDefaultDataSet(stratum, identifier, variance, preferred, interval) =>
      (p.(own := OwnClock(if cfg.slaveOnly then p.own.stratum else stratum, identifier, variance, preferred),
          configuredInterval := interval), p.state)
    case _ => (p, p.state)
  }

  /** Carry out a management message that is not a query. */
  function Command(cfg: Config, p: Port, c: Management): Port {
    var (q, s) := Unload(p.(recordUpdate := true), c, cfg);
    if s != q.state then ToState(cfg, q, s, 0) else q
  }

  function HandleManagement(cfg: Config, p: Port, c: Management, env: Inputs): Port {
    if p.state == Initializing then p
    else
      match c
      case ForAnother => p
      case Query(answered) => if answered then Reply(cfg, p, ManagementOut, env.replySent) else p
      case _ => Command(cfg, p, c)
  }

  // ----- receiving -----

  /** The message type a handler is chosen by; a version 1 message with an unknown control field is
      taken for one of the type seen before. */
  function KindOf(m: Packet, before: nat): nat {
    if m.version == 2 then m.kind
    else
      match m.control
      case 0 => SYNC
      case 1 => DELAY_REQ
      case 2 => FOLLOW_UP
      case 3 => DELAY_RESP
      case 4 => MANAGEMENT
      case _ => before
  }

  /** Time of reception, less the latency if the message came from elsewhere and the time makes sense. */
  function ReceiveTime(cfg: Config, m: Packet): TimeInternal {
    if !FromSelf(cfg, m) && m.time.seconds > 0 then Difference(m.time, cfg.inboundLatency) else m.time
  }

  function Dispatch(cfg: Config, p: Port, m: Packet, env: Inputs): Port {
    var time := ReceiveTime(cfg, m);
    if p.kind == SYNC then HandleSync(cfg, p, m, time, env)
    else if p.kind == FOLLOW_UP then HandleFollowUp(cfg, p, m, env)
    else if p.kind == DELAY_REQ then (if time.seconds != 0 then HandleDelayReq(cfg, p, m, time, env) else p)
    else if p.kind == DELAY_RESP then HandleDelayResp(cfg, p, m)
    else if p.kind == V1_MANAGEMENT then (if m.version == 1 then HandleManagement(cfg, p, m.management, env) else p)
    else if p.kind == ANNOUNCE then HandleAnnounce(cfg, p, m)
    else if p.kind == PDELAY_REQ then HandlePDelayReq(cfg, p, m, time, env)
    else if p.kind == PDELAY_RESP then HandlePDelayResp(cfg, p, m, time, env)
    else if p.kind == PDELAY_RESP_FOLLOW_UP then HandlePDelayRespFollowUp(cfg, p, m)
    else p
  }

  function HandlePacket(cfg: Config, p: Port, m: Packet, env: Inputs): Port {
    if m.length < HEADER_LENGTH then ToFaulty(cfg, p)
    else if m.version == 1 || m.version == 2 then Dispatch(cfg, p.(kind := KindOf(m, p.kind)), m, env)
    else p
  }

  function Handle(cfg: Config, p: Port, env: Inputs): Port {
    match env.reception
    case Failed => ToFaulty(cfg, p)
    case Nothing => p
    case Received(m) => HandlePacket(cfg, p, m, env)
  }

  // ----- one round of the main loop -----

  /** States in which a changed record makes the port reconsider its state. */
  predicate Deciding(s: PortState) {
    s == Listening || s == Passive || s == Slave || s == Master
  }

  /** Before a decision, whether the records of the parent agree is noted. */
  function Reconsidering(p: Port): Port {
    p.(recordUpdate := false, log := p.log + [Decided(ParentsRecords(p.table, p.parent))])
  }

  function Reconsider(cfg: Config, p: Port, env: Inputs): Port {
    if Deciding(p.state) && p.recordUpdate then
      var (q, s) := Decision(cfg, Reconsidering(p));
      if s != p.state then ToState(cfg, q, s, env.slaveRandom) else q
    else p
  }

  function ReceiptTimedOut(cfg: Config, p: Port): Port {
    var q := p.(table := p.table.(number := 0, next := 0), log := p.log + [Restarted(0)]);
    if !cfg.slaveOnly && q.own.stratum != 255 then ToState(cfg, M1(cfg, q), Master, 0)
    else if q.state != Listening then ToState(cfg, q, Listening, 0)
    else q
  }

  function CheckReceipt(cfg: Config, p: Port, ticks: nat): Port {
    var updated := Updated(p.timers, ticks);
    var q := p.(timers := Cleared(updated, SYNC_RECEIPT));
    if Flagged(updated, SYNC_RECEIPT) then ReceiptTimedOut(cfg, q) else q
  }

  function CheckSync(cfg: Config, p: Port, env: Inputs): Port {
    var updated := Updated(p.timers, env.syncTicks);
    var q := p.(timers := Cleared(updated, SYNC_INTERVAL));
    if Flagged(updated, SYNC_INTERVAL) then IssueSync(cfg, q, env.syncSent) else q
  }

  function CheckAnnounce(cfg: Config, p: Port, env: Inputs): Port {
    var updated := Updated(p.timers, env.announceTicks);
    var q := p.(timers := Cleared(updated, ANNOUNCE_INTERVAL));
    if Flagged(updated, ANNOUNCE_INTERVAL) then IssueAnnounce(cfg, q, env.announceSent) else q
  }

  function DoState(cfg: Config, p: Port, env: Inputs): Port {
    var q := Reconsider(cfg, p, env);
    match q.state
    case Faulty => ToState(cfg, q, Initializing, 0)
    case Listening | Passive | Uncalibrated | Slave => CheckReceipt(cfg, Handle(cfg, q, env), env.receiptTicks)
    case Master => Handle(cfg, CheckAnnounce(cfg, CheckSync(cfg, q, env), env), env)
    case Disabled => Handle(cfg, q, env)
    case _ => q
  }

  function InitData(cfg: Config, p: Port): Port {
    p.(own := InitialOwnClock(cfg), syncInterval := p.configuredInterval,
       table := p.table.(number := 0), sent := p.sent.(sync := 0, announce := 0, delayReq := 0),
       log := p.log + [Restarted(p.table.next)])
  }

  function DoInit(cfg: Config, p: Port, env: Inputs): Port {
    if !env.networkUp then ToFaulty(cfg, p)
    else
      var q := InitData(cfg, p);
      ToState(cfg, M1(cfg, q.(servo := ServoInit(cfg.servo, q.servo))), Listening, 0)
  }

  function Step(cfg: Config, p: Port, env: Inputs): Port {
    if p.state == Initializing then DoInit(cfg, p, env) else DoState(cfg, p, env)
  }

  /** The loop ends when the network cannot be set up. */
  predicate Stops(p: Port, env: Inputs) {
    p.state == Initializing && !env.networkUp
  }

  /** A port as it comes from calloc. */
  function PowerUp(cfg: Config): Port
    requires ValidConfig(cfg)
  {
    Port(Initializing, [Off, Off, Off, Off, Off, Off], Table(seq(cfg.maxForeignRecords, _ => Blank), 0, 0, 0), false,
         SYNC, OwnClock(0, NoCode, 0, false), cfg.syncInterval, 0,
         Parent(0, NoUuid, NoClock, 0, 0, 0), Grandmaster(0, NoUuid, NoClock, 0, 0, 0, Quality(0, 0, 0), 0), 0,
         SyncTimes(false, ZeroTime, ZeroTime, ZeroTime, ZeroTime, 0),
         Delay(false, 0, ZeroTime, ZeroTime, ZeroTime, false, false, NoPathTimes),
         Sent(0, 0, 0, false, NoPeer), 0, Servo.Initial, [], [], [])
  }

  function Run(cfg: Config, p: Port, envs: seq<Inputs>): Port
    decreases |envs|
  {
    if envs == [] then p
    else if Stops(p, envs[0]) then Step(cfg, p, envs[0])
    else Run(cfg, Step(cfg, p, envs[0]), envs[1..])
  }
}
