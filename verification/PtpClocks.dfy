/** The protocol engine of src/protocol.c in memory: one port, its timers, its table of foreign masters
    and its servo, updated by the handlers. Every method is shown to do what the function of the same
    name in PortModel says. */
module PtpClocks {
  import opened Octets
  import opened Arith
  import opened Bmc
  import opened V2Bmc
  import opened Timers
  import opened ForeignMasters
  import opened PortTypes
  import opened DataSets
  import opened PortModel
  import opened ServoClock

  class PtpClock {
    const cfg: Config
    const timers: TimerSet
    const foreign: ForeignTable
    const clock: Clock
    var state: PortState
    var recordUpdate: bool
    var kind: nat
    var own: OwnClock
    var configuredInterval: int
    var syncInterval: int
    var parent: Parent
    var gm: Grandmaster
    var stepsRemoved: UInteger16
    var sync: SyncTimes
    var delay: Delay
    var sent: Sent
    var requests: int
    ghost var log: seq<Event>
    ghost var measures: seq<DelayEvent>
    ghost var outbox: seq<Output>

    ghost predicate Valid()
      reads this, timers, timers.itimer, foreign, foreign.slots, clock
    {
      && timers.Valid() && timers.elapsed == 0
      && Safe(foreign.View())
      && ServoProperties.FiltersOk(clock.View()) && clock.o == cfg.servo
    }

    ghost function View(): Port
      requires Valid()
      reads this, timers, timers.itimer, foreign, foreign.slots, clock
    {
      Port(state, timers.View(), foreign.View(), recordUpdate, kind, own, configuredInterval, syncInterval,
           parent, gm, stepsRemoved, sync, delay, sent, requests, clock.View(), log, measures, outbox)
    }

    constructor (cfg: Config)
      requires ValidConfig(cfg)
      ensures Valid() && this.cfg == cfg && View() == PowerUp(cfg)
      ensures fresh(timers) && fresh(timers.itimer) && fresh(foreign) && fresh(foreign.slots) && fresh(clock)
    {
      this.cfg := cfg;
      timers := new TimerSet();
      foreign := new ForeignTable(cfg.maxForeignRecords, Blank);
      clock := new Clock(cfg.servo);
      state, recordUpdate, kind := Initializing, false, SYNC;
      own := OwnClock(0, NoCode, 0, false);
      configuredInterval, syncInterval := cfg.syncInterval, 0;
      parent := Parent(0, NoUuid, NoClock, 0, 0, 0);
      gm := Grandmaster(0, NoUuid, NoClock, 0, 0, 0, Quality(0, 0, 0), 0);
      stepsRemoved := 0;
      sync := SyncTimes(false, ZeroTime, ZeroTime, ZeroTime, ZeroTime, 0);
      delay := Delay(false, 0, ZeroTime, ZeroTime, ZeroTime, false, false, NoPathTimes);
      sent := Sent(0, 0, 0, false, NoPeer);
      requests := 0;
      log, measures, outbox := [], [], [];
    }

    // ----- changes of state -----

    method Leave()
      requires Valid()
      modifies timers.itimer, clock
      ensures Valid() && View() == Leaving(cfg, old(View()))
    {
      hide Started, Stopped, ReceiptTimeout, Servo.InitClock;
      match state
      case Master =>
        timers.Stop(SYNC_INTERVAL);
        timers.Stop(ANNOUNCE_INTERVAL);
        timers.Start(SYNC_RECEIPT, ReceiptTimeout(syncInterval));
      case Slave =>
        InitClock();
      case _ =>
    }

    method InitClock()
      requires Valid()
      modifies clock
      ensures Valid() && View() == old(View()).(servo := ServoInit(cfg.servo, old(View()).servo))
    {
      clock.Init();
    }

    method EnterMaster()
      requires Valid()
      modifies this`state, timers.itimer
      ensures Valid() && View() == PortModel.EnterMaster(cfg, old(View()))
    {
      hide Started, Stopped, SyncTimeout;
      if state != PreMaster {
        timers.Start(SYNC_INTERVAL, SyncTimeout(syncInterval));
        if cfg.ptpv2 {
          timers.Start(ANNOUNCE_INTERVAL, SyncTimeout(cfg.announceInterval));
        }
      }
      timers.Stop(SYNC_RECEIPT);
      timers.Stop(ANNOUNCE_RECEIPT);
      state := Master;
    }

    method EnterSlave(random: UInteger16)
      requires Valid()
      modifies this`state, this`sync, this`delay, this`measures, timers.itimer, clock
      ensures Valid() && View() == PortModel.EnterSlave(cfg, old(View()), random)
    {
      hide Started, ReceiptTimeout, ServoInit;
      InitClock();
      sync := sync.(r := random % 4 + 4);
      sync := sync.(waitingForFollow := false);
      delay := delay.(t3 := ZeroTime);
      delay := delay.(t4 := ZeroTime);
      timers.Start(SYNC_RECEIPT, ReceiptTimeout(syncInterval));
      state := Slave;
      measures := measures + [Forgotten];
    }

    method Enter(s: PortState, random: UInteger16)
      requires Valid()
      modifies this`state, this`sync, this`delay, this`measures, timers.itimer, clock
      ensures Valid() && View() == Entering(cfg, old(View()), s, random)
    {
      hide Started, Stopped, ReceiptTimeout, PortModel.EnterMaster, PortModel.EnterSlave;
      match s
      case Initializing | Faulty | Disabled =>
        timers.Stop(SYNC_RECEIPT);
        state := s;
      case Listening =>
        timers.Start(SYNC_RECEIPT, ReceiptTimeout(syncInterval));
        state := s;
      case Master =>
        EnterMaster();
      case Passive | Uncalibrated =>
        state := s;
      case Slave =>
        EnterSlave(random);
      case PreMaster =>
    }

    method ToState(s: PortState, random: UInteger16)
      requires Valid()
      modifies this`state, this`sync, this`delay, this`measures, timers.itimer, clock
      ensures Valid() && View() == PortModel.ToState(cfg, old(View()), s, random)
    {
      hide Leaving, Entering;
      Leave();
      Enter(s, random);
    }

    method ToFaulty()
      requires Valid()
      modifies this`state, this`sync, this`delay, this`measures, timers.itimer, clock
      ensures Valid() && View() == PortModel.ToFaulty(cfg, old(View()))
    {
      hide PortModel.ToState;
      ToState(Faulty, 0);
    }

    /** Write the history that the properties speak of. */
    ghost method Record(e: Event)
      requires Valid()
      modifies this`log
      ensures Valid() && View() == old(View()).(log := old(View()).log + [e])
    {
      hide Safe, ServoProperties.FiltersOk;
      log := log + [e];
    }

    // ----- data sets -----

    method ForgetOffset()
      requires Valid()
      modifies clock
      ensures Valid() && View() == old(View()).(servo := ServoForget(old(View()).servo))
    {
      hide Safe;
      clock.ForgetOffset();
    }

    method M1()
      requires Valid()
      modifies this`stepsRemoved, this`parent, this`gm, clock
      ensures Valid() && View() == DataSets.M1(cfg, old(View()))
    {
      hide Safe, ServoProperties.FiltersOk;
      stepsRemoved := 0;
      ForgetOffset();
      parent := Parent(cfg.technology, cfg.uuid, cfg.clockIdentity, 0, 0, parent.lastAnnounce);
      gm := Grandmaster(cfg.technology, cfg.uuid, cfg.clockIdentity, 0, sent.sync,
                        cfg.priority1, cfg.quality, PRIORITY2);
    }

    method S1(c: Candidate)
      requires Valid()
      modifies this`stepsRemoved, this`parent, this`gm, this`log
      ensures Valid() && View() == DataSets.S1(old(View()), c)
    {
      hide Safe, ServoProperties.FiltersOk, Next16;
      stepsRemoved := Next16(c.sync.stepsRemoved);
      parent := parent.(technology := c.header.technology, uuid := c.header.uuid, portId := c.header.portId,
                        lastSync := c.header.sequenceId);
      gm := gm.(technology := c.sync.technology, uuid := c.sync.uuid, portId := c.sync.portId,
                sequenceId := c.sync.sequenceId);
      Record(AppliedSync(c));
    }

    method V2S1(c: V2Candidate)
      requires Valid()
      modifies this`stepsRemoved, this`parent, this`gm, this`log
      ensures Valid() && View() == DataSets.V2S1(old(View()), c)
    {
      hide Safe, ServoProperties.FiltersOk, Next16;
      stepsRemoved := Next16(c.announce.stepsRemoved);
      parent := parent.(clockIdentity := c.source.clock, portId := c.source.port, lastAnnounce := c.sequenceId);
      gm := gm.(priority1 := c.announce.priority1, priority2 := c.announce.priority2, quality := c.announce.quality,
                clockIdentity := c.announce.identity, portId := 1, sequenceId := c.sequenceId);
      Record(AppliedAnnounce(c));
    }

    // ----- best master clock -----

    method BestV1Record() returns (best: nat)
      requires Valid() && foreign.number > 0
      ensures best == Scan(V1Candidates(View().table), V1Me(cfg), foreign.number) && best < foreign.number
    {
      hide Compare;
      best := 0;
      for i := 1 to foreign.number
        invariant best < i && best == Scan(V1Candidates(View().table), V1Me(cfg), i)
      {
        if Compare(foreign.slots[i].v1, foreign.slots[best].v1, V1Me(cfg)) > 0 {
          best := i;
        }
      }
    }

    method BestV2Record() returns (best: nat)
      requires Valid() && foreign.number > 0
      ensures best == V2Scan(V2Candidates(View().table), Me(cfg), foreign.number) && best < foreign.number
    {
      hide V2Compare;
      best := 0;
      for i := 1 to foreign.number
        invariant best < i && best == V2Scan(V2Candidates(View().table), Me(cfg), i)
      {
        if V2Compare(foreign.slots[i].v2, foreign.slots[best].v2, Me(cfg)) > 0 {
          best := i;
        }
      }
    }

    method StateDecision(c: Candidate) returns (s: PortState)
      requires Valid()
      modifies this`stepsRemoved, this`parent, this`gm, this`log, clock
      ensures Valid() && (View(), s) == DataSets.StateDecision(cfg, old(View()), c)
    {
      hide Compare, DataSets.M1, DataSets.S1, D0;
      if cfg.slaveOnly {
        S1(c);
        return Slave;
      }
      var d0 := CopyD0();
      if d0.sync.stratum < 3 {
        if Compare(d0, c, V1Me(cfg)) > 0 {
          M1();
          return Master;
        }
        S1(c);
        return Passive;
      } else if Compare(d0, c, V1Me(cfg)) > 0 && d0.sync.stratum != 255 {
        M1();
        return Master;
      } else {
        S1(c);
        return Slave;
      }
    }

    method CopyD0() returns (d0: Candidate)
      requires Valid()
      ensures d0 == D0(cfg, View()) && d0.sync.stratum == own.stratum
    {
      d0 := Candidate(Header(cfg.technology, cfg.uuid, cfg.portId, gm.sequenceId, false, false),
                      Bmc.Sync(cfg.technology, cfg.uuid, cfg.portId, gm.sequenceId, own.stratum, own.identifier,
                               own.variance, own.preferred, false, stepsRemoved));
    }

    method V2CopyD0() returns (d0: V2Candidate)
      requires Valid()
      ensures d0 == V2D0(cfg, View()) && d0.announce.quality == gm.quality
    {
      d0 := V2Candidate(Me(cfg), gm.sequenceId, Announce(cfg.clockIdentity, gm.priority1, gm.quality, gm.priority2, 0));
    }

    method V2StateDecision(c: V2Candidate) returns (s: PortState)
      requires Valid()
      modifies this`stepsRemoved, this`parent, this`gm, this`log, clock
      ensures Valid() && (View(), s) == DataSets.V2StateDecision(cfg, old(View()), c)
    {
      hide V2Compare, DataSets.M1, DataSets.V2S1, V2D0;
      if cfg.slaveOnly {
        V2S1(c);
        return Slave;
      }
      var d0 := V2CopyD0();
      if d0.announce.quality.clockClass < 128 {
        if V2Compare(d0, c, Me(cfg)) > 0 {
          M1();
          return Master;
        }
        V2S1(c);
        return Passive;
      } else if V2Compare(d0, c, Me(cfg)) > 0 {
        M1();
        return Master;
      } else {
        V2S1(c);
        return Slave;
      }
    }

    method BestMasterClock() returns (s: PortState)
      requires Valid()
      modifies this`stepsRemoved, this`parent, this`gm, this`log, foreign`best, clock
      ensures Valid() && (View(), s) == Decision(cfg, old(View()))
    {
      hide DataSets.M1, DataSets.StateDecision, DataSets.V2StateDecision, V1Candidates, V2Candidates;
      if foreign.number == 0 {
        if state == Master {
          M1();
        }
        return state;
      }
      if cfg.ptpv2 {
        foreign.best := BestV2Record();
        s := V2StateDecision(foreign.slots[foreign.best].v2);
      } else {
        foreign.best := BestV1Record();
        s := StateDecision(foreign.slots[foreign.best].v1);
      }
    }

    // ----- sending -----

    /** Hand a message to the network. */
    method Send(o: Output, ok: bool)
      requires Valid()
      modifies this`state, this`sync, this`delay, this`measures, this`outbox, timers.itimer, clock
      ensures Valid() && View() == Reply(cfg, old(View()), o, ok)
    {
      hide PortModel.ToFaulty;
      if ok {
        outbox := outbox + [o];
      } else {
        ToFaulty();
      }
    }

    method NumberSync(ok: bool)
      requires Valid()
      modifies this`sent, this`gm
      ensures Valid() && View() == Numbered(old(View()), ok) && sent.sync == Next16(old(sent.sync))
    {
      hide Safe, ServoProperties.FiltersOk, Next16;
      sent := sent.(sync := Next16(sent.sync));
      gm := gm.(sequenceId := sent.sync);
      sent := sent.(syncPending := true);
      if !ok {
        sent := sent.(syncPending := false);
      }
    }

    method IssueSync(ok: bool)
      requires Valid()
      modifies this, timers.itimer, clock
      ensures Valid() && View() == PortModel.IssueSync(cfg, old(View()), ok)
    {
      hide Reply, Next16, Numbered, Safe, ServoProperties.FiltersOk;
      NumberSync(ok);
      Send(SyncOut(sent.sync), ok);
    }

    method IssueAnnounce(ok: bool)
      requires Valid()
      modifies this, timers.itimer, clock
      ensures Valid() && View() == PortModel.IssueAnnounce(cfg, old(View()), ok)
    {
      hide Reply, Next16;
      if !cfg.ptpv2 {
        return;
      }
      sent := sent.(announce := Next16(sent.announce));
      gm := gm.(sequenceId := sent.announce);
      Send(AnnounceOut(sent.announce), ok);
    }

    method NumberDelayReq(ok: bool)
      requires Valid()
      modifies this`sent, this`delay, this`measures
      ensures Valid() && View() == Requested(old(View()), ok)
    {
      hide Safe, ServoProperties.FiltersOk, Next16;
      delay := delay.(sentRequest := true, receivedPeerResp := false);
      sent := sent.(delayReq := Next16(sent.delayReq));
      measures := measures + [RequestIssued(sent.delayReq, delay.t3.seconds != 0, delay.t4.seconds != 0)];
      delay := delay.(sequenceId := sent.delayReq);
      if !ok {
        delay := delay.(sentRequest := false);
      }
    }

    method IssueDelayReq(ok: bool)
      requires Valid()
      modifies this, timers.itimer, clock
      ensures Valid() && View() == PortModel.IssueDelayReq(cfg, old(View()), ok)
    {
      hide Reply, Requested, Safe, ServoProperties.FiltersOk;
      NumberDelayReq(ok);
      Send(DelayReqOut(sent.delayReq, cfg.ptpv2 && cfg.pdelay), ok);
    }

    // ----- Sync -----

    method RememberMaster(e: Entry)
      requires Valid()
      modifies this`recordUpdate, foreign`number, foreign`next, foreign.slots
      ensures Valid() && View() == Remember(old(View()), e)
    {
      hide Added;
      recordUpdate := true;
      var j := foreign.Add(e);
    }

    method CorrectClock(origin: TimeInternal, env: Inputs)
      requires Valid()
      modifies clock
      ensures Valid() && View() == Correct(cfg, old(View()), origin, env)
    {
      hide Servo.UpdateOffset, Servo.UpdateClock;
      ghost var v := ServoOffset(clock.View(), origin, sync.t2, sync.syncCorrection, sync.followupCorrection);
      clock.MeasureOffset(origin, sync.t2, sync.syncCorrection, sync.followupCorrection);
      assert clock.View() == v;
      ghost var w := PortTypes.ServoClock(cfg.servo, v, Readings(View(), env));
      clock.Adjust(Servo.SyncReadings(sync.t1, sync.t2, env.estimate, env.timeA, env.timeB, env.timeD));
      assert clock.View() == w;
    }

    method Note(m: Packet, time: TimeInternal)
      requires Valid()
      modifies this, foreign`number, foreign`next, foreign.slots
      ensures Valid() && View() == NoteSync(old(View()), m, time)
    {
      hide Added, Sender;
      if m.version == 1 {
        sync := sync.(syncCorrection := ZeroTime);
        sync := sync.(followupCorrection := ZeroTime);
        RememberMaster(FromSync(Candidate(m.header, m.sync)));
      } else {
        parent := parent.(lastSync := m.v2.sequenceId);
        sync := sync.(syncCorrection := m.v2.correction);
      }
      sync := sync.(t2 := time);
      if m.version == 1 {
        sync := sync.(waitingForFollow := m.header.assist);
      } else {
        sync := sync.(waitingForFollow := m.v2.twoStep);
      }
      Record(SyncAccepted(Sender(m), SequenceOf(m), time));
    }

    method Count(env: Inputs)
      requires Valid()
      modifies this, timers.itimer, clock
      ensures Valid() && View() == CountDown(cfg, old(View()), env)
    {
      hide PortModel.IssueDelayReq, Safe, ServoProperties.FiltersOk, Wrap16;
      sync := sync.(r := if sync.r == 0 then 0xFFFF else sync.r - 1);
      if sync.r == 0 {
        requests := Wrap16(requests + 1);
        if requests < 1000 {
          IssueDelayReq(env.replySent);
        }
        sync := sync.(r := env.requestRandom % 2 + 2);
      }
    }

    method Accept(m: Packet, time: TimeInternal, env: Inputs)
      requires Valid()
      modifies this, timers.itimer, foreign`number, foreign`next, foreign.slots, clock
      ensures Valid() && View() == AcceptSync(cfg, old(View()), m, time, env)
    {
      hide NoteSync, Correct, DataSets.S1, CountDown, Started, ReceiptTimeout;
      Note(m, time);
      if !sync.waitingForFollow {
        CorrectClock(m.stamp, env);
      }
      if m.version == 1 {
        S1(Candidate(m.header, m.sync));
      }
      Count(env);
      timers.Start(SYNC_RECEIPT, ReceiptTimeout(syncInterval));
    }

    method See(m: Packet, time: TimeInternal, env: Inputs)
      requires Valid()
      modifies this, timers.itimer, foreign`number, foreign`next, foreign.slots, clock
      ensures Valid() && View() == SeenSync(cfg, old(View()), m, time, env)
    {
      hide Remember, Reply, FromSelf, TechnologyOk;
      if m.version == 1 {
        if !TechnologyOk(cfg, m) {
          return;
        }
        if !FromSelf(cfg, m) {
          RememberMaster(FromSync(Candidate(m.header, m.sync)));
          return;
        }
      }
      if FromSelf(cfg, m) && sent.syncPending && SequenceOf(m) == sent.sync {
        sent := sent.(syncPending := false);
        Send(FollowUpOut(sent.sync, Sum(time, cfg.outboundLatency)), env.replySent);
      }
    }

    method HandleSync(m: Packet, time: TimeInternal, env: Inputs)
      requires Valid()
      modifies this, timers.itimer, foreign`number, foreign`next, foreign.slots, clock
      ensures Valid() && View() == PortModel.HandleSync(cfg, old(View()), m, time, env)
    {
      hide PortModel.ToFaulty, AcceptSync, SeenSync, FromSelf, Sender, ParentKey;
      if m.length < (if m.version == 1 then 124 else 44) {
        ToFaulty();
        return;
      }
      if time == ZeroTime {
        return;
      }
      match state
      case Faulty | Initializing | Disabled =>
      case Uncalibrated | Slave =>
        if FromSelf(cfg, m) || m.header.burst {
          return;
        }
        if Sender(m) == ParentKey(parent, m.version != 1) {
          if SequenceOf(m) == parent.lastSync {
            return;
          }
          Accept(m, time, env);
        }
        See(m, time, env);
      case _ =>
        See(m, time, env);
    }

    // ----- Follow_Up -----

    method UseFollowUp(m: Packet, env: Inputs)
      requires Valid()
      modifies this`sync, this`log, clock
      ensures Valid() && View() == PortModel.UseFollowUp(cfg, old(View()), m, env)
    {
      hide Correct, Sender;
      Record(FollowUpUsed(Sender(m), FollowUpNumber(m), sync.t2));
      sync := sync.(waitingForFollow := false);
      sync := sync.(t1 := m.stamp);
      if m.version != 1 {
        sync := sync.(followupCorrection := m.v2.correction);
      }
      CorrectClock(m.stamp, env);
    }

    method HandleFollowUp(m: Packet, env: Inputs)
      requires Valid()
      modifies this, timers.itimer, clock
      ensures Valid() && View() == PortModel.HandleFollowUp(cfg, old(View()), m, env)
    {
      hide PortModel.ToFaulty, PortModel.UseFollowUp, FromSelf, Sender, ParentKey;
      if m.length < (if m.version == 1 then 52 else 44) {
        ToFaulty();
        return;
      }
      if state != Slave || FromSelf(cfg, m) {
        return;
      }
      if m.version == 1 && m.header.burst {
        return;
      }
      var sequenceId := if m.version == 1 then m.associated else m.v2.sequenceId;
      if sync.waitingForFollow && sequenceId == parent.lastSync && Sender(m) == ParentKey(parent, m.version != 1) {
        UseFollowUp(m, env);
      }
    }

    // ----- delay request and response -----

    method FinishDelay()
      requires Valid()
      modifies this`delay, this`measures, clock
      ensures Valid() && View() == PortModel.FinishDelay(cfg, old(View()))
    {
      hide Servo.UpdateDelay;
      ghost var v := ServoDelay(cfg.servo, clock.View(), delay.t3, delay.t4, delay.respCorrection);
      measures := measures + [Measured(delay.t3, delay.t4, delay.respCorrection)];
      clock.MeasureDelay(delay.t3, delay.t4, delay.respCorrection);
      assert clock.View() == v;
      delay := delay.(t3 := ZeroTime, t4 := ZeroTime, respCorrection := ZeroTime);
      delay := delay.(sentRequest := false);
    }

    method FinishPeerDelay()
      requires Valid()
      modifies this`delay, this`measures, clock
      ensures Valid() && View() == PortModel.FinishPeerDelay(cfg, old(View()))
    {
      hide Servo.UpdatePathDelay;
      ghost var v := ServoPathDelay(cfg.servo, clock.View(), delay.peer);
      clock.MeasurePathDelay(delay.peer);
      assert clock.View() == v;
      delay := delay.(peer := NoPathTimes);
      delay := delay.(sentRequest := false);
    }

    method DelayReqTxComplete(m: Packet, time: TimeInternal)
      requires Valid()
      modifies this`delay, this`measures, clock
      ensures Valid() && View() == PortModel.DelayReqTxComplete(cfg, old(View()), m, time)
    {
      hide Sum, PortModel.FinishDelay, PortModel.FinishPeerDelay;
      if cfg.pdelay {
        delay := delay.(peer := delay.peer.(t1 := Sum(time, cfg.outboundLatency)));
        if delay.peer.t3.seconds != 0 {
          FinishPeerDelay();
        }
      } else {
        delay := delay.(t3 := Sum(time, cfg.outboundLatency));
        measures := measures + [LoopedBack(SequenceOf(m), delay.t3)];
        if delay.t4.seconds != 0 {
          FinishDelay();
        }
      }
    }

    method HandleDelayReq(m: Packet, time: TimeInternal, env: Inputs)
      requires Valid()
      modifies this, timers.itimer, clock
      ensures Valid() && View() == PortModel.HandleDelayReq(cfg, old(View()), m, time, env)
    {
      hide PortModel.ToFaulty, Reply, FromSelf, TechnologyOk, PortModel.DelayReqTxComplete;
      if m.length < (if m.version == 1 then 124 else 44) {
        ToFaulty();
        return;
      }
      if time == ZeroTime {
        return;
      }
      match state
      case Master =>
        if FromSelf(cfg, m) {
          return;
        }
        if m.version == 1 && !TechnologyOk(cfg, m) {
          return;
        }
        Send(DelayRespOut(Sender(m), SequenceOf(m), time, if m.version == 1 then ZeroTime else m.v2.correction), env.replySent);
      case Slave =>
        if FromSelf(cfg, m) {
          DelayReqTxComplete(m, time);
        }
      case _ =>
    }

    method UseDelayResp(m: Packet)
      requires Valid()
      modifies this`delay, this`measures, clock
      ensures Valid() && View() == PortModel.UseDelayResp(cfg, old(View()), m)
    {
      hide PortModel.FinishDelay;
      delay := delay.(t4 := m.stamp);
      delay := delay.(respCorrection := if m.version == 1 then ZeroTime else m.v2.correction);
      measures := measures + [Answered(AnswerNumber(m), m.stamp, delay.respCorrection)];
      if delay.t3.seconds != 0 {
        FinishDelay();
      }
    }

    method HandleDelayResp(m: Packet)
      requires Valid()
      modifies this, timers.itimer, clock
      ensures Valid() && View() == PortModel.HandleDelayResp(cfg, old(View()), m)
    {
      hide PortModel.ToFaulty, PortModel.UseDelayResp, FromSelf, Sender, ParentKey, Me;
      if m.length < (if m.version == 1 then 60 else 54) {
        ToFaulty();
        return;
      }
      if state != Slave || FromSelf(cfg, m) || !delay.sentRequest {
        return;
      }
      var ours :=
        if m.version == 1 then
          m.requestSequence == delay.sequenceId && m.requester == V1Key(cfg.technology, cfg.uuid, cfg.portId)
        else
          m.v2.sequenceId == delay.sequenceId && m.v2Requester == Me(cfg);
      if ours && Sender(m) == ParentKey(parent, m.version != 1) {
        UseDelayResp(m);
      }
    }

    // ----- peer delay -----

    method KeepRequest(m: Packet)
      requires Valid()
      modifies this`sent
      ensures Valid() && View() == Asked(old(View()), m)
    {
      hide Safe, ServoProperties.FiltersOk;
      sent := sent.(peer := PeerRequest(m.v2.source, m.v2.sequenceId, m.v2.correction));
    }

    method HandlePDelayReq(m: Packet, time: TimeInternal, env: Inputs)
      requires Valid()
      modifies this, timers.itimer, clock
      ensures Valid() && View() == PortModel.HandlePDelayReq(cfg, old(View()), m, time, env)
    {
      hide PortModel.ToFaulty, PortModel.FinishPeerDelay, FromSelf, Sum, Reply, Asked, Safe, ServoProperties.FiltersOk;
      if m.length < 54 {
        ToFaulty();
        return;
      }
      if time == ZeroTime {
        return;
      }
      if Active(state) {
        if FromSelf(cfg, m) {
          delay := delay.(peer := delay.peer.(t1 := Sum(time, cfg.outboundLatency)));
          if delay.peer.t4.seconds != 0 {
            FinishPeerDelay();
          }
        } else {
          KeepRequest(m);
          Send(PDelayRespOut(m.v2.source, m.v2.sequenceId, time), env.replySent);
        }
      }
    }

    method HandlePDelayResp(m: Packet, time: TimeInternal, env: Inputs)
      requires Valid()
      modifies this, timers.itimer, clock
      ensures Valid() && View() == PortModel.HandlePDelayResp(cfg, old(View()), m, time, env)
    {
      hide PortModel.ToFaulty, PortModel.FinishPeerDelay, FromSelf, Sum, Reply, Me;
      if m.length < 54 {
        ToFaulty();
        return;
      }
      if time == ZeroTime || !Active(state) {
        return;
      }
      if FromSelf(cfg, m) {
        delay := delay.(peer := delay.peer.(t3 := Sum(time, cfg.outboundLatency)));
        Send(PDelayRespFollowUpOut(sent.peer, delay.peer.t3), env.replySent);
        return;
      }
      var current := m.v2.sequenceId == delay.sequenceId;
      if !cfg.pdelay || m.v2Requester != Me(cfg) || (delay.receivedPeerResp && current) {
        ToFaulty();
        return;
      }
      if !current {
        return;
      }
      if !delay.sentRequest {
        ToFaulty();
        return;
      }
      delay := delay.(receivedPeerResp := true);
      delay := delay.(waitingForPeerFollow := m.v2.twoStep);
      delay := delay.(peer := delay.peer.(t4 := time, t2 := m.stamp, respCorrection := m.v2.correction));
      if !delay.waitingForPeerFollow && delay.peer.t1.seconds != 0 {
        FinishPeerDelay();
      }
    }

    method HandlePDelayRespFollowUp(m: Packet)
      requires Valid()
      modifies this, timers.itimer, clock
      ensures Valid() && View() == PortModel.HandlePDelayRespFollowUp(cfg, old(View()), m)
    {
      hide PortModel.ToFaulty, ServoPathDelay, FromSelf, Me;
      if m.length < 54 {
        ToFaulty();
        return;
      }
      if !Active(state) || FromSelf(cfg, m) {
        return;
      }
      if !cfg.pdelay || m.v2Requester != Me(cfg) {
        ToFaulty();
        return;
      }
      if m.v2.sequenceId != delay.sequenceId {
        return;
      }
      if !delay.sentRequest {
        ToFaulty();
        return;
      }
      delay := delay.(peer := delay.peer.(t3 := m.stamp, followupCorrection := m.v2.correction));
      if delay.waitingForPeerFollow {
        if delay.peer.t1.seconds != 0 {
          FinishPeerDelay();
        }
        delay := delay.(sentRequest := false);
      }
    }

    // ----- Announce and management -----

    method HandleAnnounce(m: Packet)
      requires Valid()
      modifies this, timers.itimer, foreign`number, foreign`next, foreign.slots, clock
      ensures Valid() && View() == PortModel.HandleAnnounce(cfg, old(View()), m)
    {
      hide PortModel.ToFaulty, FromSelf, Remember, DataSets.V2S1, ParentKey;
      if m.length < 64 {
        ToFaulty();
        return;
      }
      if !Active(state) || FromSelf(cfg, m) {
        return;
      }
      var e := FromAnnounce(m.v2.source, m.announce, m.translated);
      if (state == Slave || state == Uncalibrated) && V2Key(m.v2.source) == ParentKey(parent, true) {
        if m.v2.sequenceId == parent.lastAnnounce {
          return;
        }
        RememberMaster(e);
        V2S1(Announced(m));
      }
      RememberMaster(e);
    }

    method UnloadManagement(c: Management) returns (s: PortState)
      requires Valid()
      modifies this`own, this`configuredInterval
      ensures Valid() && (View(), s) == Unload(old(View()), c, cfg)
    {
      match c {
        case InitializeClock =>
          return Initializing;
        case GotoFaulty =>
          return Faulty;
        case DisablePort(port) =>
          if port == 1 {
            return Disabled;
          }
        case EnablePort(port) =>
          if port == 1 {
            return Initializing;
          }
        case SetPreferred(preferred) =>
          own := own.(preferred := preferred);
        case SetSyncInterval(interval) =>
          configuredInterval := interval;
        case UpdateDefaultDataSet(stratum, identifier, variance, preferred, interval) =>
          if !cfg.slaveOnly {
            own := own.(stratum := stratum);
          }
          own := own.(identifier := identifier, variance := variance, preferred := preferred);
          configuredInterval := interval;
        case _ =>
      }
      return state;
    }

    method HandleManagement(c: Management, env: Inputs)
      requires Valid()
      modifies this, timers.itimer, clock
      ensures Valid() && View() == PortModel.HandleManagement(cfg, old(View()), c, env)
    {
      hide Command, Reply;
      if state == Initializing {
        return;
      }
      match c
      case ForAnother =>
      case Query(answered) =>
        if answered {
          Send(ManagementOut, env.replySent);
        }
      case _ =>
        Execute(c);
    }

    method Execute(c: Management)
      requires Valid()
      modifies this, timers.itimer, clock
      ensures Valid() && View() == Command(cfg, old(View()), c)
    {
      hide PortModel.ToState, Unload;
      recordUpdate := true;
      var s := UnloadManagement(c);
      if s != state {
        ToState(s, 0);
      }
    }

    // ----- receiving -----

    method Dispatch(m: Packet, env: Inputs)
      requires Valid()
      modifies this, timers.itimer, foreign`number, foreign`next, foreign.slots, clock
      ensures Valid() && View() == PortModel.Dispatch(cfg, old(View()), m, env)
    {
      hide PortModel.HandleSync, PortModel.HandleFollowUp, PortModel.HandleDelayReq, PortModel.HandleDelayResp,
           PortModel.HandlePDelayReq, PortModel.HandlePDelayResp, PortModel.HandlePDelayRespFollowUp,
           PortModel.HandleAnnounce, PortModel.HandleManagement, ReceiveTime;
      var time := ReceiveTime(cfg, m);
      if kind == SYNC {
        HandleSync(m, time, env);
      } else if kind == FOLLOW_UP {
        HandleFollowUp(m, env);
      } else if kind == DELAY_REQ {
        if time.seconds != 0 {
          HandleDelayReq(m, time, env);
        }
      } else if kind == DELAY_RESP {
        HandleDelayResp(m);
      } else if kind == V1_MANAGEMENT {
        if m.version == 1 {
          HandleManagement(m.management, env);
        }
      } else if kind == ANNOUNCE {
        HandleAnnounce(m);
      } else if kind == PDELAY_REQ {
        HandlePDelayReq(m, time, env);
      } else if kind == PDELAY_RESP {
        HandlePDelayResp(m, time, env);
      } else if kind == PDELAY_RESP_FOLLOW_UP {
        HandlePDelayRespFollowUp(m);
      }
    }

    method Handle(env: Inputs)
      requires Valid()
      modifies this, timers.itimer, foreign`number, foreign`next, foreign.slots, clock
      ensures Valid() && View() == PortModel.Handle(cfg, old(View()), env)
    {
      hide PortModel.ToFaulty, PortModel.Dispatch, KindOf;
      match env.reception
      case Failed => ToFaulty();
      case Nothing =>
      case Received(m) =>
        if m.length < HEADER_LENGTH {
          ToFaulty();
          return;
        }
        if m.version == 1 || m.version == 2 {
          kind := KindOf(m, kind);
          Dispatch(m, env);
        }
    }

    // ----- one round of the main loop -----

    method Reconsider(env: Inputs)
      requires Valid()
      modifies this, timers.itimer, foreign`best, clock
      ensures Valid() && View() == PortModel.Reconsider(cfg, old(View()), env)
    {
      hide PortModel.ToState, Decision;
      if Deciding(state) && recordUpdate {
        ghost var before := state;
        recordUpdate := false;
        Record(Decided(ParentsRecords(foreign.View(), parent)));
        var s := BestMasterClock();
        assert state == before;
        if s != state {
          ToState(s, env.slaveRandom);
        }
      }
    }

    method CheckReceipt(ticks: nat)
      requires Valid()
      modifies this, timers, timers.itimer, foreign`number, foreign`next, clock
      ensures Valid() && View() == PortModel.CheckReceipt(cfg, old(View()), ticks)
    {
      hide ReceiptTimedOut, Updated, Cleared;
      timers.CatchAlarm(ticks);
      var expired := timers.Expired(SYNC_RECEIPT);
      if expired {
        TimeOut();
      }
    }

    method TimeOut()
      requires Valid()
      modifies this, timers.itimer, foreign`number, foreign`next, clock
      ensures Valid() && View() == ReceiptTimedOut(cfg, old(View()))
    {
      hide PortModel.ToState, DataSets.M1;
      foreign.Forget();
      Record(Restarted(0));
      if !cfg.slaveOnly && own.stratum != 255 {
        M1();
        ToState(Master, 0);
      } else if state != Listening {
        ToState(Listening, 0);
      }
    }

    method CheckSync(env: Inputs)
      requires Valid()
      modifies this, timers, timers.itimer, clock
      ensures Valid() && View() == PortModel.CheckSync(cfg, old(View()), env)
    {
      hide PortModel.IssueSync, Updated, Cleared;
      timers.CatchAlarm(env.syncTicks);
      var expired := timers.Expired(SYNC_INTERVAL);
      if expired {
        IssueSync(env.syncSent);
      }
    }

    method CheckAnnounce(env: Inputs)
      requires Valid()
      modifies this, timers, timers.itimer, clock
      ensures Valid() && View() == PortModel.CheckAnnounce(cfg, old(View()), env)
    {
      hide PortModel.IssueAnnounce, Updated, Cleared;
      timers.CatchAlarm(env.announceTicks);
      var expired := timers.Expired(ANNOUNCE_INTERVAL);
      if expired {
        IssueAnnounce(env.announceSent);
      }
    }

    method DoState(env: Inputs)
      requires Valid()
      modifies this, timers, timers.itimer, foreign, foreign.slots, clock
      ensures Valid() && View() == PortModel.DoState(cfg, old(View()), env)
    {
      hide PortModel.Reconsider, PortModel.ToState, PortModel.Handle, PortModel.CheckReceipt, PortModel.CheckSync,
           PortModel.CheckAnnounce;
      Reconsider(env);
      match state
      case Faulty =>
        ToState(Initializing, 0);
      case Listening | Passive | Uncalibrated | Slave =>
        Handle(env);
        CheckReceipt(env.receiptTicks);
      case Master =>
        CheckSync(env);
        CheckAnnounce(env);
        Handle(env);
      case Disabled =>
        Handle(env);
      case _ =>
    }

    method InitData()
      requires Valid()
      modifies this, foreign`number
      ensures Valid() && View() == PortModel.InitData(cfg, old(View()))
    {
      hide InitialOwnClock, ServoProperties.FiltersOk, Next16;
      sent := sent.(sync := 0, announce := 0, delayReq := 0);
      own := InitialOwnClock(cfg);
      syncInterval := configuredInterval;
      foreign.number := 0;
      Record(Restarted(foreign.next));
    }

    method DoInit(env: Inputs) returns (ok: bool)
      requires Valid()
      modifies this, timers.itimer, foreign`number, clock
      ensures Valid() && View() == PortModel.DoInit(cfg, old(View()), env) && ok == env.networkUp
    {
      hide PortModel.ToState, PortModel.InitData, DataSets.M1, ServoInit;
      if !env.networkUp {
        ToFaulty();
        return false;
      }
      InitData();
      InitClock();
      M1();
      ToState(Listening, 0);
      return true;
    }

    /** The main loop, for as many rounds as there are inputs. */
    method Protocol(envs: seq<Inputs>)
      requires Valid()
      modifies this, timers, timers.itimer, foreign, foreign.slots, clock
      ensures Valid() && View() == Run(cfg, old(View()), envs)
    {
      hide PortModel.DoState, PortModel.DoInit;
      ghost var start := View();
      for i := 0 to |envs|
        invariant Valid() && Run(cfg, View(), envs[i..]) == Run(cfg, start, envs)
      {
        assert envs[i..][1..] == envs[i + 1..];
        if state != Initializing {
          DoState(envs[i]);
        } else {
          var ok := DoInit(envs[i]);
          if !ok {
            return;
          }
        }
      }
    }
  }
}
