/** Whom a port follows, over every run: the parent and grandmaster data sets and the steps removed. */
module PortParents {
  import opened Octets
  import opened Arith
  import opened Bmc
  import opened V2Bmc
  import opened Timers
  import opened ForeignMasters
  import opened PortTypes
  import opened DataSets
  import opened PortModel
  import opened PortFrames

  /** The message last applied as the reference. */
  datatype Reference = NoReference | ByV1Sync(c: Candidate) | ByAnnounce(v2: V2Candidate)

  function ReferenceIn(log: seq<Event>): Reference
    decreases |log|
  {
    if log == [] then NoReference
    else
      var e := log[|log| - 1];
      if e.AppliedSync? then ByV1Sync(e.c)
      else if e.AppliedAnnounce? then ByAnnounce(e.v2)
      else ReferenceIn(log[..|log| - 1])
  }

  lemma ReferenceAfter(log: seq<Event>, e: Event)
    ensures ReferenceIn(log + [e]) ==
            if e.AppliedSync? then ByV1Sync(e.c) else if e.AppliedAnnounce? then ByAnnounce(e.v2) else ReferenceIn(log)
  {
    assert (log + [e])[..|log|] == log;
  }

  /** The port is its own grandmaster. */
  predicate Own(cfg: Config, parent: Parent, gm: Grandmaster, stepsRemoved: UInteger16) {
    && ParentKey(parent, false) == V1Key(cfg.technology, cfg.uuid, 0)
    && ParentKey(parent, true) == V2Key(PortIdentity(cfg.clockIdentity, 0))
    && gm.technology == cfg.technology && gm.uuid == cfg.uuid && gm.clockIdentity == cfg.clockIdentity && gm.portId == 0
    && gm.priority1 == cfg.priority1 && gm.quality == cfg.quality && gm.priority2 == PRIORITY2
    && stepsRemoved == 0
  }

  /** Parent, grandmaster and distance are those of the message applied. */
  predicate Follows(r: Reference, parent: Parent, gm: Grandmaster, stepsRemoved: UInteger16) {
    match r
    case NoReference => false
    case ByV1Sync(c) =>
      && ParentKey(parent, false) == SourceKey(c.header)
      && gm.technology == c.sync.technology && gm.uuid == c.sync.uuid && gm.portId == c.sync.portId
      && stepsRemoved == Next16(c.sync.stepsRemoved)
    case ByAnnounce(c) =>
      && ParentKey(parent, true) == V2Key(c.source)
      && gm.clockIdentity == c.announce.identity && gm.portId == 1 && gm.priority1 == c.announce.priority1
      && gm.quality == c.announce.quality && gm.priority2 == c.announce.priority2
      && stepsRemoved == Next16(c.announce.stepsRemoved)
  }

  predicate DataSetsOf(cfg: Config, state: PortState, parent: Parent, gm: Grandmaster, stepsRemoved: UInteger16, r: Reference) {
    match state
    case Master => Own(cfg, parent, gm, stepsRemoved)
    case Slave | Passive => Follows(r, parent, gm, stepsRemoved)
    case Uncalibrated | PreMaster => false
    case _ => true
  }

  predicate DataSetsOk(cfg: Config, p: Port) {
    DataSetsOf(cfg, p.state, p.parent, p.gm, p.stepsRemoved, ReferenceIn(p.log))
  }

  lemma QuietDataSets(cfg: Config, p: Port, q: Port)
    requires DataSetsOk(cfg, p) && Quiet(p, q)
    ensures DataSetsOk(cfg, q)
  {
    hide ReferenceIn, ParentKey;
    assert q.gm == p.gm.(sequenceId := q.gm.sequenceId);
  }

  lemma RememberedDataSets(cfg: Config, p: Port, e: Entry)
    requires DataSetsOk(cfg, p)
    ensures DataSetsOk(cfg, Remember(p, e))
  {
    hide DataSetsOf, Added;
  }

  lemma OwnIsOwn(cfg: Config, p: Port)
    ensures var q := M1(cfg, p); Own(cfg, q.parent, q.gm, q.stepsRemoved) && q.state == p.state
  {
  }

  lemma AppliedFollows(p: Port, c: Candidate)
    ensures var q := S1(p, c);
            Follows(ReferenceIn(q.log), q.parent, q.gm, q.stepsRemoved) && q.state == p.state
  {
    hide ReferenceIn;
    ReferenceAfter(p.log, AppliedSync(c));
  }

  lemma V2AppliedFollows(p: Port, c: V2Candidate)
    ensures var q := V2S1(p, c);
            Follows(ReferenceIn(q.log), q.parent, q.gm, q.stepsRemoved) && q.state == p.state
  {
    hide ReferenceIn;
    ReferenceAfter(p.log, AppliedAnnounce(c));
  }

  /** A decision for MASTER leaves the own data sets, one for SLAVE or PASSIVE those of the best record. */
  lemma DecisionSetsData(cfg: Config, p: Port)
    requires DataSetsOk(cfg, p) && Deciding(p.state)
    ensures var (q, s) := Decision(cfg, p);
            DataSetsOf(cfg, s, q.parent, q.gm, q.stepsRemoved, ReferenceIn(q.log)) && Deciding(s)
  {
    hide M1, S1, V2S1, BestRecord, ReferenceIn, Own, Follows, D0, V2D0;
    OwnIsOwn(cfg, p);
    if p.table.number > 0 {
      var best := BestRecord(cfg, p.table);
      var q := p.(table := p.table.(best := best));
      OwnIsOwn(cfg, q);
      AppliedFollows(q, q.table.slots[best].v1);
      V2AppliedFollows(q, q.table.slots[best].v2);
    }
  }

  lemma ReconsideredDataSets(cfg: Config, p: Port, env: Inputs)
    requires DataSetsOk(cfg, p)
    ensures DataSetsOk(cfg, Reconsider(cfg, p, env))
  {
    hide Decision, ToState, DataSetsOf, ReferenceIn;
    if Deciding(p.state) && p.recordUpdate {
      var q := Reconsidering(p);
      ReferenceAfter(p.log, Decided(ParentsRecords(p.table, p.parent)));
      DecisionSetsData(cfg, q);
      DecisionKeepsState(cfg, q);
      var (d, s) := Decision(cfg, q);
      if s != p.state { EnteredState(cfg, d, s, env.slaveRandom); }
    }
  }

  lemma NotedDataSets(p: Port, m: Packet, time: TimeInternal)
    ensures var q := NoteSync(p, m, time);
            && q.state == p.state && q.gm == p.gm && q.stepsRemoved == p.stepsRemoved
            && ReferenceIn(q.log) == ReferenceIn(p.log) && q.parent == p.parent.(lastSync := q.parent.lastSync)
  {
    hide Added, ReferenceIn;
    ReferenceAfter(p.log, SyncAccepted(Sender(m), SequenceOf(m), time));
  }

  lemma AcceptedDataSets(cfg: Config, p: Port, m: Packet, time: TimeInternal, env: Inputs)
    requires DataSetsOk(cfg, p) && p.state == Slave
    ensures DataSetsOk(cfg, AcceptSync(cfg, p, m, time, env))
  {
    hide NoteSync, Correct, S1, CountDown, Quiet, Started, ReceiptTimeout, DataSetsOk;
    var noted := NoteSync(p, m, time);
    LastSyncDoesNotMatter(cfg, p, m, time);
    var corrected := if noted.sync.waitingForFollow then noted else Correct(cfg, noted, m.stamp, env);
    if !noted.sync.waitingForFollow {
      CorrectIsQuiet(cfg, noted, m.stamp, env);
      QuietDataSets(cfg, noted, corrected);
    }
    var applied := if m.version == 1 then S1(corrected, Candidate(m.header, m.sync)) else corrected;
    SlaveApplied(cfg, corrected, Candidate(m.header, m.sync));
    var counted := CountDown(cfg, applied, env);
    CountDownIsQuiet(cfg, applied, env);
    QuietDataSets(cfg, applied, counted);
    TimersDoNotMatter(cfg, counted, Started(counted.timers, SYNC_RECEIPT, ReceiptTimeout(counted.syncInterval)));
  }

  lemma LastSyncDoesNotMatter(cfg: Config, p: Port, m: Packet, time: TimeInternal)
    requires DataSetsOk(cfg, p) && p.state == Slave
    ensures DataSetsOk(cfg, NoteSync(p, m, time)) && NoteSync(p, m, time).state == Slave
  {
    hide NoteSync, ReferenceIn;
    NotedDataSets(p, m, time);
  }

  lemma SlaveApplied(cfg: Config, p: Port, c: Candidate)
    requires p.state == Slave
    ensures DataSetsOk(cfg, S1(p, c))
  {
    hide S1, ReferenceIn, Follows;
    AppliedFollows(p, c);
  }

  lemma TimersDoNotMatter(cfg: Config, p: Port, ts: TimerArray)
    requires DataSetsOk(cfg, p)
    ensures DataSetsOk(cfg, p.(timers := ts))
  {
  }

  lemma SyncDataSets(cfg: Config, p: Port, m: Packet, time: TimeInternal, env: Inputs)
    requires DataSetsOk(cfg, p)
    ensures DataSetsOk(cfg, HandleSync(cfg, p, m, time, env))
  {
    hide ToFaulty, AcceptSync, SeenSync, Quiet, Own, Follows, ReferenceIn;
    FaultIsQuiet(cfg, p);
    QuietDataSets(cfg, p, ToFaulty(cfg, p));
    SeenSyncDataSets(cfg, p, m, time, env);
    if p.state == Slave {
      AcceptedDataSets(cfg, p, m, time, env);
      SeenSyncDataSets(cfg, AcceptSync(cfg, p, m, time, env), m, time, env);
    }
  }

  lemma SeenSyncDataSets(cfg: Config, p: Port, m: Packet, time: TimeInternal, env: Inputs)
    requires DataSetsOk(cfg, p)
    ensures DataSetsOk(cfg, SeenSync(cfg, p, m, time, env))
  {
    hide SeenSync, DataSetsOk, Quiet;
    SeenSyncIsQuiet(cfg, p, m, time, env);
    RememberedDataSets(cfg, p, FromSync(Candidate(m.header, m.sync)));
    if Quiet(p, SeenSync(cfg, p, m, time, env)) { QuietDataSets(cfg, p, SeenSync(cfg, p, m, time, env)); }
  }

  lemma FollowUpDataSets(cfg: Config, p: Port, m: Packet, env: Inputs)
    requires DataSetsOk(cfg, p)
    ensures DataSetsOk(cfg, HandleFollowUp(cfg, p, m, env))
  {
    hide ToFaulty, FollowUpExpected, Correct, Quiet, DataSetsOf, ReferenceIn;
    FaultIsQuiet(cfg, p);
    QuietDataSets(cfg, p, ToFaulty(cfg, p));
    var times := if m.version == 1 then p.sync.(waitingForFollow := false, t1 := m.stamp)
                 else p.sync.(waitingForFollow := false, t1 := m.stamp, followupCorrection := m.v2.correction);
    var e := FollowUpUsed(Sender(m), FollowUpNumber(m), p.sync.t2);
    var q := p.(sync := times, log := p.log + [e]);
    ReferenceAfter(p.log, e);
    CorrectIsQuiet(cfg, q, m.stamp, env);
    QuietDataSets(cfg, q, Correct(cfg, q, m.stamp, env));
  }

  lemma AnnounceDataSets(cfg: Config, p: Port, m: Packet)
    requires DataSetsOk(cfg, p)
    ensures DataSetsOk(cfg, HandleAnnounce(cfg, p, m))
  {
    hide ToFaulty, ReferenceIn, V2S1, Added, Quiet, Own, Follows;
    FaultIsQuiet(cfg, p);
    QuietDataSets(cfg, p, ToFaulty(cfg, p));
    var e := FromAnnounce(m.v2.source, m.announce, m.translated);
    RememberedDataSets(cfg, p, e);
    if p.state == Slave {
      var q := Remember(p, e);
      SlaveFollows(cfg, q, Announced(m));
      RememberedDataSets(cfg, V2S1(q, Announced(m)), e);
    }
  }

  lemma SlaveFollows(cfg: Config, p: Port, c: V2Candidate)
    ensures p.state == Slave ==> DataSetsOk(cfg, V2S1(p, c))
  {
    hide V2S1, ReferenceIn, Follows;
    V2AppliedFollows(p, c);
  }

  lemma HandleDataSets(cfg: Config, p: Port, env: Inputs)
    requires DataSetsOk(cfg, p)
    ensures DataSetsOk(cfg, Handle(cfg, p, env))
  {
    hide HandleSync, HandleFollowUp, HandleDelayReq, HandleDelayResp, HandlePDelayReq, HandlePDelayResp,
         HandlePDelayRespFollowUp, HandleAnnounce, HandleManagement, ToFaulty, KindOf, ReceiveTime, DataSetsOf, Quiet;
    FaultIsQuiet(cfg, p);
    QuietDataSets(cfg, p, ToFaulty(cfg, p));
    if env.reception.Received? {
      var m := env.reception.packet;
      var q := p.(kind := KindOf(m, p.kind));
      SyncDataSets(cfg, q, m, ReceiveTime(cfg, m), env);
      FollowUpDataSets(cfg, q, m, env);
      AnnounceDataSets(cfg, q, m);
      if q.kind != SYNC && q.kind != FOLLOW_UP && q.kind != ANNOUNCE {
        OtherPacketsAreQuiet(cfg, q, m, env);
        QuietDataSets(cfg, q, Dispatch(cfg, q, m, env));
      }
    }
  }

  lemma ReceiptDataSets(cfg: Config, p: Port, ticks: nat)
    requires DataSetsOk(cfg, p)
    ensures DataSetsOk(cfg, CheckReceipt(cfg, p, ticks))
  {
    hide ToState, Updated, Cleared, Flagged, M1, ReferenceIn, Own, Follows;
    var q := p.(timers := Cleared(Updated(p.timers, ticks), SYNC_RECEIPT));
    var forgot := q.(table := q.table.(number := 0, next := 0), log := q.log + [Restarted(0)]);
    ReferenceAfter(p.log, Restarted(0));
    OwnIsOwn(cfg, forgot);
    EnteredState(cfg, M1(cfg, forgot), Master, 0);
    EnteredState(cfg, forgot, Listening, 0);
  }

  lemma StepDataSets(cfg: Config, p: Port, env: Inputs)
    requires DataSetsOk(cfg, p)
    ensures DataSetsOk(cfg, Step(cfg, p, env))
  {
    hide ToState, Reconsider, Handle, CheckSync, CheckAnnounce, CheckReceipt, DataSetsOk, Quiet, DoInit;
    if p.state == Initializing {
      InitDataSets(cfg, p, env);
    } else {
      ReconsideredDataSets(cfg, p, env);
      var q := Reconsider(cfg, p, env);
      HandleDataSets(cfg, q, env);
      ReceiptDataSets(cfg, Handle(cfg, q, env), env.receiptTicks);
      BecomesInactive(cfg, q, Initializing);
      QuietDataSets(cfg, q, ToState(cfg, q, Initializing, 0));
      TransmissionIsQuiet(cfg, q, env);
      QuietDataSets(cfg, q, CheckSync(cfg, q, env));
      TransmissionIsQuiet(cfg, CheckSync(cfg, q, env), env);
      QuietDataSets(cfg, CheckSync(cfg, q, env), CheckAnnounce(cfg, CheckSync(cfg, q, env), env));
      HandleDataSets(cfg, CheckAnnounce(cfg, CheckSync(cfg, q, env), env), env);
    }
  }

  lemma InitDataSets(cfg: Config, p: Port, env: Inputs)
    ensures p.state == Initializing ==> DataSetsOk(cfg, DoInit(cfg, p, env))
  {
    hide ToState, M1, ReferenceIn, InitData, ServoInit;
    EnteredState(cfg, p, Faulty, 0);
    var q := InitData(cfg, p);
    EnteredState(cfg, M1(cfg, q.(servo := ServoInit(cfg.servo, q.servo))), Listening, 0);
  }

  lemma {:induction false} RunKeepsDataSets(cfg: Config, p: Port, envs: seq<Inputs>)
    requires DataSetsOk(cfg, p)
    ensures DataSetsOk(cfg, Run(cfg, p, envs))
    decreases |envs|
  {
    hide Step, DataSetsOk;
    if envs != [] {
      StepDataSets(cfg, p, envs[0]);
      if !Stops(p, envs[0]) { RunKeepsDataSets(cfg, Step(cfg, p, envs[0]), envs[1..]); }
    }
  }

  /** In every state a port can reach, also when messages of both versions come in: a MASTER is its own
      parent and grandmaster at distance 0; a SLAVE or PASSIVE port has as parent the sender of the
      message last applied, as grandmaster the one that message names, and one step more. */
  lemma DataSetsInEveryRun(cfg: Config, envs: seq<Inputs>)
    requires ValidConfig(cfg)
    ensures DataSetsOk(cfg, Run(cfg, PowerUp(cfg), envs))
  {
    RunKeepsDataSets(cfg, PowerUp(cfg), envs);
  }

  // ----- who steers a slave -----

  /** Shortest message of a kind. */
  function MinimumLength(kind: nat, version: nat): int {
    if kind == SYNC || kind == DELAY_REQ then (if version == 1 then 124 else 44)
    else if kind == FOLLOW_UP then (if version == 1 then 52 else 44)
    else if kind == DELAY_RESP then (if version == 1 then 60 else 54)
    else 64
  }

  /** A Sync, Follow_Up, Delay_Req, Delay_Resp or Announce of another clock than the parent, unless too
      short for its kind, changes nothing that a SLAVE follows: not its servo, nor its data sets, the
      Sync or the delay request in progress, nor its state. */
  lemma OnlyTheParentSteers(cfg: Config, p: Port, m: Packet, env: Inputs)
    requires p.state == Slave && !FromSelf(cfg, m) && !FromParent(p, m)
    requires p.kind in {SYNC, FOLLOW_UP, DELAY_REQ, DELAY_RESP, ANNOUNCE}
    requires m.length >= MinimumLength(p.kind, m.version)
    requires p.kind == ANNOUNCE ==> V2Key(m.v2.source) != ParentKey(p.parent, true)
    ensures var q := Dispatch(cfg, p, m, env);
            && q.state == Slave && q.servo == p.servo && q.sync == p.sync && q.delay == p.delay
            && q.parent == p.parent && q.gm == p.gm && q.stepsRemoved == p.stepsRemoved
  {
    hide FromSelf, FromParent, ToFaulty, Added, ReceiveTime, AcceptSync, UseFollowUp, UseDelayResp, DelayReqTxComplete;
  }
}
