/** What messages and changes of state leave behind in a port, case by case. */
module PortMessages {
  import opened Octets
  import opened Arith
  import opened Bmc
  import opened V2Bmc
  import opened Timers
  import opened ForeignMasters
  import opened PortTypes
  import opened DataSets
  import opened PortModel
  import opened Serving
  import Servo
  import Synchronization

  // ----- leaving and entering SLAVE -----

  /** What initClock leaves of the measurements: nothing but the delay in use and the value of its filter. */
  predicate Cleared(v: Filtered) {
    && v.offset == ZeroTime && v.masterToSlave == ZeroTime && v.slaveToMaster == ZeroTime
    && v.drift == 0 && v.ofm.nsecPrev == -1 && v.owd.sExp == 0
  }

  /** A change of state touches the servo exactly if it leaves or enters SLAVE, and then clears it and gives the
      base rate anew. */
  lemma ServoOfChange(cfg: Config, p: Port, s: PortState, random: UInteger16)
    ensures var v, w := p.servo, ToState(cfg, p, s, random).servo;
            if p.state == Slave || s == Slave then
              && Cleared(w) && w.oneWayDelay == v.oneWayDelay && w.owd.y == v.owd.y
              && |v.commands| <= |w.commands| && w.commands[..|v.commands|] == v.commands
              && (|w.commands| == |v.commands| <==> cfg.servo.noAdjust)
              && (!cfg.servo.noAdjust ==> w.commands[|w.commands| - 1] == Servo.AdjFreq(w.base, w.base, Servo.Restored))
            else w == v
  {
    hide Started, Stopped, ReceiptTimeout, SyncTimeout;
    if p.state == Slave {
      InitClears(cfg.servo, p.servo);
      InitClears(cfg.servo, ServoInit(cfg.servo, p.servo));
    } else {
      InitClears(cfg.servo, p.servo);
    }
  }

  lemma InitClears(o: ServoOptions, v: Filtered)
    ensures var w := ServoInit(o, v);
            && Cleared(w) && w.oneWayDelay == v.oneWayDelay && w.owd.y == v.owd.y
            && w.commands == v.commands + (if o.noAdjust then [] else [Servo.AdjFreq(w.base, w.base, Servo.Restored)])
  {
  }

  /** A new SLAVE waits four to seven Syncs for its first delay request, and for no Follow_Up. */
  lemma NewSlave(cfg: Config, p: Port, random: UInteger16)
    ensures var q := ToState(cfg, p, Slave, random);
            q.state == Slave && 4 <= q.sync.r <= 7 && q.sync.r % 4 == random % 4 && !q.sync.waitingForFollow
  {
    hide ServoInit, Started, Stopped, ReceiptTimeout;
  }

  // ----- becoming MASTER, and starting -----

  /** The own clock is the reference: no offset, no delay, no steps, and the own attributes are announced. */
  predicate IsReference(cfg: Config, p: Port) {
    && p.servo.offset == ZeroTime && p.servo.oneWayDelay == ZeroTime && p.stepsRemoved == 0
    && p.gm.clockIdentity == cfg.clockIdentity && p.gm.uuid == cfg.uuid && p.gm.sequenceId == p.sent.sync
    && p.gm.priority1 == cfg.priority1 && p.gm.quality == cfg.quality && p.gm.priority2 == 128
  }

  lemma ReferenceStays(cfg: Config, p: Port, s: PortState)
    requires IsReference(cfg, p)
    ensures IsReference(cfg, ToState(cfg, p, s, 0))
  {
    hide ServoInit, Started, Stopped, ReceiptTimeout, SyncTimeout;
    ServoOfChange(cfg, p, s, 0);
  }

  /** A decision for MASTER makes the own clock the reference. */
  lemma MasterIsReference(cfg: Config, p: Port)
    requires p.table.number > 0 && Decision(cfg, p).1 == Master
    ensures IsReference(cfg, Decision(cfg, p).0)
  {
    hide BestRecord, Compare, V2Compare;
  }

  /** So does a receipt timeout, if the port may be master. */
  lemma TimeoutIsReference(cfg: Config, p: Port)
    requires !cfg.slaveOnly && p.own.stratum != 255
    ensures var q := ReceiptTimedOut(cfg, p); q.state == Master && IsReference(cfg, q) && q.table.number == 0
  {
    hide ToState;
    var q := p.(table := p.table.(number := 0, next := 0), log := p.log + [Restarted(0)]);
    ReferenceStays(cfg, M1(cfg, q), Master);
    EntersMaster(cfg, M1(cfg, q));
  }

  lemma EntersMaster(cfg: Config, p: Port)
    ensures ToState(cfg, p, Master, 0).state == Master && ToState(cfg, p, Master, 0).table == p.table
  {
    hide ServoInit, ReceiptTimeout, SyncTimeout, Started, Stopped;
  }

  /** The stratum a port starts with: that of the options if it is one that exists, 4 if not, and 255 if the port
      is slave-only. */
  lemma StartingStratum(cfg: Config)
    ensures InitialOwnClock(cfg).stratum ==
            if cfg.slaveOnly || cfg.stratum == 255 then 255 else if cfg.stratum < 4 then cfg.stratum else 4
  {
  }

  /** The round that starts a port, after whatever has happened to it before. */
  lemma Starting(cfg: Config, p: Port, env: Inputs)
    requires p.state == Initializing
    ensures var q := Step(cfg, p, env);
            if !env.networkUp then q.state == Faulty && Stops(p, env)
            else
              && q.state == Listening && !Stops(p, env) && IsReference(cfg, q) && Cleared(q.servo)
              && q.sent.sync == 0 && q.sent.announce == 0 && q.sent.delayReq == 0 && q.table.number == 0
              && q.syncInterval == p.configuredInterval && q.own == InitialOwnClock(cfg)
              && q.timers[SYNC_RECEIPT] == IntervalTimer(ReceiptTimeout(q.syncInterval), ReceiptTimeout(q.syncInterval), false)
  {
    hide ReceiptTimeout, InitialOwnClock;
  }

  // ----- management -----

  /** An interval set by a management message is used from the next start on, not before. */
  lemma IntervalSetLater(cfg: Config, p: Port, interval: int, next: Inputs)
    requires p.state != Initializing && next.networkUp
    ensures var q := Command(cfg, p, SetSyncInterval(interval));
            && q.syncInterval == p.syncInterval && q.state == p.state && q.recordUpdate
            && Step(cfg, q.(state := Initializing), next).syncInterval == interval
  {
    hide ToState;
    StartsWith(cfg, Command(cfg, p, SetSyncInterval(interval)).(state := Initializing), next);
  }

  lemma StartsWith(cfg: Config, p: Port, env: Inputs)
    requires p.state == Initializing && env.networkUp
    ensures Step(cfg, p, env).syncInterval == p.configuredInterval
  {
    hide ReceiptTimeout, ServoInit, Started, Stopped;
  }

  /** What management messages do to the state, and that they make the port decide again. */
  lemma CommandedState(cfg: Config, p: Port, c: Management)
    requires !c.ForAnother? && !c.Query?
    ensures var q := Command(cfg, p, c);
            && q.recordUpdate
            && (c.InitializeClock? || c == EnablePort(1) ==> q.state == Initializing)
            && (c.GotoFaulty? ==> q.state == Faulty) && (c == DisablePort(1) ==> q.state == Disabled)
            && (c.InitializeClock? || c.GotoFaulty? || c == EnablePort(1) || c == DisablePort(1) || q.state == p.state)
  {
    hide ServoInit, Started, Stopped, ReceiptTimeout, SyncTimeout;
  }

  /** And to the clock the port compares with what it hears. */
  lemma CommandedClock(cfg: Config, p: Port, c: Management)
    ensures var own := Command(cfg, p, c).own;
            && own.preferred == (if c.SetPreferred? || c.UpdateDefaultDataSet? then c.preferred else p.own.preferred)
            && own.stratum == (if c.UpdateDefaultDataSet? && !cfg.slaveOnly then c.stratum else p.own.stratum)
            && (if c.UpdateDefaultDataSet? then own.identifier == c.identifier && own.variance == c.variance
                else own.identifier == p.own.identifier && own.variance == p.own.variance)
  {
    hide ServoInit, Started, Stopped, ReceiptTimeout, SyncTimeout;
  }

  // ----- DISABLED -----

  /** Shorter than the handler of its kind wants it. */
  predicate TooShort(m: Packet, kind: nat) {
    if kind == SYNC then m.length < (if m.version == 1 then 124 else 44)
    else if kind == FOLLOW_UP then m.length < (if m.version == 1 then 52 else 44)
    else if kind == DELAY_RESP then m.length < (if m.version == 1 then 60 else 54)
    else if kind == ANNOUNCE then m.length < 64
    else if kind == PDELAY_REQ || kind == PDELAY_RESP || kind == PDELAY_RESP_FOLLOW_UP then m.length < 54
    else false
  }

  /** What a DISABLED port does not take lying down: a failure, a message that is too short, a request with a
      time that is too short, or a command. */
  predicate Rouses(cfg: Config, p: Port, env: Inputs) {
    match env.reception
    case Failed => true
    case Nothing => false
    case Received(m) =>
      m.length < 40
      || ((m.version == 1 || m.version == 2)
          && var kind := KindOf(m, p.kind);
             || TooShort(m, kind)
             || (kind == DELAY_REQ && ReceiveTime(cfg, m).seconds != 0 && m.length < (if m.version == 1 then 124 else 44))
             || (kind == V1_MANAGEMENT && m.version == 1
                 && (m.management.InitializeClock? || m.management.GotoFaulty? || m.management == EnablePort(1)
                     || (m.management.Query? && m.management.answered && !env.replySent))))
  }

  /** A DISABLED port stays so exactly unless it is commanded otherwise, or reception fails, or a message too
      short comes in, or an answer to a query cannot be sent: then it is FAULTY or INITIALIZING, and so on its way
      back to LISTENING. */
  lemma DisabledStays(cfg: Config, p: Port, env: Inputs)
    requires p.state == Disabled
    ensures var q := Step(cfg, p, env);
            && (q.state == Disabled <==> !Rouses(cfg, p, env))
            && (q.state == Disabled || q.state == Faulty || q.state == Initializing)
  {
    hide ReceiveTime, FromSelf, KindOf, ToState;
    BecomesInactive(cfg, p.(kind := if env.reception.Received? then KindOf(env.reception.packet, p.kind) else p.kind), Faulty);
    BecomesInactive(cfg, p, Faulty);
    if env.reception.Received? {
      var m := env.reception.packet;
      DisabledHandles(cfg, p.(kind := KindOf(m, p.kind)), m, env);
    }
  }

  lemma BecomesInactive(cfg: Config, p: Port, s: PortState)
    requires s == Faulty || s == Initializing || s == Disabled
    ensures ToState(cfg, p, s, 0).state == s
  {
    hide ServoInit, Started, Stopped, ReceiptTimeout;
  }

  lemma DisabledHandles(cfg: Config, p: Port, m: Packet, env: Inputs)
    requires p.state == Disabled
    ensures var q := Dispatch(cfg, p, m, env);
            && (q.state == Disabled <==>
                !(|| TooShort(m, p.kind)
                  || (p.kind == DELAY_REQ && ReceiveTime(cfg, m).seconds != 0 && m.length < (if m.version == 1 then 124 else 44))
                  || (p.kind == V1_MANAGEMENT && m.version == 1
                      && (m.management.InitializeClock? || m.management.GotoFaulty? || m.management == EnablePort(1)
                          || (m.management.Query? && m.management.answered && !env.replySent)))))
            && (q.state == Disabled || q.state == Faulty || q.state == Initializing)
  {
    hide ReceiveTime, FromSelf, ToState, Command, SeenSync;
    BecomesInactive(cfg, p, Faulty);
    if p.kind == V1_MANAGEMENT && !m.management.ForAnother? && !m.management.Query? { CommandedState(cfg, p, m.management); }
  }

  // ----- which Syncs are accepted -----

  /** A SLAVE accepts exactly the Syncs of its parent with a time of reception and a new number, unless the version 1
      header, of this message or left by an earlier one, has the burst flag; it notes sender, number and time. Any
      other changes neither its servo nor its history. */
  lemma SyncIsAccepted(cfg: Config, p: Port, m: Packet, time: TimeInternal, env: Inputs)
    requires p.state == Slave && m.length >= (if m.version == 1 then 124 else 44)
    ensures var q := HandleSync(cfg, p, m, time, env);
            if time != ZeroTime && !FromSelf(cfg, m) && !m.header.burst && FromParent(p, m) && SequenceOf(m) != p.parent.lastSync
            then |q.log| > |p.log| && q.log[..|p.log|] == p.log && q.log[|p.log|] == SyncAccepted(Sender(m), SequenceOf(m), time)
            else q.log == p.log && q.servo == p.servo && q.sync == p.sync && q.state == Slave
  {
    hide FromSelf, FromParent, ToFaulty, Added, TechnologyOk, ServoOffset, ServoClock, ReceiptTimeout, Wrap16, CountDown;
    if SequenceOf(m) != p.parent.lastSync {
      var noted := NoteSync(p, m, time);
      var corrected := if noted.sync.waitingForFollow then noted else Correct(cfg, noted, m.stamp, env);
      var applied := if m.version == 1 then S1(corrected, Candidate(m.header, m.sync)) else corrected;
      CountDownKeepsLog(cfg, applied, env);
    }
  }

  lemma CountDownKeepsLog(cfg: Config, p: Port, env: Inputs)
    ensures CountDown(cfg, p, env).log == p.log
  {
    hide ServoInit, Started, Stopped, ReceiptTimeout, Wrap16;
  }

  // ----- the same message twice -----

  lemma SequenceNoted(cfg: Config, p: Port, m: Packet, time: TimeInternal, env: Inputs)
    requires p.state == Slave && HandleSync(cfg, p, m, time, env).state == Slave && time != ZeroTime
    requires !FromSelf(cfg, m) && !m.header.burst && FromParent(p, m) && m.length >= (if m.version == 1 then 124 else 44)
    ensures var q := HandleSync(cfg, p, m, time, env); q.parent.lastSync == SequenceOf(m) && FromParent(q, m)
  {
    hide AcceptSync, SeenSync, FromSelf, Sender, ParentKey;
    if SequenceOf(m) != p.parent.lastSync {
      var a := AcceptSync(cfg, p, m, time, env);
      Synchronization.SeenKeepsMeasuring(cfg, a, m, time, env);
      Synchronization.AcceptedSteers(cfg, p, m, time, env);
      SameParent(a, HandleSync(cfg, p, m, time, env), m);
    }
  }

  lemma SameParent(p: Port, q: Port, m: Packet)
    requires p.parent == q.parent
    ensures FromParent(p, m) == FromParent(q, m)
  {
  }

  /** A Sync of the parent counts once: a second copy, whenever it comes in, changes nothing. */
  lemma SyncCountsOnce(cfg: Config, p: Port, m: Packet, time: TimeInternal, env: Inputs, again: TimeInternal, later: Inputs)
    requires p.state == Slave && HandleSync(cfg, p, m, time, env).state == Slave && time != ZeroTime
    requires !FromSelf(cfg, m) && !m.header.burst && FromParent(p, m) && m.length >= (if m.version == 1 then 124 else 44)
    ensures var q := HandleSync(cfg, p, m, time, env); HandleSync(cfg, q, m, again, later) == q
  {
    hide AcceptSync, SeenSync, FromSelf, Sender, ParentKey;
    SequenceNoted(cfg, p, m, time, env);
  }

  /** And so does an Announce of the parent. */
  lemma AnnounceCountsOnce(cfg: Config, p: Port, m: Packet)
    requires (p.state == Slave || p.state == Uncalibrated) && m.length >= 64 && !FromSelf(cfg, m)
    requires V2Key(m.v2.source) == ParentKey(p.parent, true)
    ensures var q := HandleAnnounce(cfg, p, m);
            && HandleAnnounce(cfg, q, m) == q && q.parent.lastAnnounce == m.v2.sequenceId
            && V2Key(m.v2.source) == ParentKey(q.parent, true)
  {
    hide Added, FromSelf;
  }

  // ----- what is remembered -----

  /** A port takes a message up into its table, and will decide again. */
  predicate Remembers(p: Port, q: Port, e: Entry) {
    q.recordUpdate && q.table == Added(p.table, e).0 && q.state == p.state && q.servo == p.servo && q.parent == p.parent
  }

  /** Outside SLAVE, a Sync of another clock is remembered exactly under version 1, with a time of reception and
      technologies that agree; any other changes nothing. */
  lemma SyncIsRemembered(cfg: Config, p: Port, m: Packet, env: Inputs)
    requires SeesOwn(p.state) && env.reception == Received(m) && Arrives(p, m, SYNC, 124, 44) && !FromSelf(cfg, m)
    ensures var q := p.(kind := SYNC);
            if m.version == 1 && ReceiveTime(cfg, m) != ZeroTime && Agree(cfg, m)
            then Remembers(p, Handle(cfg, p, env), FromSync(Candidate(m.header, m.sync)))
            else Handle(cfg, p, env) == q
  {
    hide Added, FromSelf, ReceiveTime, KindOf;
  }

  /** From LISTENING on, an Announce of another clock is always remembered, unless it is one of the parent that has
      been seen; a new one of the parent also gives a SLAVE its grandmaster, priorities and distance. */
  lemma AnnounceIsRemembered(cfg: Config, p: Port, m: Packet, env: Inputs)
    requires Active(p.state) && env.reception == Received(m) && Arrives(p, m, ANNOUNCE, 64, 64) && !FromSelf(cfg, m)
    ensures var q, e := Handle(cfg, p, env), FromAnnounce(m.v2.source, m.announce, m.translated);
            if (p.state == Slave || p.state == Uncalibrated) && V2Key(m.v2.source) == ParentKey(p.parent, true) then
              if m.v2.sequenceId == p.parent.lastAnnounce then q == p.(kind := ANNOUNCE)
              else
                var a := m.announce.announce;
                && q.recordUpdate && q.table == Added(Added(p.table, e).0, e).0 && q.parent.lastAnnounce == m.v2.sequenceId
                && q.stepsRemoved == Next16(a.stepsRemoved) && q.gm.clockIdentity == a.identity
                && q.gm.priority1 == a.priority1 && q.gm.quality == a.quality && q.gm.priority2 == a.priority2
            else Remembers(p, q, e)
  {
    hide Added, FromSelf, ReceiveTime, KindOf;
  }

  /** A second response to one request for the delay to a peer makes the port FAULTY, and so does one that was not
      asked for, or asked for by another port. */
  lemma PeerRespondsOnce(cfg: Config, p: Port, m: Packet, time: TimeInternal, env: Inputs)
    requires Active(p.state) && m.length >= 54 && time != ZeroTime && !FromSelf(cfg, m)
    ensures var current := m.v2.sequenceId == p.delay.sequenceId;
            HandlePDelayResp(cfg, p, m, time, env).state == Faulty <==>
            !cfg.pdelay || m.v2Requester != Me(cfg)
            || (current && (p.delay.receivedPeerResp || !p.delay.sentRequest))
  {
    hide FromSelf, ServoPathDelay, ToState;
    BecomesInactive(cfg, p, Faulty);
  }
}
