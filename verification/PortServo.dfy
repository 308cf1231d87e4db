/** The servo of a port stays within its limits in every run. */
module PortServo {
  import opened Octets
  import opened Arith
  import opened Bmc
  import opened Timers
  import opened ForeignMasters
  import opened PortTypes
  import opened DataSets
  import opened PortModel

  ghost predicate Bounded(o: ServoOptions, v: Filtered) {
    ServoProperties.Bounded(o, v)
  }

  /** Before the first initialization the servo is as calloc left it. */
  ghost predicate ServoOk(cfg: Config, p: Port) {
    Bounded(cfg.servo, p.servo) || (p.servo == Servo.Initial && (p.state == Initializing || p.state == Faulty))
  }

  lemma InitBounded(o: ServoOptions, v: Filtered)
    requires Bounded(o, v) || v == Servo.Initial
    ensures Bounded(o, ServoInit(o, v))
  {
    if v == Servo.Initial {
      ServoProperties.EveryRunIsBounded(o, []);
    } else {
      ServoProperties.StepIsBounded(o, v, ServoProperties.Init);
    }
  }

  lemma DelayBounded(o: ServoOptions, v: Filtered, send: TimeInternal, recv: TimeInternal, c: TimeInternal)
    requires Bounded(o, v)
    ensures Bounded(o, ServoDelay(o, v, send, recv, c))
  {
    ServoProperties.StepIsBounded(o, v, ServoProperties.Delay(send, recv, c));
  }

  lemma PathDelayBounded(o: ServoOptions, v: Filtered, times: Servo.PathTimes)
    requires Bounded(o, v)
    ensures Bounded(o, ServoPathDelay(o, v, times))
  {
    ServoProperties.StepIsBounded(o, v, ServoProperties.PathDelay(times));
  }

  lemma OffsetBounded(o: ServoOptions, v: Filtered, send: TimeInternal, recv: TimeInternal, c1: TimeInternal, c2: TimeInternal)
    requires Bounded(o, v)
    ensures Bounded(o, ServoOffset(v, send, recv, c1, c2))
  {
    ServoProperties.StepIsBounded(o, v, ServoProperties.Offset(send, recv, c1, c2));
  }

  lemma ClockBounded(o: ServoOptions, v: Filtered, readings: Servo.SyncReadings)
    requires Bounded(o, v)
    ensures Bounded(o, ServoClock(o, v, readings))
  {
    ServoProperties.StepIsBounded(o, v, ServoProperties.Clock(readings));
  }

  lemma ForgetBounded(o: ServoOptions, v: Filtered)
    requires Bounded(o, v)
    ensures Bounded(o, ServoForget(v))
  {
    hide ServoProperties.RatesBounded;
  }

  /** All operations at once. */
  lemma Closed(o: ServoOptions)
    ensures forall v: Filtered :: Bounded(o, v) ==> Bounded(o, ServoInit(o, v)) && Bounded(o, ServoForget(v))
    ensures forall v: Filtered, send, recv, c :: Bounded(o, v) ==> Bounded(o, ServoDelay(o, v, send, recv, c))
    ensures forall v: Filtered, times :: Bounded(o, v) ==> Bounded(o, ServoPathDelay(o, v, times))
    ensures forall v: Filtered, send, recv, c1, c2 :: Bounded(o, v) ==> Bounded(o, ServoOffset(v, send, recv, c1, c2))
    ensures forall v: Filtered, readings :: Bounded(o, v) ==> Bounded(o, ServoClock(o, v, readings))
  {
    hide Bounded, ServoInit, ServoForget, ServoDelay, ServoPathDelay, ServoOffset, ServoClock;
    forall v: Filtered | Bounded(o, v) ensures Bounded(o, ServoInit(o, v)) && Bounded(o, ServoForget(v)) {
      InitBounded(o, v);
      ForgetBounded(o, v);
    }
    forall v: Filtered, send, recv, c | Bounded(o, v) ensures Bounded(o, ServoDelay(o, v, send, recv, c)) {
      DelayBounded(o, v, send, recv, c);
    }
    forall v: Filtered, times | Bounded(o, v) ensures Bounded(o, ServoPathDelay(o, v, times)) {
      PathDelayBounded(o, v, times);
    }
    forall v: Filtered, send, recv, c1, c2 | Bounded(o, v) ensures Bounded(o, ServoOffset(v, send, recv, c1, c2)) {
      OffsetBounded(o, v, send, recv, c1, c2);
    }
    forall v: Filtered, readings | Bounded(o, v) ensures Bounded(o, ServoClock(o, v, readings)) {
      ClockBounded(o, v, readings);
    }
  }

  lemma EnteredBounded(cfg: Config, p: Port, s: PortState, random: UInteger16)
    requires Bounded(cfg.servo, p.servo)
    ensures Bounded(cfg.servo, ToState(cfg, p, s, random).servo)
  {
    hide Bounded, ServoInit, ReceiptTimeout, SyncTimeout, Started, Stopped;
    Closed(cfg.servo);
  }

  lemma FaultBounded(cfg: Config, p: Port)
    requires Bounded(cfg.servo, p.servo)
    ensures Bounded(cfg.servo, ToFaulty(cfg, p).servo)
  {
    EnteredBounded(cfg, p, Faulty, 0);
  }

  lemma DecisionBounded(cfg: Config, p: Port)
    requires Bounded(cfg.servo, p.servo)
    ensures Bounded(cfg.servo, Decision(cfg, p).0.servo)
  {
    hide Bounded, BestRecord, D0, V2D0, ServoForget;
    Closed(cfg.servo);
  }

  lemma AcceptBounded(cfg: Config, p: Port, m: Packet, time: TimeInternal, env: Inputs)
    requires Bounded(cfg.servo, p.servo)
    ensures Bounded(cfg.servo, AcceptSync(cfg, p, m, time, env).servo)
  {
    hide Bounded, CountDown, ServoOffset, ServoClock, Added, Started, ReceiptTimeout;
    Closed(cfg.servo);
    var noted := NoteSync(p, m, time);
    var corrected := if noted.sync.waitingForFollow then noted else Correct(cfg, noted, m.stamp, env);
    CountDownBounded(cfg, if m.version == 1 then S1(corrected, Candidate(m.header, m.sync)) else corrected, env);
  }

  lemma CountDownBounded(cfg: Config, p: Port, env: Inputs)
    requires Bounded(cfg.servo, p.servo)
    ensures Bounded(cfg.servo, CountDown(cfg, p, env).servo)
  {
    hide Bounded, ToFaulty;
    FaultBounded(cfg, Requested(p.(requests := Wrap16(p.requests + 1), sync := p.sync.(r := 0)), false));
  }

  lemma SeenSyncBounded(cfg: Config, p: Port, m: Packet, time: TimeInternal, env: Inputs)
    requires Bounded(cfg.servo, p.servo)
    ensures Bounded(cfg.servo, SeenSync(cfg, p, m, time, env).servo)
  {
    hide Bounded, ToFaulty, Added;
    FaultBounded(cfg, p.(sent := p.sent.(syncPending := false)));
  }

  lemma SyncBounded(cfg: Config, p: Port, m: Packet, time: TimeInternal, env: Inputs)
    requires Bounded(cfg.servo, p.servo)
    ensures Bounded(cfg.servo, HandleSync(cfg, p, m, time, env).servo)
  {
    hide Bounded, ToFaulty, AcceptSync, SeenSync;
    FaultBounded(cfg, p);
    AcceptBounded(cfg, p, m, time, env);
    SeenSyncBounded(cfg, p, m, time, env);
    SeenSyncBounded(cfg, AcceptSync(cfg, p, m, time, env), m, time, env);
  }

  lemma DelayHandlersBounded(cfg: Config, p: Port, m: Packet, time: TimeInternal, env: Inputs)
    requires Bounded(cfg.servo, p.servo)
    ensures Bounded(cfg.servo, HandleDelayReq(cfg, p, m, time, env).servo)
    ensures Bounded(cfg.servo, HandleDelayResp(cfg, p, m).servo)
  {
    hide Bounded, ToFaulty, ServoDelay, ServoPathDelay, Sum;
    FaultBounded(cfg, p);
    Closed(cfg.servo);
  }

  lemma PeerHandlersBounded(cfg: Config, p: Port, m: Packet, time: TimeInternal, env: Inputs)
    requires Bounded(cfg.servo, p.servo)
    ensures Bounded(cfg.servo, HandlePDelayReq(cfg, p, m, time, env).servo)
    ensures Bounded(cfg.servo, HandlePDelayRespFollowUp(cfg, p, m).servo)
  {
    hide Bounded, ToFaulty, ServoPathDelay, Sum;
    FaultBounded(cfg, p);
    FaultBounded(cfg, Asked(p, m));
    Closed(cfg.servo);
  }

  lemma PeerRespBounded(cfg: Config, p: Port, m: Packet, time: TimeInternal, env: Inputs)
    requires Bounded(cfg.servo, p.servo)
    ensures Bounded(cfg.servo, HandlePDelayResp(cfg, p, m, time, env).servo)
  {
    hide Bounded, ToFaulty, ServoPathDelay, Sum;
    FaultBounded(cfg, p);
    FaultBounded(cfg, p.(delay := p.delay.(peer := p.delay.peer.(t3 := Sum(time, cfg.outboundLatency)))));
    Closed(cfg.servo);
  }

  lemma OtherHandlersBounded(cfg: Config, p: Port, m: Packet, env: Inputs)
    requires Bounded(cfg.servo, p.servo)
    ensures Bounded(cfg.servo, HandleFollowUp(cfg, p, m, env).servo)
    ensures Bounded(cfg.servo, HandleAnnounce(cfg, p, m).servo)
  {
    hide Bounded, ToFaulty, ServoOffset, ServoClock, Added;
    FaultBounded(cfg, p);
    Closed(cfg.servo);
  }

  lemma ManagementBounded(cfg: Config, p: Port, c: Management, env: Inputs)
    requires Bounded(cfg.servo, p.servo)
    ensures Bounded(cfg.servo, HandleManagement(cfg, p, c, env).servo)
  {
    hide Bounded, ToState, ToFaulty;
    FaultBounded(cfg, p);
    if p.state != Initializing && !c.ForAnother? && !c.Query? {
      var (q, s) := Unload(p.(recordUpdate := true), c, cfg);
      EnteredBounded(cfg, q, s, 0);
    }
  }

  lemma HandleBounded(cfg: Config, p: Port, env: Inputs)
    requires Bounded(cfg.servo, p.servo)
    ensures Bounded(cfg.servo, Handle(cfg, p, env).servo)
  {
    hide HandleSync, HandleFollowUp, HandleDelayReq, HandleDelayResp, HandlePDelayReq, HandlePDelayResp,
         HandlePDelayRespFollowUp, HandleAnnounce, HandleManagement, ToFaulty, KindOf, ReceiveTime, Bounded;
    FaultBounded(cfg, p);
    if env.reception.Received? {
      var m := env.reception.packet;
      var q, time := p.(kind := KindOf(m, p.kind)), ReceiveTime(cfg, m);
      SyncBounded(cfg, q, m, time, env);
      DelayHandlersBounded(cfg, q, m, time, env);
      PeerHandlersBounded(cfg, q, m, time, env);
      PeerRespBounded(cfg, q, m, time, env);
      OtherHandlersBounded(cfg, q, m, env);
      ManagementBounded(cfg, q, m.management, env);
    }
  }

  lemma TransmissionBounded(cfg: Config, p: Port, env: Inputs)
    requires Bounded(cfg.servo, p.servo)
    ensures Bounded(cfg.servo, CheckSync(cfg, p, env).servo) && Bounded(cfg.servo, CheckAnnounce(cfg, p, env).servo)
  {
    hide Bounded, ToFaulty, Updated, Cleared, Flagged;
    var q := p.(timers := Cleared(Updated(p.timers, env.syncTicks), SYNC_INTERVAL));
    var seqn := Next16(q.sent.sync);
    FaultBounded(cfg, q.(sent := q.sent.(sync := seqn, syncPending := false), gm := q.gm.(sequenceId := seqn)));
    var a := p.(timers := Cleared(Updated(p.timers, env.announceTicks), ANNOUNCE_INTERVAL));
    var seqa := Next16(a.sent.announce);
    FaultBounded(cfg, a.(sent := a.sent.(announce := seqa), gm := a.gm.(sequenceId := seqa)));
  }

  lemma ReceiptBounded(cfg: Config, p: Port, ticks: nat)
    requires Bounded(cfg.servo, p.servo)
    ensures Bounded(cfg.servo, CheckReceipt(cfg, p, ticks).servo)
  {
    hide Bounded, ToState, Updated, Cleared, Flagged, ServoForget;
    Closed(cfg.servo);
    var q := p.(timers := Cleared(Updated(p.timers, ticks), SYNC_RECEIPT));
    var forgot := q.(table := q.table.(number := 0, next := 0), log := q.log + [Restarted(0)]);
    EnteredBounded(cfg, M1(cfg, forgot), Master, 0);
    EnteredBounded(cfg, forgot, Listening, 0);
  }

  lemma DoStateBounded(cfg: Config, p: Port, env: Inputs)
    requires Bounded(cfg.servo, p.servo)
    ensures Bounded(cfg.servo, DoState(cfg, p, env).servo)
  {
    hide Bounded, ToState, Decision, Handle, CheckSync, CheckAnnounce, CheckReceipt;
    var q := Reconsider(cfg, p, env);
    DecisionBounded(cfg, Reconsidering(p));
    var (d, s) := Decision(cfg, Reconsidering(p));
    EnteredBounded(cfg, d, s, env.slaveRandom);
    HandleBounded(cfg, q, env);
    ReceiptBounded(cfg, Handle(cfg, q, env), env.receiptTicks);
    EnteredBounded(cfg, q, Initializing, 0);
    TransmissionBounded(cfg, q, env);
    TransmissionBounded(cfg, CheckSync(cfg, q, env), env);
    HandleBounded(cfg, CheckAnnounce(cfg, CheckSync(cfg, q, env), env), env);
  }

  lemma StepServo(cfg: Config, p: Port, env: Inputs)
    requires ServoOk(cfg, p)
    ensures ServoOk(cfg, Step(cfg, p, env))
  {
    hide Bounded, ServoInit, ServoForget, DoState;
    Closed(cfg.servo);
    if p.state == Initializing {
      InitBounded(cfg.servo, p.servo);
      var q := InitData(cfg, p);
      EnteredBounded(cfg, M1(cfg, q.(servo := ServoInit(cfg.servo, q.servo))), Listening, 0);
    } else if Bounded(cfg.servo, p.servo) {
      DoStateBounded(cfg, p, env);
    } else {
      FaultCleared(cfg, p, env);
    }
  }

  lemma FaultCleared(cfg: Config, p: Port, env: Inputs)
    requires p.state == Faulty
    ensures DoState(cfg, p, env).servo == p.servo && DoState(cfg, p, env).state == Initializing
  {
  }

  lemma {:induction false} RunServo(cfg: Config, p: Port, envs: seq<Inputs>)
    requires ServoOk(cfg, p)
    ensures ServoOk(cfg, Run(cfg, p, envs))
    decreases |envs|
  {
    hide Step, ServoOk;
    if envs != [] {
      StepServo(cfg, p, envs[0]);
      if !Stops(p, envs[0]) { RunServo(cfg, Step(cfg, p, envs[0]), envs[1..]); }
    }
  }

  /** Whatever the port receives, its servo stays within its limits: filters below a second, drift
      within the adjustment limit, and every rate given to the operating system where its branch says.
      Only a port that has not been initialized, INITIALIZING or FAULTY, has a servo as calloc left it. */
  lemma ServoInEveryRun(cfg: Config, envs: seq<Inputs>)
    requires ValidConfig(cfg)
    ensures ServoOk(cfg, Run(cfg, PowerUp(cfg), envs))
  {
    RunServo(cfg, PowerUp(cfg), envs);
  }
}
