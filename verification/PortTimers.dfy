/** Which timers run in which state, over every run of a port. */
module PortTimers {
  import opened Octets
  import opened Arith
  import opened Bmc
  import opened Timers
  import opened ForeignMasters
  import opened PortTypes
  import opened DataSets
  import opened PortModel
  import opened Servo

  /** Started for n ticks, unless n is 0, and not yet run out. */
  predicate RunsFor(t: IntervalTimer, n: nat) {
    t.interval == n && (n > 0 ==> 0 < t.left <= n)
  }

  predicate Stands(t: IntervalTimer) {
    t.interval == 0
  }

  predicate MasterTimers(cfg: Config, ts: TimerArray, syncInterval: int) {
    && RunsFor(ts[SYNC_INTERVAL], SyncTimeout(syncInterval)) && Stands(ts[SYNC_RECEIPT])
    && (if cfg.ptpv2 then RunsFor(ts[ANNOUNCE_INTERVAL], SyncTimeout(cfg.announceInterval))
        else Stands(ts[ANNOUNCE_INTERVAL]))
  }

  predicate ListenerTimers(ts: TimerArray, syncInterval: int) {
    && RunsFor(ts[SYNC_RECEIPT], ReceiptTimeout(syncInterval))
    && Stands(ts[SYNC_INTERVAL]) && Stands(ts[ANNOUNCE_INTERVAL])
  }

  /** The receipt timer is never left flagged. Nothing is said of whether it runs in FAULTY: a failed
      delay request leaves it running there. */
  predicate TimersOf(cfg: Config, state: PortState, ts: TimerArray, syncInterval: int) {
    && !ts[SYNC_RECEIPT].expire
    && match state
       case Master => !cfg.slaveOnly && MasterTimers(cfg, ts, syncInterval)
       case Listening | Passive | Slave => ListenerTimers(ts, syncInterval)
       case Initializing | Faulty | Disabled => Stands(ts[SYNC_INTERVAL]) && Stands(ts[ANNOUNCE_INTERVAL])
       case PreMaster | Uncalibrated => false
  }

  /** A SLAVE sends its next delay request after at most seven more Syncs. */
  predicate TimersOk(cfg: Config, p: Port) {
    TimersOf(cfg, p.state, p.timers, p.syncInterval) && (p.state == Slave ==> 1 <= p.sync.r <= 7)
  }

  /** The parts that the invariant looks at. */
  predicate SameTimers(p: Port, q: Port) {
    p.state == q.state && p.timers == q.timers && p.syncInterval == q.syncInterval && p.sync.r == q.sync.r
  }

  /** Changes of state that occur: SLAVE and PASSIVE are entered only from states whose receipt timer
      runs or is started on leaving, and MASTER never by a slave-only port. */
  predicate Enterable(cfg: Config, from: PortState, s: PortState) {
    match s
    case Initializing | Faulty | Disabled | Listening | Slave => true
    case Master => !cfg.slaveOnly
    case Passive => Deciding(from)
    case PreMaster | Uncalibrated => false
  }

  /** After the tasks of leaving a state. */
  lemma LeftTimers(cfg: Config, p: Port)
    requires TimersOf(cfg, p.state, p.timers, p.syncInterval)
    ensures var ts := Leaving(cfg, p).timers;
            && !ts[SYNC_RECEIPT].expire && Stands(ts[SYNC_INTERVAL]) && Stands(ts[ANNOUNCE_INTERVAL])
            && (Deciding(p.state) ==> ListenerTimers(ts, p.syncInterval))
    ensures Leaving(cfg, p).state == p.state && Leaving(cfg, p).syncInterval == p.syncInterval
  {
    hide SyncTimeout, ReceiptTimeout, ServoInit;
  }

  lemma ChangeOfState(cfg: Config, p: Port, s: PortState, random: UInteger16)
    requires TimersOf(cfg, p.state, p.timers, p.syncInterval) && Enterable(cfg, p.state, s)
    ensures TimersOk(cfg, ToState(cfg, p, s, random)) && ToState(cfg, p, s, random).state == s
    ensures s == Faulty ==> Stands(ToState(cfg, p, s, random).timers[SYNC_RECEIPT])
  {
    hide SyncTimeout, ReceiptTimeout, ServoInit, Leaving;
    LeftTimers(cfg, p);
  }

  lemma DecisionKeepsTimers(cfg: Config, p: Port)
    ensures SameTimers(p, Decision(cfg, p).0)
    ensures Decision(cfg, p).1 == p.state || Decision(cfg, p).1 in {Master, Passive, Slave}
    ensures Decision(cfg, p).1 != p.state && Decision(cfg, p).1 == Master ==> !cfg.slaveOnly
  {
    hide BestRecord, D0, V2D0;
  }

  lemma Reconsidered(cfg: Config, p: Port, env: Inputs)
    requires TimersOk(cfg, p)
    ensures TimersOk(cfg, Reconsider(cfg, p, env))
  {
    hide Decision, ToState;
    if Deciding(p.state) && p.recordUpdate {
      var q := Reconsidering(p);
      DecisionKeepsTimers(cfg, q);
      var (d, s) := Decision(cfg, q);
      if s != p.state { ChangeOfState(cfg, d, s, env.slaveRandom); }
    }
  }

  lemma Faulted(cfg: Config, p: Port)
    requires TimersOf(cfg, p.state, p.timers, p.syncInterval)
    ensures TimersOk(cfg, ToFaulty(cfg, p)) && ToFaulty(cfg, p).state == Faulty
    ensures Stands(ToFaulty(cfg, p).timers[SYNC_RECEIPT])
  {
    ChangeOfState(cfg, p, Faulty, 0);
  }

  // ----- receiving -----

  lemma CountedDown(cfg: Config, p: Port, env: Inputs)
    requires TimersOk(cfg, p) && p.state == Slave
    ensures TimersOk(cfg, CountDown(cfg, p, env)) && CountDown(cfg, p, env).state in {Slave, Faulty}
  {
    hide ToFaulty, TimersOf;
    Faulted(cfg, Requested(p.(requests := Wrap16(p.requests + 1), sync := p.sync.(r := 0)), false));
  }

  /** Even if the delay request fails and leaves the port FAULTY with its receipt timer running. */
  lemma SyncAcceptedTimers(cfg: Config, p: Port, m: Packet, time: TimeInternal, env: Inputs)
    requires TimersOk(cfg, p) && p.state == Slave
    ensures TimersOk(cfg, AcceptSync(cfg, p, m, time, env))
  {
    hide CountDown, Correct, S1, NoteSync, ReceiptTimeout;
    var noted := NoteSync(p, m, time);
    assert SameTimers(p, noted) by { NotedTimers(p, m, time); }
    var corrected := if noted.sync.waitingForFollow then noted else Correct(cfg, noted, m.stamp, env);
    assert SameTimers(p, corrected) by { CorrectedTimers(cfg, noted, m.stamp, env); }
    var applied := if m.version == 1 then S1(corrected, Candidate(m.header, m.sync)) else corrected;
    assert SameTimers(p, applied) by { AppliedTimers(corrected, Candidate(m.header, m.sync)); }
    CountedDown(cfg, applied, env);
  }

  /** An accepted Sync gives the receipt timer its full time again. */
  lemma AcceptedSyncRestarts(cfg: Config, p: Port, m: Packet, time: TimeInternal, env: Inputs)
    requires p.state == Slave && p.sync.r >= 1
    ensures var n, q := ReceiptTimeout(p.syncInterval), AcceptSync(cfg, p, m, time, env);
            && q.timers[SYNC_RECEIPT] == IntervalTimer(n, n, false)
            && (q.state == Slave || q.state == Faulty) && q.own == p.own
            && (q.state == Faulty <==> p.sync.r == 1 && Wrap16(p.requests + 1) < 1000 && !env.replySent)
  {
    hide CountDown, ServoOffset, ServoClock, Added, ReceiptTimeout, Wrap16;
    var noted := NoteSync(p, m, time);
    var corrected := if noted.sync.waitingForFollow then noted else Correct(cfg, noted, m.stamp, env);
    CountDownOutcome(cfg, if m.version == 1 then S1(corrected, Candidate(m.header, m.sync)) else corrected, env);
  }

  lemma CountDownOutcome(cfg: Config, p: Port, env: Inputs)
    requires p.state == Slave && p.sync.r >= 1
    ensures var q := CountDown(cfg, p, env);
            && (q.state == Slave || q.state == Faulty) && q.own == p.own && q.syncInterval == p.syncInterval
            && (q.state == Faulty <==> p.sync.r == 1 && Wrap16(p.requests + 1) < 1000 && !env.replySent)
  {
    hide ServoInit, Stopped, Wrap16;
  }

  /** What a receipt timer with n ticks to go makes of a state that waits for it, once ticks have come in. */
  function TimedOut(cfg: Config, own: OwnClock, s: PortState, n: int, ticks: nat): PortState {
    if 0 < n <= ticks then (if !cfg.slaveOnly && own.stratum != 255 then Master else Listening) else s
  }

  /** A delay request that cannot be sent leaves the port FAULTY with that timer running. It then leaves
      FAULTY for MASTER, without being initialized, exactly if it may be master and as many ticks as the
      receipt timeout has, but not none, come in before the timer is looked at. */
  lemma FaultyBecomesMaster(cfg: Config, p: Port, m: Packet, time: TimeInternal, env: Inputs, ticks: nat)
    requires p.state == Slave && p.sync.r >= 1 && AcceptSync(cfg, p, m, time, env).state == Faulty
    ensures CheckReceipt(cfg, AcceptSync(cfg, p, m, time, env), ticks).state == Master <==>
            !cfg.slaveOnly && p.own.stratum != 255 && 0 < ReceiptTimeout(p.syncInterval) <= ticks
  {
    hide AcceptSync, ReceiptTimeout, CheckReceipt;
    AcceptedSyncRestarts(cfg, p, m, time, env);
    FullTimer(cfg, AcceptSync(cfg, p, m, time, env), ReceiptTimeout(p.syncInterval), ticks);
  }

  lemma FullTimer(cfg: Config, p: Port, n: nat, ticks: nat)
    requires p.timers[SYNC_RECEIPT] == IntervalTimer(n, n, false)
    ensures CheckReceipt(cfg, p, ticks).state == TimedOut(cfg, p.own, p.state, n, ticks)
  {
    hide ToState;
    var r := p.(timers := Cleared(Updated(p.timers, ticks), SYNC_RECEIPT));
    var forgot := r.(table := r.table.(number := 0, next := 0), log := r.log + [Restarted(0)]);
    Arrives(cfg, M1(cfg, forgot), Master);
    Arrives(cfg, forgot, Listening);
  }

  // ----- the same over a round -----

  /** The Sync is one that a SLAVE accepts. */
  predicate Accepts(cfg: Config, p: Port, m: Packet) {
    && (m.version == 1 || m.version == 2) && KindOf(m, p.kind) == SYNC
    && m.length >= (if m.version == 1 then 124 else 44) && ReceiveTime(cfg, m) != ZeroTime
    && !FromSelf(cfg, m) && !m.header.burst && FromParent(p, m) && SequenceOf(m) != p.parent.lastSync
  }

  lemma AcceptedInRound(cfg: Config, p: Port, m: Packet, env: Inputs)
    requires p.state == Slave && env.reception == Received(m) && Accepts(cfg, p, m)
    ensures Handle(cfg, p, env) ==
            SeenSync(cfg, AcceptSync(cfg, p.(kind := SYNC), m, ReceiveTime(cfg, m), env), m, ReceiveTime(cfg, m), env)
  {
    hide AcceptSync, SeenSync, ReceiveTime, FromSelf, FromParent, KindOf;
    assert FromParent(p.(kind := SYNC), m) by { KindDoesNotMatter(p, m); }
  }

  lemma KindDoesNotMatter(p: Port, m: Packet)
    ensures FromParent(p.(kind := SYNC), m) == FromParent(p, m)
  {
  }

  lemma SeenKeepsTimers(cfg: Config, p: Port, m: Packet, time: TimeInternal, env: Inputs)
    requires !FromSelf(cfg, m)
    ensures var q := SeenSync(cfg, p, m, time, env); q.state == p.state && q.timers == p.timers && q.own == p.own
  {
    hide FromSelf, TechnologyOk, Added;
  }

  /** The state after a round in which a SLAVE accepts a Sync: if the delay request that is due cannot be
      sent, the port ends the round in FAULTY, or in MASTER exactly as above. */
  lemma FaultyRound(cfg: Config, p: Port, m: Packet, env: Inputs)
    requires p.state != Initializing && env.reception == Received(m)
    requires var q := Reconsider(cfg, p, env); q.state == Slave && q.sync.r >= 1 && Accepts(cfg, q, m)
    ensures var q := Reconsider(cfg, p, env);
            var unsent := q.sync.r == 1 && Wrap16(q.requests + 1) < 1000 && !env.replySent;
            Step(cfg, p, env).state ==
            TimedOut(cfg, q.own, if unsent then Faulty else Slave, ReceiptTimeout(q.syncInterval), env.receiptTicks)
  {
    hide Reconsider, AcceptSync, SeenSync, ReceiveTime, FromSelf, Accepts, Handle, CheckReceipt, ReceiptTimeout, Wrap16;
    var q := Reconsider(cfg, p, env);
    AcceptedInRound(cfg, q, m, env);
    NotFromSelf(cfg, q, m);
    var k := q.(kind := SYNC);
    var a := AcceptSync(cfg, k, m, ReceiveTime(cfg, m), env);
    AcceptedSyncRestarts(cfg, k, m, ReceiveTime(cfg, m), env);
    SeenKeepsTimers(cfg, a, m, ReceiveTime(cfg, m), env);
    FullTimer(cfg, SeenSync(cfg, a, m, ReceiveTime(cfg, m), env), ReceiptTimeout(q.syncInterval), env.receiptTicks);
  }

  lemma NotFromSelf(cfg: Config, p: Port, m: Packet)
    requires Accepts(cfg, p, m)
    ensures !FromSelf(cfg, m)
  {
  }

  lemma NotedTimers(p: Port, m: Packet, time: TimeInternal)
    ensures SameTimers(p, NoteSync(p, m, time))
  {
  }

  lemma CorrectedTimers(cfg: Config, p: Port, origin: TimeInternal, env: Inputs)
    ensures SameTimers(p, Correct(cfg, p, origin, env))
  {
  }

  lemma AppliedTimers(p: Port, c: Candidate)
    ensures SameTimers(p, S1(p, c))
  {
  }

  lemma SeenSyncTimers(cfg: Config, p: Port, m: Packet, time: TimeInternal, env: Inputs)
    requires TimersOk(cfg, p)
    ensures TimersOk(cfg, SeenSync(cfg, p, m, time, env))
  {
    hide ToFaulty, TimersOf;
    Faulted(cfg, p.(sent := p.sent.(syncPending := false)));
  }

  lemma SyncTimers(cfg: Config, p: Port, m: Packet, time: TimeInternal, env: Inputs)
    requires TimersOk(cfg, p)
    ensures TimersOk(cfg, HandleSync(cfg, p, m, time, env))
  {
    hide ToFaulty, AcceptSync, SeenSync;
    Faulted(cfg, p);
    SeenSyncTimers(cfg, p, m, time, env);
    if p.state == Slave {
      SyncAcceptedTimers(cfg, p, m, time, env);
      SeenSyncTimers(cfg, AcceptSync(cfg, p, m, time, env), m, time, env);
    }
  }

  lemma FollowUpTimers(cfg: Config, p: Port, m: Packet, env: Inputs)
    requires TimersOk(cfg, p)
    ensures TimersOk(cfg, HandleFollowUp(cfg, p, m, env))
  {
    hide ToFaulty, TimersOf;
    Faulted(cfg, p);
  }

  lemma DelayTimers(cfg: Config, p: Port, m: Packet, time: TimeInternal, env: Inputs)
    requires TimersOk(cfg, p)
    ensures TimersOk(cfg, HandleDelayReq(cfg, p, m, time, env)) && TimersOk(cfg, HandleDelayResp(cfg, p, m))
  {
    hide ToFaulty, TimersOf;
    Faulted(cfg, p);
  }

  lemma PeerDelayTimers(cfg: Config, p: Port, m: Packet, time: TimeInternal, env: Inputs)
    requires TimersOk(cfg, p)
    ensures TimersOk(cfg, HandlePDelayReq(cfg, p, m, time, env))
    ensures TimersOk(cfg, HandlePDelayResp(cfg, p, m, time, env))
    ensures TimersOk(cfg, HandlePDelayRespFollowUp(cfg, p, m))
  {
    hide ToFaulty, TimersOf;
    Faulted(cfg, p);
    Faulted(cfg, Asked(p, m));
    Faulted(cfg, p.(delay := p.delay.(peer := p.delay.peer.(t3 := Sum(time, cfg.outboundLatency)))));
  }

  lemma AnnounceTimers(cfg: Config, p: Port, m: Packet)
    requires TimersOk(cfg, p)
    ensures TimersOk(cfg, HandleAnnounce(cfg, p, m))
  {
    hide ToFaulty, TimersOf;
    Faulted(cfg, p);
  }

  lemma ManagementTimers(cfg: Config, p: Port, c: Management, env: Inputs)
    requires TimersOk(cfg, p)
    ensures TimersOk(cfg, HandleManagement(cfg, p, c, env))
  {
    hide ToFaulty, ToState, TimersOf;
    if p.state != Initializing && !c.ForAnother? {
      Faulted(cfg, p);
      var (q, s) := Unload(p.(recordUpdate := true), c, cfg);
      assert SameTimers(p, q);
      if s != q.state { ChangeOfState(cfg, q, s, 0); }
    }
  }

  lemma HandleTimers(cfg: Config, p: Port, env: Inputs)
    requires TimersOk(cfg, p)
    ensures TimersOk(cfg, Handle(cfg, p, env))
  {
    hide HandleSync, HandleFollowUp, HandleDelayReq, HandleDelayResp, HandlePDelayReq, HandlePDelayResp,
         HandlePDelayRespFollowUp, HandleAnnounce, HandleManagement, ToFaulty, KindOf, ReceiveTime, TimersOf;
    Faulted(cfg, p);
    if env.reception.Received? {
      var m := env.reception.packet;
      var q := p.(kind := KindOf(m, p.kind));
      var time := ReceiveTime(cfg, m);
      SyncTimers(cfg, q, m, time, env);
      FollowUpTimers(cfg, q, m, env);
      DelayTimers(cfg, q, m, time, env);
      PeerDelayTimers(cfg, q, m, time, env);
      AnnounceTimers(cfg, q, m);
      ManagementTimers(cfg, q, m.management, env);
    }
  }

  // ----- timers running out -----

  lemma TickedTimers(cfg: Config, state: PortState, ts: TimerArray, syncInterval: int, delta: nat, index: nat)
    requires TimersOf(cfg, state, ts, syncInterval)
    requires index == SYNC_RECEIPT || Stands(ts[SYNC_RECEIPT])
    ensures TimersOf(cfg, state, Cleared(Updated(ts, delta), index), syncInterval)
    ensures forall i :: 0 <= i < TIMERS && Stands(ts[i]) ==> Stands(Cleared(Updated(ts, delta), index)[i])
  {
    hide SyncTimeout, ReceiptTimeout;
  }


  lemma SyncDue(cfg: Config, p: Port, env: Inputs)
    requires TimersOk(cfg, p) && p.state == Master
    ensures TimersOk(cfg, CheckSync(cfg, p, env)) && Stands(CheckSync(cfg, p, env).timers[SYNC_RECEIPT])
  {
    hide ToFaulty, TimersOf, Updated, Cleared;
    StandingReceipt(cfg, p);
    TickedTimers(cfg, p.state, p.timers, p.syncInterval, env.syncTicks, SYNC_INTERVAL);
    var q := p.(timers := Cleared(Updated(p.timers, env.syncTicks), SYNC_INTERVAL));
    var seqn := Next16(q.sent.sync);
    Faulted(cfg, q.(sent := q.sent.(sync := seqn, syncPending := false), gm := q.gm.(sequenceId := seqn)));
  }

  lemma StandingReceipt(cfg: Config, p: Port)
    requires TimersOk(cfg, p) && p.state == Master
    ensures Stands(p.timers[SYNC_RECEIPT])
  {
  }

  lemma AnnounceDue(cfg: Config, p: Port, env: Inputs)
    requires TimersOk(cfg, p) && Stands(p.timers[SYNC_RECEIPT])
    ensures TimersOk(cfg, CheckAnnounce(cfg, p, env))
  {
    hide ToFaulty, TimersOf, Updated, Cleared;
    TickedTimers(cfg, p.state, p.timers, p.syncInterval, env.announceTicks, ANNOUNCE_INTERVAL);
    var q := p.(timers := Cleared(Updated(p.timers, env.announceTicks), ANNOUNCE_INTERVAL));
    var seqn := Next16(q.sent.announce);
    Faulted(cfg, q.(sent := q.sent.(announce := seqn), gm := q.gm.(sequenceId := seqn)));
  }

  lemma ReceiptDue(cfg: Config, p: Port, ticks: nat)
    requires TimersOk(cfg, p)
    ensures TimersOk(cfg, CheckReceipt(cfg, p, ticks))
  {
    hide ToState, TimersOf, Updated, Cleared, M1;
    TickedTimers(cfg, p.state, p.timers, p.syncInterval, ticks, SYNC_RECEIPT);
    var q := p.(timers := Cleared(Updated(p.timers, ticks), SYNC_RECEIPT));
    var forgot := q.(table := q.table.(number := 0, next := 0), log := q.log + [Restarted(0)]);
    ReferenceKeepsTimers(cfg, forgot);
    ChangeOfState(cfg, forgot, Listening, 0);
    if !cfg.slaveOnly { ChangeOfState(cfg, M1(cfg, forgot), Master, 0); }
  }

  lemma ReferenceKeepsTimers(cfg: Config, p: Port)
    ensures SameTimers(p, M1(cfg, p))
  {
  }

  // ----- every run -----

  lemma DoStateTimers(cfg: Config, p: Port, env: Inputs)
    requires TimersOk(cfg, p)
    ensures TimersOk(cfg, DoState(cfg, p, env))
  {
    hide ToState, Reconsider, Handle, CheckSync, CheckAnnounce, CheckReceipt, TimersOf;
    Reconsidered(cfg, p, env);
    var q := Reconsider(cfg, p, env);
    HandleTimers(cfg, q, env);
    ReceiptDue(cfg, Handle(cfg, q, env), env.receiptTicks);
    ChangeOfState(cfg, q, Initializing, 0);
    if q.state == Master {
      SyncDue(cfg, q, env);
      AnnounceDue(cfg, CheckSync(cfg, q, env), env);
      HandleTimers(cfg, CheckAnnounce(cfg, CheckSync(cfg, q, env), env), env);
    }
  }

  lemma DoInitTimers(cfg: Config, p: Port, env: Inputs)
    requires TimersOk(cfg, p) && p.state == Initializing
    ensures TimersOk(cfg, DoInit(cfg, p, env))
  {
    hide ToState, ServoInit, M1;
    Faulted(cfg, p);
    var q := InitData(cfg, p);
    ReferenceKeepsTimers(cfg, q.(servo := ServoInit(cfg.servo, q.servo)));
    ChangeOfState(cfg, M1(cfg, q.(servo := ServoInit(cfg.servo, q.servo))), Listening, 0);
  }

  lemma {:induction false} RunKeepsTimers(cfg: Config, p: Port, envs: seq<Inputs>)
    requires TimersOk(cfg, p)
    ensures TimersOk(cfg, Run(cfg, p, envs))
    decreases |envs|
  {
    hide DoState, DoInit, TimersOf;
    if envs != [] {
      if p.state == Initializing { DoInitTimers(cfg, p, envs[0]); } else { DoStateTimers(cfg, p, envs[0]); }
      if !Stops(p, envs[0]) { RunKeepsTimers(cfg, Step(cfg, p, envs[0]), envs[1..]); }
    }
  }

  /** In every state a port can reach: MASTER runs the timer of its Syncs, that of its Announces exactly under version 2,
      and not that of the receipt; LISTENING, PASSIVE and SLAVE run that one and neither of the others; PRE_MASTER and
      UNCALIBRATED are never entered, and a slave-only port is never MASTER. */
  lemma TimersInEveryRun(cfg: Config, envs: seq<Inputs>)
    requires ValidConfig(cfg)
    ensures TimersOk(cfg, Run(cfg, PowerUp(cfg), envs))
  {
    hide ReceiptTimeout, SyncTimeout;
    RunKeepsTimers(cfg, PowerUp(cfg), envs);
  }

  lemma SlaveOnlyIsNeverMaster(cfg: Config, envs: seq<Inputs>)
    requires ValidConfig(cfg) && cfg.slaveOnly
    ensures Run(cfg, PowerUp(cfg), envs).state != Master
  {
    TimersInEveryRun(cfg, envs);
  }

  lemma PowersOfTwo()
    ensures Pow2(14) == 0x4000 && Pow2(15) == 0x8000 && Pow2(16) == 0x1_0000
  {
    assert Pow2(4) == 16;
    Pow2Adds(4, 4);
    Pow2Adds(8, 4);
    Pow2Adds(12, 2);
  }

  lemma TruncatedPow2(n: nat)
    ensures n < 15 ==> Pow2(n) <= 0x4000
    ensures n >= 16 ==> Pow2(n) % 0x1_0000 == 0
  {
    PowersOfTwo();
    if n < 15 {
      Pow2Grows(n, 14);
    } else if n >= 16 {
      Pow2Adds(16, n - 16);
    }
  }

  /** A timer that should run does: a receipt timeout is not cut to nothing exactly for intervals up to
      14, a transmission timeout exactly for intervals up to 15. */
  lemma TimeoutsRun(interval: int)
    ensures ReceiptTimeout(interval) > 0 <==> interval <= 14
    ensures SyncTimeout(interval) > 0 <==> interval <= 15
  {
    hide Pow2;
    var n := if interval < 0 then 0 else interval;
    PowersOfTwo();
    TruncatedPow2(n);
  }

  // ----- silence -----

  predicate Silent(env: Inputs) {
    env.reception == Nothing
  }

  function Ticks(envs: seq<Inputs>): nat {
    if envs == [] then 0 else envs[0].receiptTicks + Ticks(envs[1..])
  }

  /** A port that waits for Syncs, with left ticks to go. */
  predicate Waits(p: Port, left: int) {
    && (p.state == Listening || p.state == Passive || p.state == Slave) && !p.recordUpdate
    && 0 < left == p.timers[SYNC_RECEIPT].left && p.timers[SYNC_RECEIPT].interval > 0 && !p.timers[SYNC_RECEIPT].expire
  }

  lemma SilentStep(cfg: Config, p: Port, env: Inputs, left: int)
    requires Waits(p, left) && Silent(env)
    ensures env.receiptTicks < left ==>
              var q := Step(cfg, p, env); Waits(q, left - env.receiptTicks) && q.state == p.state && q.own == p.own
    ensures env.receiptTicks >= left ==>
              var q := Step(cfg, p, env);
              q.state == (if !cfg.slaveOnly && p.own.stratum != 255 then Master else Listening) && q.table.number == 0
  {
    hide ToState, ReceiptTimeout;
    var q := p.(timers := Cleared(Updated(p.timers, env.receiptTicks), SYNC_RECEIPT));
    var forgot := q.(table := q.table.(number := 0, next := 0), log := q.log + [Restarted(0)]);
    Arrives(cfg, M1(cfg, forgot), Master);
    Arrives(cfg, forgot, Listening);
  }

  lemma Arrives(cfg: Config, p: Port, s: PortState)
    requires s == Master || s == Listening
    ensures ToState(cfg, p, s, 0).state == s && ToState(cfg, p, s, 0).table == p.table
  {
    hide ServoInit, ReceiptTimeout, SyncTimeout, Started, Stopped;
  }

  /** Without any message a waiting port keeps its state exactly until the ticks left have gone by; then
      it forgets the foreign masters and becomes MASTER, or LISTENING if it may not. */
  lemma {:induction false} SilenceTimesOut(cfg: Config, p: Port, envs: seq<Inputs>, last: Inputs, left: int)
    requires Waits(p, left) && Silent(last) && forall i :: 0 <= i < |envs| ==> Silent(envs[i])
    requires Ticks(envs) < left
    ensures Run(cfg, p, envs).state == p.state
    ensures Ticks(envs) + last.receiptTicks >= left ==>
              var q := Run(cfg, p, envs + [last]);
              q.state == (if !cfg.slaveOnly && p.own.stratum != 255 then Master else Listening) && q.table.number == 0
    decreases |envs|
  {
    hide Step;
    if envs == [] {
      SilentStep(cfg, p, last, left);
      var q := Step(cfg, p, last);
      assert ([last])[1..] == [] && Run(cfg, q, []) == q;
      assert [] + [last] == [last];
    } else {
      SilentStep(cfg, p, envs[0], left);
      SilenceTimesOut(cfg, Step(cfg, p, envs[0]), envs[1..], last, left - envs[0].receiptTicks);
      assert (envs + [last])[1..] == envs[1..] + [last];
    }
  }
}
