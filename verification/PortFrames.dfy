/** What the message handlers leave alone. */
module PortFrames {
  import opened Octets
  import opened Arith
  import opened Timers
  import opened PortTypes
  import opened DataSets
  import opened PortModel

  /** Same reference, same foreign masters, same Sync in progress, and nothing noted. */
  predicate Untouched(p: Port, q: Port) {
    && q.parent == p.parent && q.gm.(sequenceId := 0) == p.gm.(sequenceId := 0)
    && q.stepsRemoved == p.stepsRemoved
    && q.table == p.table && q.kind == p.kind && q.log == p.log
    && q.sync.waitingForFollow == p.sync.waitingForFollow && q.sync.t2 == p.sync.t2
    && (p.recordUpdate ==> q.recordUpdate)
  }

  predicate Inactive(s: PortState) {
    s == Initializing || s == Faulty || s == Disabled
  }

  /** Nothing that matters to the reference has changed, unless the port has become inactive. */
  predicate Quiet(p: Port, q: Port) {
    Untouched(p, q) && (q.state == p.state || Inactive(q.state))
  }

  lemma BecomesInactive(cfg: Config, p: Port, s: PortState)
    requires Inactive(s)
    ensures Quiet(p, ToState(cfg, p, s, 0))
  {
    hide ServoInit, ReceiptTimeout, Started, Stopped;
  }

  lemma FaultIsQuiet(cfg: Config, p: Port)
    ensures Quiet(p, ToFaulty(cfg, p))
  {
    BecomesInactive(cfg, p, Faulty);
  }

  lemma CountDownIsQuiet(cfg: Config, p: Port, env: Inputs)
    ensures Quiet(p, CountDown(cfg, p, env))
  {
    hide ToFaulty;
    FaultIsQuiet(cfg, Requested(p.(requests := Wrap16(p.requests + 1), sync := p.sync.(r := 0)), false));
  }

  lemma CorrectIsQuiet(cfg: Config, p: Port, origin: TimeInternal, env: Inputs)
    ensures Quiet(p, Correct(cfg, p, origin, env)) && Correct(cfg, p, origin, env).state == p.state
  {
  }

  /** A Sync seen outside SLAVE, or not from the parent, is at most remembered. */
  lemma SeenSyncIsQuiet(cfg: Config, p: Port, m: Packet, time: TimeInternal, env: Inputs)
    ensures if m.version == 1 && TechnologyOk(cfg, m) && !FromSelf(cfg, m)
            then SeenSync(cfg, p, m, time, env) == RememberSync(p, m)
            else Quiet(p, SeenSync(cfg, p, m, time, env))
  {
    hide ToFaulty, TechnologyOk, FromSelf, RememberSync;
    FaultIsQuiet(cfg, p.(sent := p.sent.(syncPending := false)));
  }

  lemma DelayIsQuiet(cfg: Config, p: Port, m: Packet, time: TimeInternal, env: Inputs)
    ensures Quiet(p, HandleDelayReq(cfg, p, m, time, env)) && Quiet(p, HandleDelayResp(cfg, p, m))
  {
    hide ToFaulty, FromSelf, DelayRespOk, TechnologyOk, ServoDelay, ServoPathDelay, Sum;
    FaultIsQuiet(cfg, p);
  }

  lemma PeerRespIsQuiet(cfg: Config, p: Port, m: Packet, time: TimeInternal, env: Inputs)
    ensures Quiet(p, HandlePDelayResp(cfg, p, m, time, env))
  {
    hide ToFaulty, FromSelf, Sum, ServoPathDelay;
    FaultIsQuiet(cfg, p);
    FaultIsQuiet(cfg, p.(delay := p.delay.(peer := p.delay.peer.(t3 := Sum(time, cfg.outboundLatency)))));
  }

  lemma PeerDelayIsQuiet(cfg: Config, p: Port, m: Packet, time: TimeInternal, env: Inputs)
    ensures Quiet(p, HandlePDelayReq(cfg, p, m, time, env))
    ensures Quiet(p, HandlePDelayRespFollowUp(cfg, p, m))
  {
    hide ToFaulty, FromSelf, Sum, ServoPathDelay;
    FaultIsQuiet(cfg, p);
    FaultIsQuiet(cfg, Asked(p, m));
  }

  lemma ManagementIsQuiet(cfg: Config, p: Port, c: Management, env: Inputs)
    ensures Quiet(p, HandleManagement(cfg, p, c, env))
  {
    hide ToFaulty, ToState;
    FaultIsQuiet(cfg, p);
    if p.state != Initializing && !c.ForAnother? && !c.Query? {
      var (q, s) := Unload(p.(recordUpdate := true), c, cfg);
      if s != q.state { BecomesInactive(cfg, q, s); }
    }
  }

  lemma TransmissionIsQuiet(cfg: Config, p: Port, env: Inputs)
    ensures Quiet(p, CheckSync(cfg, p, env)) && Quiet(p, CheckAnnounce(cfg, p, env))
  {
    hide ToFaulty, Updated, Cleared, Flagged;
    var q := p.(timers := Cleared(Updated(p.timers, env.syncTicks), SYNC_INTERVAL));
    var seqn := Next16(q.sent.sync);
    FaultIsQuiet(cfg, q.(sent := q.sent.(sync := seqn, syncPending := false), gm := q.gm.(sequenceId := seqn)));
    var a := p.(timers := Cleared(Updated(p.timers, env.announceTicks), ANNOUNCE_INTERVAL));
    var seqa := Next16(a.sent.announce);
    FaultIsQuiet(cfg, a.(sent := a.sent.(announce := seqa), gm := a.gm.(sequenceId := seqa)));
  }

  /** Every packet but a Sync, a Follow_Up or an Announce leaves the reference alone. */
  lemma OtherPacketsAreQuiet(cfg: Config, p: Port, m: Packet, env: Inputs)
    requires p.kind != SYNC && p.kind != FOLLOW_UP && p.kind != ANNOUNCE
    ensures Quiet(p, Dispatch(cfg, p, m, env))
  {
    hide HandleSync, HandleFollowUp, HandleDelayReq, HandleDelayResp, HandlePDelayReq, HandlePDelayResp,
         HandlePDelayRespFollowUp, HandleAnnounce, HandleManagement, ReceiveTime;
    var time := ReceiveTime(cfg, m);
    DelayIsQuiet(cfg, p, m, time, env);
    PeerDelayIsQuiet(cfg, p, m, time, env);
    PeerRespIsQuiet(cfg, p, m, time, env);
    ManagementIsQuiet(cfg, p, m.management, env);
  }

  lemma DecisionKeepsState(cfg: Config, p: Port)
    ensures Decision(cfg, p).0.state == p.state
  {
    hide BestRecord, D0, V2D0;
  }

  lemma LeftState(cfg: Config, p: Port)
    ensures Leaving(cfg, p) == p.(timers := Leaving(cfg, p).timers, servo := Leaving(cfg, p).servo)
  {
  }

  lemma EnteredState(cfg: Config, p: Port, s: PortState, random: UInteger16)
    requires s != PreMaster
    ensures var q := ToState(cfg, p, s, random);
            && q.state == s && q.table == p.table && q.log == p.log && q.kind == p.kind && q.parent == p.parent
            && q.gm == p.gm && q.stepsRemoved == p.stepsRemoved
            && q.recordUpdate == p.recordUpdate && q.sync.t2 == p.sync.t2
            && q.sync.waitingForFollow == (p.sync.waitingForFollow && s != Slave)
  {
    hide ServoInit, ReceiptTimeout, SyncTimeout, Started, Stopped, Leaving;
    LeftState(cfg, p);
  }
}
