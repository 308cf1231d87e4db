/** What a port has sent, over every run: Follow_Ups belong to Syncs, and a slave-only port has the stratum of one. */
module PortOutput {
  import opened Octets
  import opened Arith
  import opened ForeignMasters
  import opened PortTypes
  import opened DataSets
  import opened PortModel
  import opened PortMessages
  import opened Serving
  import Bmc
  import Timers

  datatype Open = NoSync | OpenSync(sequenceId: UInteger16)

  /** The Sync last sent that has no Follow_Up yet. */
  function Unfollowed(outbox: seq<Output>): Open
    decreases |outbox|
  {
    if outbox == [] then NoSync
    else
      match outbox[|outbox| - 1]
      case SyncOut(n) => OpenSync(n)
      case FollowUpOut(_, _) => NoSync
      case _ => Unfollowed(outbox[..|outbox| - 1])
  }

  /** A Follow_Up completes a Sync that has none yet. Its number is that of the Sync, or 0. */
  predicate Completes(open: Open, o: Output) {
    o.FollowUpOut? ==> open.OpenSync? && (o.sequenceId == open.sequenceId || o.sequenceId == 0)
  }

  predicate AllComplete(outbox: seq<Output>)
    decreases |outbox|
  {
    outbox != [] ==>
      && AllComplete(outbox[..|outbox| - 1])
      && Completes(Unfollowed(outbox[..|outbox| - 1]), outbox[|outbox| - 1])
  }

  lemma Appended(outbox: seq<Output>, o: Output)
    ensures AllComplete(outbox + [o]) <==> AllComplete(outbox) && Completes(Unfollowed(outbox), o)
    ensures Unfollowed(outbox + [o]) ==
            if o.SyncOut? then OpenSync(o.sequenceId) else if o.FollowUpOut? then NoSync else Unfollowed(outbox)
  {
    assert (outbox + [o])[..|outbox|] == outbox;
  }

  /** A Sync that waits for its time stamp is the last one sent, under its number, or under 0 if the port has
      started anew since. */
  predicate Waits(open: Open, sent: Sent) {
    sent.syncPending ==> open.OpenSync? && (sent.sync == open.sequenceId || sent.sync == 0)
  }

  predicate OutputOk(p: Port) {
    AllComplete(p.outbox) && Waits(Unfollowed(p.outbox), p.sent)
  }

  /** What every step keeps. */
  predicate KeepsOutput(cfg: Config, p: Port, q: Port) {
    (OutputOk(p) ==> OutputOk(q)) && (cfg.slaveOnly ==> q.own.stratum == p.own.stratum)
  }

  /** What only a command changes. */
  predicate Plain(p: Port, q: Port) {
    q.own == p.own && q.configuredInterval == p.configuredInterval && q.kind == p.kind
    && (q.state == Disabled ==> p.state == Disabled)
  }

  predicate Keeps(cfg: Config, p: Port, q: Port) {
    KeepsOutput(cfg, p, q) && Plain(p, q)
  }

  /** Nothing sent, and nothing that only a command changes. */
  predicate Same(p: Port, q: Port) {
    q.outbox == p.outbox && q.sent.sync == p.sent.sync && (q.sent.syncPending ==> p.sent.syncPending) && Plain(p, q)
  }

  lemma SameKeeps(cfg: Config, p: Port, q: Port)
    requires Same(p, q)
    ensures Keeps(cfg, p, q)
  {
  }

  lemma OtherKeeps(cfg: Config, p: Port, q: Port, o: Output)
    requires !o.SyncOut? && !o.FollowUpOut? && q.outbox == p.outbox + [o] && Same(p, q.(outbox := p.outbox))
    ensures Keeps(cfg, p, q)
  {
    Appended(p.outbox, o);
  }

  lemma Chained(cfg: Config, p: Port, q: Port, r: Port)
    requires Keeps(cfg, p, q) && Keeps(cfg, q, r)
    ensures Keeps(cfg, p, r)
  {
  }

  lemma ChainedOutput(cfg: Config, p: Port, q: Port, r: Port)
    requires KeepsOutput(cfg, p, q) && KeepsOutput(cfg, q, r)
    ensures KeepsOutput(cfg, p, r) && (Plain(p, q) && Plain(q, r) ==> Plain(p, r))
  {
  }

  lemma ChangeIsSame(cfg: Config, p: Port, s: PortState, random: UInteger16)
    requires s != Disabled
    ensures Same(p, ToState(cfg, p, s, random))
  {
    hide ServoInit, ReceiptTimeout, SyncTimeout, Timers.Started, Timers.Stopped;
  }

  lemma ReplyKeeps(cfg: Config, p: Port, q: Port, o: Output, ok: bool)
    requires Same(p, q) && !o.SyncOut? && !o.FollowUpOut?
    ensures Keeps(cfg, p, Reply(cfg, q, o, ok))
  {
    hide Keeps, ToState;
    if ok {
      OtherKeeps(cfg, p, q.(outbox := q.outbox + [o]), o);
    } else {
      ChangeIsSame(cfg, q, Faulty, 0);
      SameKeeps(cfg, p, ToFaulty(cfg, q));
    }
  }

  // ----- the handlers -----

  lemma CountDownKeeps(cfg: Config, p: Port, env: Inputs)
    ensures Keeps(cfg, p, CountDown(cfg, p, env))
  {
    hide OutputOk, ToState, Wrap16;
    var r := Requested(p.(requests := Wrap16(p.requests + 1), sync := p.sync.(r := 0)), env.replySent);
    ChangeIsSame(cfg, r, Faulty, 0);
    var q := CountDown(cfg, p, env);
    if Same(p, q) {
      SameKeeps(cfg, p, q);
    } else {
      OtherKeeps(cfg, p, q, DelayReqOut(r.sent.delayReq, cfg.ptpv2 && cfg.pdelay));
    }
  }

  lemma AcceptKeeps(cfg: Config, p: Port, m: Packet, time: TimeInternal, env: Inputs)
    ensures Keeps(cfg, p, AcceptSync(cfg, p, m, time, env))
  {
    hide CountDown, OutputOk, ServoOffset, ServoClock, Added, ReceiptTimeout;
    var noted := NoteSync(p, m, time);
    var corrected := if noted.sync.waitingForFollow then noted else Correct(cfg, noted, m.stamp, env);
    var applied := if m.version == 1 then S1(corrected, Bmc.Candidate(m.header, m.sync)) else corrected;
    SameKeeps(cfg, p, applied);
    CountDownKeeps(cfg, applied, env);
    SameKeeps(cfg, CountDown(cfg, applied, env), AcceptSync(cfg, p, m, time, env));
  }

  /** The one place a Follow_Up is sent from. */
  lemma FollowUpKeeps(cfg: Config, p: Port, t: TimeInternal, ok: bool)
    requires p.sent.syncPending
    ensures Keeps(cfg, p, Reply(cfg, p.(sent := p.sent.(syncPending := false)), FollowUpOut(p.sent.sync, t), ok))
  {
    hide ToState;
    ChangeIsSame(cfg, p.(sent := p.sent.(syncPending := false)), Faulty, 0);
    Appended(p.outbox, FollowUpOut(p.sent.sync, t));
  }

  lemma SeenKeeps(cfg: Config, p: Port, m: Packet, time: TimeInternal, env: Inputs)
    ensures Keeps(cfg, p, SeenSync(cfg, p, m, time, env))
  {
    hide Keeps, Reply, Added, TechnologyOk, FromSelf, Sum;
    SameKeeps(cfg, p, p);
    SameKeeps(cfg, p, RememberSync(p, m));
    if p.sent.syncPending { FollowUpKeeps(cfg, p, Sum(time, cfg.outboundLatency), env.replySent); }
  }

  lemma SyncKeeps(cfg: Config, p: Port, m: Packet, time: TimeInternal, env: Inputs)
    ensures Keeps(cfg, p, HandleSync(cfg, p, m, time, env))
  {
    hide Keeps, ToState, AcceptSync, SeenSync, FromSelf;
    ChangeIsSame(cfg, p, Faulty, 0);
    SameKeeps(cfg, p, ToFaulty(cfg, p));
    SameKeeps(cfg, p, p);
    SeenKeeps(cfg, p, m, time, env);
    var a := AcceptSync(cfg, p, m, time, env);
    AcceptKeeps(cfg, p, m, time, env);
    SeenKeeps(cfg, a, m, time, env);
    Chained(cfg, p, a, SeenSync(cfg, a, m, time, env));
  }

  lemma ParentsMessagesKeep(cfg: Config, p: Port, m: Packet, env: Inputs)
    ensures Keeps(cfg, p, HandleFollowUp(cfg, p, m, env))
    ensures Keeps(cfg, p, HandleAnnounce(cfg, p, m))
  {
    hide Keeps, ToState, FromSelf, Added, ServoOffset, ServoClock;
    ChangeIsSame(cfg, p, Faulty, 0);
    SameKeeps(cfg, p, HandleFollowUp(cfg, p, m, env));
    SameKeeps(cfg, p, HandleAnnounce(cfg, p, m));
  }

  lemma ResponsesKeep(cfg: Config, p: Port, m: Packet)
    ensures Keeps(cfg, p, HandleDelayResp(cfg, p, m))
    ensures Keeps(cfg, p, HandlePDelayRespFollowUp(cfg, p, m))
  {
    hide Keeps, ToState, FromSelf, ServoDelay, ServoPathDelay;
    ChangeIsSame(cfg, p, Faulty, 0);
    SameKeeps(cfg, p, HandleDelayResp(cfg, p, m));
    SameKeeps(cfg, p, HandlePDelayRespFollowUp(cfg, p, m));
  }

  lemma RequestsKeep(cfg: Config, p: Port, m: Packet, time: TimeInternal, env: Inputs)
    ensures Keeps(cfg, p, HandleDelayReq(cfg, p, m, time, env))
    ensures Keeps(cfg, p, HandlePDelayReq(cfg, p, m, time, env))
  {
    hide Keeps, Reply, ToState, FromSelf, TechnologyOk, ServoDelay, ServoPathDelay, Sum;
    ChangeIsSame(cfg, p, Faulty, 0);
    SameKeeps(cfg, p, ToFaulty(cfg, p));
    SameKeeps(cfg, p, p);
    SameKeeps(cfg, p, DelayReqTxComplete(cfg, p, m, time));
    var correction := if m.version == 1 then ZeroTime else m.v2.correction;
    ReplyKeeps(cfg, p, p, DelayRespOut(Sender(m), SequenceOf(m), time, correction), env.replySent);
    ReplyKeeps(cfg, p, Asked(p, m), PDelayRespOut(m.v2.source, m.v2.sequenceId, time), env.replySent);
    var q := p.(delay := p.delay.(peer := p.delay.peer.(t1 := Sum(time, cfg.outboundLatency))));
    SameKeeps(cfg, p, q);
    SameKeeps(cfg, p, FinishPeerDelay(cfg, q));
  }

  lemma PeerResponsesKeep(cfg: Config, p: Port, m: Packet, time: TimeInternal, env: Inputs)
    ensures Keeps(cfg, p, HandlePDelayResp(cfg, p, m, time, env))
  {
    hide Keeps, Reply, ToState, FromSelf, ServoPathDelay, Sum;
    ChangeIsSame(cfg, p, Faulty, 0);
    var t3 := Sum(time, cfg.outboundLatency);
    ReplyKeeps(cfg, p, p.(delay := p.delay.(peer := p.delay.peer.(t3 := t3))), PDelayRespFollowUpOut(p.sent.peer, t3),
               env.replySent);
    var q := HandlePDelayResp(cfg, p, m, time, env);
    if Same(p, q) { SameKeeps(cfg, p, q); }
  }

  lemma ManagementKeeps(cfg: Config, p: Port, c: Management, env: Inputs)
    ensures KeepsOutput(cfg, p, HandleManagement(cfg, p, c, env))
  {
    hide OutputOk, Reply, ToState;
    ReplyKeeps(cfg, p, p, ManagementOut, env.replySent);
    SameKeeps(cfg, p, p);
    if p.state != Initializing && !c.ForAnother? && !c.Query? {
      CommandedClock(cfg, p, c);
      CommandSends(cfg, p, c);
      SameOutput(cfg, p, Command(cfg, p, c));
    }
  }

  lemma CommandSends(cfg: Config, p: Port, c: Management)
    ensures var q := Command(cfg, p, c); q.outbox == p.outbox && q.sent == p.sent
  {
    hide ServoInit, ReceiptTimeout, SyncTimeout, Timers.Started, Timers.Stopped;
  }

  lemma SameOutput(cfg: Config, p: Port, q: Port)
    requires q.outbox == p.outbox && q.sent == p.sent
    ensures OutputOk(p) == OutputOk(q)
  {
  }

  /** A message that is taken for a command. */
  predicate IsCommand(p: Port, env: Inputs) {
    env.reception.Received? && env.reception.packet.version == 1 && KindOf(env.reception.packet, p.kind) == V1_MANAGEMENT
  }

  /** The kind of message seen last, after a message of a known version. */
  function KindAfter(p: Port, env: Inputs): nat {
    if env.reception.Received? && env.reception.packet.length >= HEADER_LENGTH
       && (env.reception.packet.version == 1 || env.reception.packet.version == 2)
    then KindOf(env.reception.packet, p.kind) else p.kind
  }

  lemma DispatchKeeps(cfg: Config, p: Port, m: Packet, env: Inputs)
    ensures KeepsOutput(cfg, p, Dispatch(cfg, p, m, env))
    ensures m.version != 1 || p.kind != V1_MANAGEMENT ==> Keeps(cfg, p, Dispatch(cfg, p, m, env))
  {
    hide HandleSync, HandleFollowUp, HandleDelayReq, HandleDelayResp, HandlePDelayReq, HandlePDelayResp,
         HandlePDelayRespFollowUp, HandleAnnounce, HandleManagement, ReceiveTime, KeepsOutput, Plain;
    var time := ReceiveTime(cfg, m);
    SameKeeps(cfg, p, p);
    SyncKeeps(cfg, p, m, time, env);
    ParentsMessagesKeep(cfg, p, m, env);
    ResponsesKeep(cfg, p, m);
    RequestsKeep(cfg, p, m, time, env);
    PeerResponsesKeep(cfg, p, m, time, env);
    ManagementKeeps(cfg, p, m.management, env);
  }

  lemma HandleKeeps(cfg: Config, p: Port, env: Inputs)
    ensures KeepsOutput(cfg, p, Handle(cfg, p, env))
    ensures !IsCommand(p, env) ==> Plain(p.(kind := KindAfter(p, env)), Handle(cfg, p, env))
  {
    hide Dispatch, ToState, KindOf, KeepsOutput, Plain;
    var k := p.(kind := KindAfter(p, env));
    ChangeIsSame(cfg, p, Faulty, 0);
    SameKeeps(cfg, p, ToFaulty(cfg, p));
    SameKeeps(cfg, p, p);
    KindKeepsOutput(cfg, p, k);
    if env.reception.Received? {
      DispatchKeeps(cfg, k, env.reception.packet, env);
      ChainedOutput(cfg, p, k, Dispatch(cfg, k, env.reception.packet, env));
    }
  }

  lemma KindKeepsOutput(cfg: Config, p: Port, q: Port)
    requires q == p.(kind := q.kind)
    ensures KeepsOutput(cfg, p, q)
  {
  }

  // ----- every run -----

  lemma SyncSentKeeps(cfg: Config, p: Port, ok: bool)
    ensures Keeps(cfg, p, IssueSync(cfg, p, ok))
  {
    hide ToState;
    ChangeIsSame(cfg, Numbered(p, ok), Faulty, 0);
    Appended(p.outbox, SyncOut(Next16(p.sent.sync)));
  }

  lemma TransmissionKeeps(cfg: Config, p: Port, env: Inputs)
    ensures Keeps(cfg, p, CheckSync(cfg, p, env)) && Keeps(cfg, p, CheckAnnounce(cfg, p, env))
  {
    hide OutputOk, Reply, IssueSync, Timers.Updated, Timers.Cleared, Timers.Flagged;
    var q := p.(timers := Timers.Cleared(Timers.Updated(p.timers, env.syncTicks), Timers.SYNC_INTERVAL));
    var r := p.(timers := Timers.Cleared(Timers.Updated(p.timers, env.announceTicks), Timers.ANNOUNCE_INTERVAL));
    SameKeeps(cfg, p, q);
    SameKeeps(cfg, p, r);
    SyncSentKeeps(cfg, q, env.syncSent);
    var seqn := Next16(r.sent.announce);
    var a := r.(sent := r.sent.(announce := seqn), gm := r.gm.(sequenceId := seqn));
    ReplyKeeps(cfg, r, a, AnnounceOut(seqn), env.announceSent);
  }

  lemma ReceiptKeeps(cfg: Config, p: Port, ticks: nat)
    ensures Keeps(cfg, p, CheckReceipt(cfg, p, ticks))
  {
    hide Keeps, ToState, Timers.Updated, Timers.Cleared, Timers.Flagged;
    var q := p.(timers := Timers.Cleared(Timers.Updated(p.timers, ticks), Timers.SYNC_RECEIPT));
    var forgot := q.(table := q.table.(number := 0, next := 0), log := q.log + [Restarted(0)]);
    ChangeIsSame(cfg, M1(cfg, forgot), Master, 0);
    ChangeIsSame(cfg, forgot, Listening, 0);
    SameKeeps(cfg, p, CheckReceipt(cfg, p, ticks));
  }

  lemma DecisionIsSame(cfg: Config, p: Port)
    ensures Same(p, Decision(cfg, p).0) && (Decision(cfg, p).1 == Disabled ==> p.state == Disabled)
  {
    hide BestRecord, D0, V2D0;
  }

  lemma ReconsiderKeeps(cfg: Config, p: Port, env: Inputs)
    ensures Keeps(cfg, p, Reconsider(cfg, p, env))
  {
    hide Keeps, ToState, Decision;
    var (q, s) := Decision(cfg, Reconsidering(p));
    DecisionIsSame(cfg, Reconsidering(p));
    if s != Disabled { ChangeIsSame(cfg, q, s, env.slaveRandom); }
    SameKeeps(cfg, p, Reconsider(cfg, p, env));
  }

  lemma DoStateKeeps(cfg: Config, p: Port, env: Inputs)
    ensures KeepsOutput(cfg, p, DoState(cfg, p, env))
    ensures !IsCommand(p, env) ==>
              var q := DoState(cfg, p, env); Plain(p.(kind := KindAfter(p, env)), q) || Plain(p, q)
  {
    hide KeepsOutput, Plain, Reconsider, Handle, CheckSync, CheckAnnounce, CheckReceipt, ToState, IsCommand, KindAfter;
    ReconsiderKeeps(cfg, p, env);
    var q := Reconsider(cfg, p, env);
    ChangeIsSame(cfg, q, Initializing, 0);
    SameKeeps(cfg, q, ToState(cfg, q, Initializing, 0));
    SameKeeps(cfg, q, q);
    var s := CheckSync(cfg, q, env);
    var a := CheckAnnounce(cfg, s, env);
    TransmissionKeeps(cfg, q, env);
    TransmissionKeeps(cfg, s, env);
    ChainedOutput(cfg, q, s, a);
    ChainedOutput(cfg, p, q, a);
    ChainedOutput(cfg, p, q, ToState(cfg, q, Initializing, 0));
    HandledKeeps(cfg, p, q, env);
    HandledKeeps(cfg, p, a, env);
    var h := Handle(cfg, q, env);
    ReceiptKeeps(cfg, h, env.receiptTicks);
    var k := p.(kind := KindAfter(p, env));
    ChainedOutput(cfg, p, h, CheckReceipt(cfg, h, env.receiptTicks));
    if Plain(k, h) { PlainTwice(k, h, CheckReceipt(cfg, h, env.receiptTicks)); }
  }

  lemma PlainTwice(p: Port, q: Port, r: Port)
    requires Plain(p, q) && Plain(q, r)
    ensures Plain(p, r)
  {
  }

  /** Handling a message after something that keeps everything. */
  lemma HandledKeeps(cfg: Config, p: Port, q: Port, env: Inputs)
    requires Keeps(cfg, p, q)
    ensures KeepsOutput(cfg, p, Handle(cfg, q, env))
    ensures !IsCommand(p, env) ==> Plain(p.(kind := KindAfter(p, env)), Handle(cfg, q, env))
  {
    hide KeepsOutput, Handle;
    HandleKeeps(cfg, q, env);
    ChainedOutput(cfg, p, q, Handle(cfg, q, env));
  }

  lemma InitKeepsOutput(cfg: Config, p: Port, env: Inputs)
    requires OutputOk(p)
    ensures OutputOk(DoInit(cfg, p, env))
  {
    hide ToState, AllComplete, Unfollowed;
    ChangeIsSame(cfg, p, Faulty, 0);
    var q := InitData(cfg, p);
    ChangeIsSame(cfg, M1(cfg, q.(servo := ServoInit(cfg.servo, q.servo))), Listening, 0);
  }

  lemma {:induction false} RunKeepsOutput(cfg: Config, p: Port, envs: seq<Inputs>)
    requires OutputOk(p)
    ensures OutputOk(Run(cfg, p, envs))
    decreases |envs|
  {
    hide DoState, DoInit, OutputOk;
    if envs != [] {
      InitKeepsOutput(cfg, p, envs[0]);
      DoStateKeeps(cfg, p, envs[0]);
      if !Stops(p, envs[0]) { RunKeepsOutput(cfg, Step(cfg, p, envs[0]), envs[1..]); }
    }
  }

  /** In every run, every Follow_Up a port sends completes a Sync it has sent, no Sync gets two, and the number is
      that of the Sync, or 0 after a start in between. */
  lemma FollowUpsCompleteSyncs(cfg: Config, envs: seq<Inputs>)
    requires ValidConfig(cfg)
    ensures AllComplete(Run(cfg, PowerUp(cfg), envs).outbox)
  {
    RunKeepsOutput(cfg, PowerUp(cfg), envs);
  }

  /** Or 0: a start puts the numbers back but not the Sync that waits, and then a Sync of the port itself with
      number 0 is followed up, whatever was sent. */
  lemma NumberLostOnStart(cfg: Config, p: Port, env: Inputs, m: Packet, next: Inputs)
    requires p.state == Initializing && env.networkUp && p.sent.syncPending
    requires next.reception == Received(m) && next.replySent && SequenceOf(m) == 0
    requires (m.version == 1 || m.version == 2) && KindOf(m, p.kind) == SYNC && FromSelf(cfg, m) && m.time != ZeroTime
    requires m.length >= (if m.version == 1 then 124 else 44)
    ensures Handle(cfg, Step(cfg, p, env), next).outbox == p.outbox + [FollowUpOut(0, Sum(m.time, cfg.outboundLatency))]
  {
    hide Handle, FromSelf, Sum, DoInit, KindOf;
    Started(cfg, p, env);
    var q := Step(cfg, p, env);
    SameKind(m, p.kind, q.kind);
    SyncIsFollowedUp(cfg, q, m, next);
  }

  lemma Started(cfg: Config, p: Port, env: Inputs)
    requires p.state == Initializing && env.networkUp
    ensures var q := Step(cfg, p, env);
            q.state == Listening && q.sent.sync == 0 && q.sent.syncPending == p.sent.syncPending && q.outbox == p.outbox
            && q.kind == p.kind
  {
    hide ServoInit, ReceiptTimeout;
  }

  lemma SameKind(m: Packet, before: nat, after: nat)
    requires before == after
    ensures KindOf(m, before) == KindOf(m, after)
  {
  }

  // ----- the stratum of a slave-only port -----

  /** Once it has started, a slave-only port has the stratum of a clock that is never master, whatever it is
      commanded. */
  lemma {:induction false} SlaveOnlyStratum(cfg: Config, p: Port, envs: seq<Inputs>)
    requires cfg.slaveOnly && p.own.stratum == 255
    ensures Run(cfg, p, envs).own.stratum == 255
    decreases |envs|
  {
    hide DoState, DoInit;
    if envs != [] {
      if p.state == Initializing { StartedStratum(cfg, p, envs[0]); } else { DoStateKeeps(cfg, p, envs[0]); }
      if !Stops(p, envs[0]) { SlaveOnlyStratum(cfg, Step(cfg, p, envs[0]), envs[1..]); }
    }
  }

  lemma StartedStratum(cfg: Config, p: Port, env: Inputs)
    requires p.state == Initializing && cfg.slaveOnly
    ensures DoInit(cfg, p, env).own.stratum == if env.networkUp then 255 else p.own.stratum
  {
    hide ToState;
    ChangeIsSame(cfg, p, Faulty, 0);
    var q := InitData(cfg, p);
    ChangeIsSame(cfg, M1(cfg, q.(servo := ServoInit(cfg.servo, q.servo))), Listening, 0);
  }

  /** From power up: as soon as the network is there. */
  lemma SlaveOnlyStratumFromPowerUp(cfg: Config, envs: seq<Inputs>)
    requires ValidConfig(cfg) && cfg.slaveOnly && envs != [] && envs[0].networkUp
    ensures Run(cfg, PowerUp(cfg), envs).own.stratum == 255
  {
    hide DoState, DoInit;
    StartedStratum(cfg, PowerUp(cfg), envs[0]);
    SlaveOnlyStratum(cfg, Step(cfg, PowerUp(cfg), envs[0]), envs[1..]);
  }

  // ----- management messages never get through -----

  /** A management message of version 1, with control field 4, is translated to kind 0xD, and no handler is chosen
      by that kind: whatever it commands, nothing happens. */
  lemma ManagementIsNotHandled(cfg: Config, p: Port, m: Packet, env: Inputs)
    requires env.reception == Received(m) && m.version == 1 && m.control == 4 && m.length >= 40
    ensures Handle(cfg, p, env) == p.(kind := 0xD)
  {
    hide HandleSync, HandleFollowUp, HandleDelayReq, HandleDelayResp, HandlePDelayReq, HandlePDelayResp,
         HandlePDelayRespFollowUp, HandleAnnounce, HandleManagement, ReceiveTime;
  }

  /** What is taken for a command instead: a version 1 message of a control field that does not exist, after a version 2
      message of type 4, which does not exist either. */
  lemma CommandsAreOdd(p: Port, env: Inputs)
    ensures IsCommand(p, env) <==>
            env.reception.Received? && env.reception.packet.version == 1 && env.reception.packet.control > 4 && p.kind == 4
  {
  }

  /** No message of version 2 has the type that does not exist. */
  predicate Existing(env: Inputs) {
    env.reception.Received? && env.reception.packet.version == 2 ==> env.reception.packet.kind != 4
  }

  ghost predicate AllExisting(envs: seq<Inputs>) {
    forall i :: 0 <= i < |envs| ==> Existing(envs[i])
  }

  /** Not commanded so far: the interval is that of the options, and the clock too once the port has started. */
  predicate Uncommanded(cfg: Config, p: Port) {
    && p.kind != 4 && p.state != Disabled && p.configuredInterval == cfg.syncInterval
    && (p.own == InitialOwnClock(cfg) || p.own == OwnClock(0, NoCode, 0, false))
  }

  lemma StaysUncommanded(cfg: Config, p: Port, env: Inputs)
    requires Uncommanded(cfg, p) && Existing(env)
    ensures Uncommanded(cfg, Step(cfg, p, env))
  {
    hide DoState, DoInit, KeepsOutput, InitialOwnClock;
    if p.state == Initializing {
      StartedUncommanded(cfg, p, env);
    } else {
      CommandsAreOdd(p, env);
      DoStateKeeps(cfg, p, env);
    }
  }

  lemma StartedUncommanded(cfg: Config, p: Port, env: Inputs)
    requires Uncommanded(cfg, p) && p.state == Initializing
    ensures Uncommanded(cfg, DoInit(cfg, p, env))
  {
    hide ToState, InitialOwnClock;
    ChangeIsSame(cfg, p, Faulty, 0);
    var q := InitData(cfg, p);
    ChangeIsSame(cfg, M1(cfg, q.(servo := ServoInit(cfg.servo, q.servo))), Listening, 0);
    ArrivesIn(cfg, M1(cfg, q.(servo := ServoInit(cfg.servo, q.servo))));
  }

  lemma ArrivesIn(cfg: Config, p: Port)
    ensures ToState(cfg, p, Listening, 0).state == Listening
  {
    hide ServoInit, ReceiptTimeout, SyncTimeout, Timers.Started, Timers.Stopped;
  }

  /** So in every run in which no message has a type that does not exist, no command is ever carried out: no port is
      DISABLED, and its interval and clock are those of its options. */
  lemma {:induction false} NeverCommanded(cfg: Config, p: Port, envs: seq<Inputs>)
    requires Uncommanded(cfg, p) && AllExisting(envs)
    ensures Uncommanded(cfg, Run(cfg, p, envs))
    decreases |envs|
  {
    hide Step, Uncommanded, Existing;
    if envs != [] {
      StaysUncommanded(cfg, p, envs[0]);
      assert forall i :: 0 <= i < |envs[1..]| ==> envs[1..][i] == envs[i + 1];
      if !Stops(p, envs[0]) { NeverCommanded(cfg, Step(cfg, p, envs[0]), envs[1..]); }
    }
  }

  lemma NeverCommandedFromPowerUp(cfg: Config, envs: seq<Inputs>)
    requires ValidConfig(cfg) && AllExisting(envs)
    ensures Uncommanded(cfg, Run(cfg, PowerUp(cfg), envs))
  {
    hide Run, AllExisting;
    NeverCommanded(cfg, PowerUp(cfg), envs);
  }
}
