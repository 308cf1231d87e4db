/** Which request the two halves of a delay measurement belong to, over every run. */
module DelayHalves {
  import opened Octets
  import opened Arith
  import opened ForeignMasters
  import opened PortTypes
  import opened DataSets
  import opened PortModel
  import DelayHandshake

  // ----- the history of measurements -----

  /** A time that has come in: how many requests had been issued by then, and whether it came with the
      number of the last of them. */
  datatype Half = NoHalf | Half(request: nat, current: bool, time: TimeInternal)

  /** The halves that are there. pending tells whether one of each was there when the last request was issued. */
  datatype Halves = Halves(issued: nat, number: UInteger16, sentPending: bool, answerPending: bool,
                           sent: Half, answer: Half, correction: TimeInternal)

  function Follow(h: Halves, e: DelayEvent): Halves {
    match e
    case RequestIssued(n, sentPending, answerPending) =>
      h.(issued := h.issued + 1, number := n, sentPending := sentPending, answerPending := answerPending)
    case LoopedBack(n, t3) => h.(sent := Half(h.issued, h.issued > 0 && n == h.number, t3))
    case Answered(n, t4, correction) =>
      h.(answer := Half(h.issued, h.issued > 0 && n == h.number, t4), correction := correction)
    case Measured(_, _, _) => h.(sent := NoHalf, answer := NoHalf)
    case Forgotten => h.(sent := NoHalf, answer := NoHalf)
  }

  function HalvesOf(events: seq<DelayEvent>): Halves
    decreases |events|
  {
    if events == [] then Halves(0, 0, false, false, NoHalf, NoHalf, ZeroTime)
    else Follow(HalvesOf(events[..|events| - 1]), events[|events| - 1])
  }

  /** Both halves came with the number of the last request, and it was the same request. */
  predicate OfOneRequest(h: Halves) {
    h.sent.Half? && h.answer.Half? && h.sent.current && h.answer.current && h.sent.request == h.answer.request
  }

  /** A measurement uses the time of the last loop-back and that of the last response accepted, both since
      the measurement before and since the port became SLAVE. The response carried the number of the
      request last issued when it came. At least one of the halves came after the last request; one
      that did not was there when that request was issued. The delay is that of one request exactly if
      both came after it and the loop-back carried its number as well. */
  predicate Uses(h: Halves, e: DelayEvent)
    requires e.Measured?
  {
    && h.sent.Half? && h.answer.Half? && h.answer.current
    && e.t3 == h.sent.time && e.t4 == h.answer.time && e.correction == h.correction
    && (h.sent.request == h.issued || h.answer.request == h.issued)
    && (h.sent.request < h.issued ==> h.sentPending)
    && (h.answer.request < h.issued ==> h.answerPending)
    && (OfOneRequest(h) <==> h.sent.current && h.sent.request == h.issued && h.answer.request == h.issued)
  }

  predicate AllUsed(events: seq<DelayEvent>)
    decreases |events|
  {
    events == []
    || (var e, before := events[|events| - 1], events[..|events| - 1];
        AllUsed(before) && (e.Measured? ==> Uses(HalvesOf(before), e)))
  }

  lemma Noted(events: seq<DelayEvent>, e: DelayEvent)
    ensures HalvesOf(events + [e]) == Follow(HalvesOf(events), e)
    ensures AllUsed(events + [e]) <==> AllUsed(events) && (e.Measured? ==> Uses(HalvesOf(events), e))
  {
    assert (events + [e])[..|events|] == events;
  }

  // ----- what the port keeps -----

  /** A half that is there, and which request it is from. */
  predicate Held(half: Half, time: TimeInternal, issued: nat, pending: bool) {
    time.seconds != 0 ==>
      half.Half? && half.time == time && half.request <= issued && (half.request < issued ==> pending)
  }

  predicate HoldsHalves(h: Halves, d: Delay) {
    && Held(h.sent, d.t3, h.issued, h.sentPending) && Held(h.answer, d.t4, h.issued, h.answerPending)
    && (d.t4.seconds != 0 ==> h.answer.current && h.correction == d.respCorrection)
    && (d.sentRequest ==> h.issued > 0 && d.sequenceId == h.number)
  }

  predicate HalvesOk(p: Port) {
    HoldsHalves(HalvesOf(p.measures), p.delay) && AllUsed(p.measures)
  }

  /** Nothing of a measurement has changed, but that a request may have been given up. */
  predicate SameHalves(p: Port, q: Port) {
    && q.measures == p.measures && q.delay.t3 == p.delay.t3 && q.delay.t4 == p.delay.t4
    && q.delay.respCorrection == p.delay.respCorrection && q.delay.sequenceId == p.delay.sequenceId
    && (q.delay.sentRequest ==> p.delay.sentRequest)
  }

  lemma SameHalvesOk(p: Port, q: Port)
    requires HalvesOk(p) && SameHalves(p, q)
    ensures HalvesOk(q)
  {
    hide HalvesOf, AllUsed;
  }

  // ----- changes of state -----

  /** Entering SLAVE clears both times; every other change of state leaves them. */
  lemma EnteredHalves(cfg: Config, p: Port, s: PortState, random: UInteger16)
    requires HalvesOk(p)
    ensures HalvesOk(ToState(cfg, p, s, random))
  {
    hide HalvesOf, AllUsed;
    if s == Slave {
      EnteredSlave(cfg, p, random);
      Noted(p.measures, Forgotten);
    } else {
      EnteredOther(cfg, p, s, random);
      SameHalvesOk(p, ToState(cfg, p, s, random));
    }
  }

  lemma EnteredSlave(cfg: Config, p: Port, random: UInteger16)
    ensures var q := ToState(cfg, p, Slave, random);
            q.measures == p.measures + [Forgotten] && q.delay == p.delay.(t3 := ZeroTime, t4 := ZeroTime)
  {
    hide ServoInit, ReceiptTimeout;
  }

  lemma EnteredOther(cfg: Config, p: Port, s: PortState, random: UInteger16)
    requires s != Slave
    ensures SameHalves(p, ToState(cfg, p, s, random))
  {
    hide ServoInit, ReceiptTimeout, SyncTimeout;
  }

  lemma FaultHalves(cfg: Config, p: Port)
    requires HalvesOk(p)
    ensures HalvesOk(ToFaulty(cfg, p))
  {
    EnteredHalves(cfg, p, Faulty, 0);
  }

  // ----- a request, its loop-back and its response -----

  lemma RequestedHalves(p: Port, ok: bool)
    requires HalvesOk(p)
    ensures HalvesOk(Requested(p, ok))
  {
    hide HalvesOf, AllUsed;
    Noted(p.measures, RequestIssued(Next16(p.sent.delayReq), p.delay.t3.seconds != 0, p.delay.t4.seconds != 0));
  }

  lemma FinishedHalves(cfg: Config, p: Port)
    requires HalvesOk(p) && Uses(HalvesOf(p.measures), Measured(p.delay.t3, p.delay.t4, p.delay.respCorrection))
    ensures HalvesOk(FinishDelay(cfg, p))
  {
    hide HalvesOf, AllUsed, ServoDelay;
    Noted(p.measures, Measured(p.delay.t3, p.delay.t4, p.delay.respCorrection));
  }

  lemma LoopedBackHalves(cfg: Config, p: Port, m: Packet, time: TimeInternal)
    requires HalvesOk(p)
    ensures HalvesOk(DelayReqTxComplete(cfg, p, m, time))
  {
    hide HalvesOf, AllUsed, FinishDelay, ServoPathDelay, Sum;
    if !cfg.pdelay {
      var t3 := Sum(time, cfg.outboundLatency);
      Noted(p.measures, LoopedBack(SequenceOf(m), t3));
      var q := p.(delay := p.delay.(t3 := t3), measures := p.measures + [LoopedBack(SequenceOf(m), t3)]);
      if q.delay.t4.seconds != 0 { FinishedHalves(cfg, q); }
    } else {
      SameHalvesOk(p, DelayReqTxComplete(cfg, p, m, time));
    }
  }

  lemma AnsweredHalves(cfg: Config, p: Port, m: Packet)
    requires HalvesOk(p) && p.delay.sentRequest && DelayRespOk(cfg, p, m)
    ensures HalvesOk(UseDelayResp(cfg, p, m))
  {
    hide HalvesOf, AllUsed, FinishDelay;
    var correction := if m.version == 1 then ZeroTime else m.v2.correction;
    var e := Answered(AnswerNumber(m), m.stamp, correction);
    Noted(p.measures, e);
    var q := p.(delay := p.delay.(t4 := m.stamp, respCorrection := correction), measures := p.measures + [e]);
    if q.delay.t3.seconds != 0 { FinishedHalves(cfg, q); }
  }

  // ----- the handlers -----

  lemma DelayHandlers(cfg: Config, p: Port, m: Packet, time: TimeInternal, env: Inputs)
    requires HalvesOk(p)
    ensures HalvesOk(HandleDelayReq(cfg, p, m, time, env)) && HalvesOk(HandleDelayResp(cfg, p, m))
  {
    hide HalvesOk, ToFaulty, DelayReqTxComplete, UseDelayResp, FromSelf, TechnologyOk, DelayRespOk;
    FaultHalves(cfg, p);
    LoopedBackHalves(cfg, p, m, time);
    var q := HandleDelayReq(cfg, p, m, time, env);
    if p.state == Master && q != ToFaulty(cfg, p) { SameHalvesOk(p, q); }
    if p.delay.sentRequest && DelayRespOk(cfg, p, m) { AnsweredHalves(cfg, p, m); }
  }

  lemma PeerReqHandler(cfg: Config, p: Port, m: Packet, time: TimeInternal, env: Inputs)
    requires HalvesOk(p)
    ensures HalvesOk(HandlePDelayReq(cfg, p, m, time, env))
  {
    hide HalvesOk, ToFaulty, ServoPathDelay, Sum, FromSelf;
    FaultHalves(cfg, p);
    SameHalvesOk(p, Asked(p, m));
    FaultHalves(cfg, Asked(p, m));
    var q := HandlePDelayReq(cfg, p, m, time, env);
    if q != ToFaulty(cfg, p) && q != ToFaulty(cfg, Asked(p, m)) { SameHalvesOk(p, q); }
  }

  lemma PeerFollowUpHandler(cfg: Config, p: Port, m: Packet)
    requires HalvesOk(p)
    ensures HalvesOk(HandlePDelayRespFollowUp(cfg, p, m))
  {
    hide HalvesOf, AllUsed, ToFaulty, ServoPathDelay, FromSelf;
    FaultHalves(cfg, p);
  }

  lemma PeerRespHandler(cfg: Config, p: Port, m: Packet, time: TimeInternal, env: Inputs)
    requires HalvesOk(p)
    ensures HalvesOk(HandlePDelayResp(cfg, p, m, time, env))
  {
    hide HalvesOf, AllUsed, ToFaulty, ServoPathDelay, Sum, FromSelf;
    FaultHalves(cfg, p);
    FaultHalves(cfg, p.(delay := p.delay.(peer := p.delay.peer.(t3 := Sum(time, cfg.outboundLatency)))));
  }

  lemma CountDownHalves(cfg: Config, p: Port, env: Inputs)
    requires HalvesOk(p)
    ensures HalvesOk(CountDown(cfg, p, env))
  {
    hide HalvesOf, AllUsed, ToFaulty, Requested, HoldsHalves;
    var counted := p.(requests := Wrap16(p.requests + 1), sync := p.sync.(r := 0));
    RequestedHalves(counted, env.replySent);
    FaultHalves(cfg, Requested(counted, env.replySent));
  }

  lemma AcceptHalves(cfg: Config, p: Port, m: Packet, time: TimeInternal, env: Inputs)
    requires HalvesOk(p)
    ensures HalvesOk(AcceptSync(cfg, p, m, time, env))
  {
    hide HalvesOf, AllUsed, CountDown, ServoOffset, ServoClock, Added, ReceiptTimeout, HoldsHalves;
    var noted := NoteSync(p, m, time);
    var corrected := if noted.sync.waitingForFollow then noted else Correct(cfg, noted, m.stamp, env);
    CountDownHalves(cfg, if m.version == 1 then S1(corrected, Bmc.Candidate(m.header, m.sync)) else corrected, env);
  }

  lemma SeenHalves(cfg: Config, p: Port, m: Packet, time: TimeInternal, env: Inputs)
    requires HalvesOk(p)
    ensures HalvesOk(SeenSync(cfg, p, m, time, env))
  {
    hide HalvesOf, AllUsed, ToFaulty, Added, TechnologyOk, FromSelf, HoldsHalves;
    FaultHalves(cfg, p.(sent := p.sent.(syncPending := false)));
  }

  lemma OtherHandlers(cfg: Config, p: Port, m: Packet, time: TimeInternal, env: Inputs)
    requires HalvesOk(p)
    ensures HalvesOk(HandleSync(cfg, p, m, time, env))
    ensures HalvesOk(HandleFollowUp(cfg, p, m, env)) && HalvesOk(HandleAnnounce(cfg, p, m))
  {
    hide HalvesOf, AllUsed, ToFaulty, AcceptSync, SeenSync, ServoOffset, ServoClock, Added, FromSelf, HoldsHalves;
    FaultHalves(cfg, p);
    AcceptHalves(cfg, p, m, time, env);
    SeenHalves(cfg, p, m, time, env);
    SeenHalves(cfg, AcceptSync(cfg, p, m, time, env), m, time, env);
  }

  lemma ManagementHalves(cfg: Config, p: Port, c: Management, env: Inputs)
    requires HalvesOk(p)
    ensures HalvesOk(HandleManagement(cfg, p, c, env))
  {
    hide HalvesOf, AllUsed, ToFaulty, ToState, HoldsHalves;
    FaultHalves(cfg, p);
    if p.state != Initializing && !c.ForAnother? && !c.Query? {
      var (q, s) := Unload(p.(recordUpdate := true), c, cfg);
      EnteredHalves(cfg, q, s, 0);
    }
  }

  lemma HandleHalves(cfg: Config, p: Port, env: Inputs)
    requires HalvesOk(p)
    ensures HalvesOk(Handle(cfg, p, env))
  {
    hide HandleSync, HandleFollowUp, HandleDelayReq, HandleDelayResp, HandlePDelayReq, HandlePDelayResp,
         HandlePDelayRespFollowUp, HandleAnnounce, HandleManagement, ToFaulty, KindOf, ReceiveTime,
         HalvesOf, AllUsed, HoldsHalves;
    FaultHalves(cfg, p);
    if env.reception.Received? {
      var m := env.reception.packet;
      var q, time := p.(kind := KindOf(m, p.kind)), ReceiveTime(cfg, m);
      OtherHandlers(cfg, q, m, time, env);
      DelayHandlers(cfg, q, m, time, env);
      PeerReqHandler(cfg, q, m, time, env);
      PeerFollowUpHandler(cfg, q, m);
      PeerRespHandler(cfg, q, m, time, env);
      ManagementHalves(cfg, q, m.management, env);
    }
  }

  // ----- every run -----

  lemma TransmissionHalves(cfg: Config, p: Port, env: Inputs)
    requires HalvesOk(p)
    ensures HalvesOk(CheckSync(cfg, p, env)) && HalvesOk(CheckAnnounce(cfg, p, env))
  {
    hide HalvesOf, AllUsed, ToFaulty, HoldsHalves;
    var q := p.(timers := Timers.Cleared(Timers.Updated(p.timers, env.syncTicks), Timers.SYNC_INTERVAL));
    var seqn := Next16(q.sent.sync);
    FaultHalves(cfg, q.(sent := q.sent.(sync := seqn, syncPending := false), gm := q.gm.(sequenceId := seqn)));
    var a := p.(timers := Timers.Cleared(Timers.Updated(p.timers, env.announceTicks), Timers.ANNOUNCE_INTERVAL));
    var seqa := Next16(a.sent.announce);
    FaultHalves(cfg, a.(sent := a.sent.(announce := seqa), gm := a.gm.(sequenceId := seqa)));
  }

  lemma ReceiptHalves(cfg: Config, p: Port, ticks: nat)
    requires HalvesOk(p)
    ensures HalvesOk(CheckReceipt(cfg, p, ticks))
  {
    hide HalvesOf, AllUsed, ToState, HoldsHalves;
    var q := p.(timers := Timers.Cleared(Timers.Updated(p.timers, ticks), Timers.SYNC_RECEIPT));
    var forgot := q.(table := q.table.(number := 0, next := 0), log := q.log + [Restarted(0)]);
    EnteredHalves(cfg, M1(cfg, forgot), Master, 0);
    EnteredHalves(cfg, forgot, Listening, 0);
  }

  lemma ReconsiderHalves(cfg: Config, p: Port, env: Inputs)
    requires HalvesOk(p)
    ensures HalvesOk(Reconsider(cfg, p, env))
  {
    hide HalvesOf, AllUsed, ToState, Decision, HoldsHalves;
    if Deciding(p.state) && p.recordUpdate {
      var (q, s) := Decision(cfg, Reconsidering(p));
      DecisionHalves(cfg, Reconsidering(p));
      EnteredHalves(cfg, q, s, env.slaveRandom);
    }
  }

  lemma DecisionHalves(cfg: Config, p: Port)
    ensures Decision(cfg, p).0.delay == p.delay && Decision(cfg, p).0.measures == p.measures
  {
    hide BestRecord, D0, V2D0;
  }

  lemma StepHalves(cfg: Config, p: Port, env: Inputs)
    requires HalvesOk(p)
    ensures HalvesOk(Step(cfg, p, env))
  {
    hide HalvesOk, Reconsider, Handle, CheckSync, CheckAnnounce, CheckReceipt, ToState, DoInit;
    if p.state == Initializing {
      InitHalves(cfg, p, env);
    } else {
      ReconsiderHalves(cfg, p, env);
      var q := Reconsider(cfg, p, env);
      HandleHalves(cfg, q, env);
      ReceiptHalves(cfg, Handle(cfg, q, env), env.receiptTicks);
      EnteredHalves(cfg, q, Initializing, 0);
      TransmissionHalves(cfg, q, env);
      TransmissionHalves(cfg, CheckSync(cfg, q, env), env);
      HandleHalves(cfg, CheckAnnounce(cfg, CheckSync(cfg, q, env), env), env);
    }
  }

  lemma InitHalves(cfg: Config, p: Port, env: Inputs)
    requires HalvesOk(p)
    ensures HalvesOk(DoInit(cfg, p, env))
  {
    hide HalvesOf, AllUsed, ToState, ServoInit, HoldsHalves;
    EnteredHalves(cfg, p, Faulty, 0);
    var q := InitData(cfg, p);
    EnteredHalves(cfg, M1(cfg, q.(servo := ServoInit(cfg.servo, q.servo))), Listening, 0);
  }

  lemma {:induction false} RunHalves(cfg: Config, p: Port, envs: seq<Inputs>)
    requires HalvesOk(p)
    ensures HalvesOk(Run(cfg, p, envs))
    decreases |envs|
  {
    hide Step, HalvesOk;
    if envs != [] {
      StepHalves(cfg, p, envs[0]);
      if !Stops(p, envs[0]) { RunHalves(cfg, Step(cfg, p, envs[0]), envs[1..]); }
    }
  }

  /** In every run, each delay measured is the one between the last loop-back and the last response accepted,
      neither of them used before, and belongs to one request exactly as Uses says. */
  lemma HalvesInEveryRun(cfg: Config, envs: seq<Inputs>)
    requires ValidConfig(cfg)
    ensures AllUsed(Run(cfg, PowerUp(cfg), envs).measures)
  {
    RunHalves(cfg, PowerUp(cfg), envs);
  }

  // ----- what the servo measures -----

  /** What is noted of a step of the measurement, and what it does to the servo: nothing, unless the last
      thing noted is a measurement, and then that one. */
  predicate Noting(cfg: Config, p: Port, q: Port) {
    && |p.measures| <= |q.measures| && q.measures[..|p.measures|] == p.measures
    && (if |q.measures| > |p.measures| && q.measures[|q.measures| - 1].Measured?
        then var e := q.measures[|q.measures| - 1]; q.servo == ServoDelay(cfg.servo, p.servo, e.t3, e.t4, e.correction)
        else q.servo == p.servo)
  }

  /** The times noted are the times measured: while a port stays SLAVE, a Delay_Req or Delay_Resp changes
      the servo exactly by the measurements noted. */
  lemma NotedIsMeasured(cfg: Config, p: Port, m: Packet, time: TimeInternal, env: Inputs)
    requires p.state == Slave && !cfg.pdelay
    ensures var q := HandleDelayReq(cfg, p, m, time, env); q.state == Slave ==> Noting(cfg, p, q)
    ensures var q := HandleDelayResp(cfg, p, m); q.state == Slave ==> Noting(cfg, p, q)
  {
    hide Sum, ServoDelay, ServoInit, FromSelf, DelayRespOk, ReceiptTimeout;
  }

  // ----- the first measurement after a request -----

  /** Event k is the first measurement after the first n events, and one of one request. */
  ghost predicate FirstAndOfOne(events: seq<DelayEvent>, n: nat, k: nat) {
    && n <= k < |events| && events[k].Measured? && (forall l :: n <= l < k ==> !events[l].Measured?)
    && OfOneRequest(HalvesOf(events[..k]))
  }

  /** The first measurement after the first n events is one of one request. */
  ghost predicate FirstOfOne(events: seq<DelayEvent>, n: nat) {
    exists k :: FirstAndOfOne(events, n, k)
  }

  lemma FirstIs(before: seq<DelayEvent>, quiet: seq<DelayEvent>, e: DelayEvent, rest: seq<DelayEvent>)
    requires e.Measured? && forall l :: 0 <= l < |quiet| ==> !quiet[l].Measured?
    ensures FirstOfOne(before + quiet + [e] + rest, |before|) <==> OfOneRequest(HalvesOf(before + quiet))
  {
    hide HalvesOf, OfOneRequest;
    var all, k := before + quiet + [e] + rest, |before + quiet|;
    assert all[..k] == before + quiet && all[k] == e;
    forall l | |before| <= l < k ensures !all[l].Measured? { assert all[l] == quiet[l - |before|]; }
    if OfOneRequest(HalvesOf(before + quiet)) { assert FirstAndOfOne(all, |before|, k); }
  }

  /** The first half of the new request meets the other half of an earlier one. */
  lemma MeetsEarlier(before: seq<DelayEvent>, e: DelayEvent, half: DelayEvent)
    requires e.RequestIssued? && (half.LoopedBack? || half.Answered?)
    requires var h := HalvesOf(before);
             if half.LoopedBack? then h.answer.Half? && h.answer.request <= h.issued
             else h.sent.Half? && h.sent.request <= h.issued
    ensures !OfOneRequest(HalvesOf(before + [e] + [half]))
  {
    hide HalvesOf;
    Noted(before, e);
    Noted(before + [e], half);
  }

  lemma MeetEachOther(before: seq<DelayEvent>, n: UInteger16, a: bool, b: bool, half: DelayEvent, other: DelayEvent)
    requires half.LoopedBack? && other.Answered? && half.sequenceId == n && other.sequenceId == n
    ensures var base := before + [RequestIssued(n, a, b)];
            OfOneRequest(HalvesOf(base + ([half] + [other]))) && OfOneRequest(HalvesOf(base + ([other] + [half])))
  {
    hide HalvesOf;
    var e := RequestIssued(n, a, b);
    var base := before + [e];
    Noted(before, e);
    Noted(base, half);
    Noted(base + [half], other);
    Noted(base, other);
    Noted(base + [other], half);
    assert base + ([half] + [other]) == base + [half] + [other] && base + ([other] + [half]) == base + [other] + [half];
  }

  lemma AfterTheLoopBack(cfg: Config, p: Port, req: Packet, time: TimeInternal, resp: Packet, env: Inputs)
    requires p.state == Slave && !cfg.pdelay && DelayHandshake.OwnRequest(cfg, req, time)
    requires var q := IssueDelayReq(cfg, p, true); DelayHandshake.ItsResponse(cfg, q, resp)
    requires Sum(time, cfg.outboundLatency).seconds != 0
    ensures var q := IssueDelayReq(cfg, p, true);
            var t3, c := Sum(time, cfg.outboundLatency), DelayHandshake.Correction(resp);
            HandleDelayResp(cfg, HandleDelayReq(cfg, q, req, time, env), resp).measures ==
              if p.delay.t4.seconds != 0
              then q.measures + [LoopedBack(SequenceOf(req), t3)] + [Measured(t3, p.delay.t4, p.delay.respCorrection)]
              else q.measures + ([LoopedBack(SequenceOf(req), t3)] + [Answered(AnswerNumber(resp), resp.stamp, c)])
                   + [Measured(t3, resp.stamp, c)]
  {
    hide Sum, ServoDelay;
  }

  lemma AfterTheResponse(cfg: Config, p: Port, req: Packet, time: TimeInternal, resp: Packet, env: Inputs)
    requires p.state == Slave && !cfg.pdelay && DelayHandshake.OwnRequest(cfg, req, time)
    requires var q := IssueDelayReq(cfg, p, true); DelayHandshake.ItsResponse(cfg, q, resp)
    requires resp.stamp.seconds != 0
    ensures var q := IssueDelayReq(cfg, p, true);
            var t3, c := Sum(time, cfg.outboundLatency), DelayHandshake.Correction(resp);
            HandleDelayReq(cfg, HandleDelayResp(cfg, q, resp), req, time, env).measures ==
              if p.delay.t3.seconds != 0
              then q.measures + [Answered(AnswerNumber(resp), resp.stamp, c)] + [Measured(p.delay.t3, resp.stamp, c)]
                   + [LoopedBack(SequenceOf(req), t3)]
              else q.measures + ([Answered(AnswerNumber(resp), resp.stamp, c)] + [LoopedBack(SequenceOf(req), t3)])
                   + [Measured(t3, resp.stamp, c)]
  {
    hide Sum, ServoDelay;
  }

  /** After a request is issued, the loop-back and the response of that request come in. The first delay
      measured is that of the request exactly if no answer to an earlier one was there at the issue, when
      its loop-back comes first, or no loop-back of an earlier one, when the response does. */
  lemma FirstMeasurementExactly(cfg: Config, p: Port, req: Packet, time: TimeInternal, resp: Packet, env: Inputs)
    requires HalvesOk(p) && p.state == Slave && !cfg.pdelay
    requires DelayHandshake.OwnRequest(cfg, req, time) && SequenceOf(req) == Next16(p.sent.delayReq)
    requires DelayHandshake.ItsResponse(cfg, IssueDelayReq(cfg, p, true), resp)
    requires Sum(time, cfg.outboundLatency).seconds != 0 && resp.stamp.seconds != 0
    ensures var q := IssueDelayReq(cfg, p, true);
            var a := HandleDelayResp(cfg, HandleDelayReq(cfg, q, req, time, env), resp);
            var b := HandleDelayReq(cfg, HandleDelayResp(cfg, q, resp), req, time, env);
            && (FirstOfOne(a.measures, |q.measures|) <==> p.delay.t4.seconds == 0)
            && (FirstOfOne(b.measures, |q.measures|) <==> p.delay.t3.seconds == 0)
  {
    hide HalvesOf, AllUsed, OfOneRequest, HandleDelayReq, HandleDelayResp, Sum, FirstOfOne;
    var t3, c := Sum(time, cfg.outboundLatency), DelayHandshake.Correction(resp);
    var q := IssueDelayReq(cfg, p, true);
    var e := RequestIssued(Next16(p.sent.delayReq), p.delay.t3.seconds != 0, p.delay.t4.seconds != 0);
    var looped, answered := LoopedBack(SequenceOf(req), t3), Answered(AnswerNumber(resp), resp.stamp, c);
    AfterTheLoopBack(cfg, p, req, time, resp, env);
    AfterTheResponse(cfg, p, req, time, resp, env);
    MeetEachOther(p.measures, Next16(p.sent.delayReq), p.delay.t3.seconds != 0, p.delay.t4.seconds != 0, looped, answered);
    var a := HandleDelayResp(cfg, HandleDelayReq(cfg, q, req, time, env), resp).measures;
    var b := HandleDelayReq(cfg, HandleDelayResp(cfg, q, resp), req, time, env).measures;
    if p.delay.t4.seconds != 0 {
      MeetsEarlier(p.measures, e, looped);
      FirstIs(q.measures, [looped], Measured(t3, p.delay.t4, p.delay.respCorrection), []);
      assert a == q.measures + [looped] + [Measured(t3, p.delay.t4, p.delay.respCorrection)] + [];
    } else {
      FirstIs(q.measures, [looped] + [answered], Measured(t3, resp.stamp, c), []);
      assert a == q.measures + ([looped] + [answered]) + [Measured(t3, resp.stamp, c)] + [];
    }
    if p.delay.t3.seconds != 0 {
      MeetsEarlier(p.measures, e, answered);
      FirstIs(q.measures, [answered], Measured(p.delay.t3, resp.stamp, c), [looped]);
    } else {
      FirstIs(q.measures, [answered] + [looped], Measured(t3, resp.stamp, c), []);
      assert b == q.measures + ([answered] + [looped]) + [Measured(t3, resp.stamp, c)] + [];
    }
  }
}
