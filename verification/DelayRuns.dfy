/** Runs in which a port that follows one master measures a delay with halves of two requests, or becomes
    MASTER after a fault. */
module DelayRuns {
  import opened Octets
  import opened Arith
  import opened Bmc
  import opened Timers
  import opened ForeignMasters
  import opened PortTypes
  import opened DataSets
  import opened PortModel
  import opened Scenario
  import DelayHalves
  import PortTimers

  const KeyA := V1Key(1, A, 1)

  /** A SLAVE of A, whose last Sync had number n, with r Syncs to go to the next delay request. */
  predicate OfA(p: Port, n: UInteger16, r: UInteger16) {
    && p.state == Slave && |p.table.slots| == 3 && p.table.number == 1 && p.table.best == 0
    && p.table.slots[0] == Of(SyncOf(A, n)) && ParentKey(p.parent, false) == KeyA && p.parent.lastSync == n
    && p.sync.r == r && !p.timers[SYNC_RECEIPT].expire && Plain(p)
  }

  /** The own clock as it was started. */
  predicate Plain(p: Port) {
    p.own == OwnClock(4, DFLT, 0, false) && p.syncInterval == 0
  }

  /** What a round leaves of the delay measurement. */
  predicate SameDelay(p: Port, q: Port) {
    q.delay == p.delay && q.measures == p.measures && q.sent == p.sent && q.requests == p.requests
  }

  lemma ABeatsMe(p: Port, n: UInteger16)
    requires Plain(p)
    ensures Compare(D0(Ordinary, p), SyncOf(A, n), V1Me(Ordinary)) <= 0
  {
    var pre: Bytes := [0, 0, 0, 0, 0];
    assert MINE == pre + [3] && A == pre + [1];
    LastOctetDecides(pre, 1, 3);
    MemcmpMirrors(A, MINE);
  }

  /** The only record is the best one, and A is followed. */
  lemma FollowsA(p: Port, n: UInteger16, env: Inputs)
    requires p.recordUpdate && env.slaveRandom == 0 && Plain(p) && !p.timers[SYNC_RECEIPT].expire
    requires |p.table.slots| == 3 && p.table.number == 1 && p.table.best == 0 && p.table.slots[0] == Of(SyncOf(A, n))
    requires p.state == Listening || p.state == Slave
    ensures var q := Reconsider(Ordinary, p, env);
            && OfA(q, n, if p.state == Slave then p.sync.r else 4) && !q.recordUpdate
            && (p.state == Slave ==> SameDelay(p, q))
            && (p.state == Listening ==> SameDelay(p, q.(delay := p.delay, measures := p.measures)))
            && (p.state == Listening ==> q.measures == p.measures + [Forgotten])
            && (p.state == Listening ==> q.delay == p.delay.(t3 := ZeroTime, t4 := ZeroTime))
  {
    hide Compare, ServoInit, ReceiptTimeout, BestRecord;
    ABeatsMe(Reconsidering(p), n);
    OnlyRecord(p.table);
    assert Of(SyncOf(A, n)).v1 == SyncOf(A, n);
    assert D0(Ordinary, Reconsidering(p)) == D0(Ordinary, p);
  }

  lemma OnlyRecord(t: ForeignMasterTable)
    requires t.number == 1
    ensures BestRecord(Ordinary, t) == 0
  {
  }

  lemma KnownA(t: ForeignMasterTable, n: UInteger16, m: UInteger16)
    requires t.number == 1 && t.best == 0 && |t.slots| == 3 && t.slots[0] == Of(SyncOf(A, n))
    ensures Added(t, FromSync(SyncOf(A, m))).0 == t.(slots := t.slots[0 := Of(SyncOf(A, m))])
  {
    assert Matches(t.slots[0], FromSync(SyncOf(A, m)));
  }

  /** The next Sync of A, accepted. */
  lemma NotedA(p: Port, n: UInteger16, m: UInteger16)
    requires OfA(p, n, p.sync.r)
    ensures var q := S1(NoteSync(p, Message(124, 0, SyncOf(A, m), 0), TimeInternal(0, 1)), SyncOf(A, m));
            OfA(q, m, p.sync.r) && q.sync.waitingForFollow && q.recordUpdate && SameDelay(p, q)
  {
    hide Added, Of;
    KnownA(p.table, n, m);
  }

  lemma CountedA(p: Port, m: UInteger16, env: Inputs)
    requires OfA(p, m, p.sync.r) && p.sync.r >= 1 && p.recordUpdate && env.replySent && env.requestRandom == 0
    requires 0 <= p.requests < 100
    ensures var q, n := CountDown(Ordinary, p, env), Next16(p.sent.delayReq);
            if p.sync.r > 1 then OfA(q, m, p.sync.r - 1) && q.recordUpdate && SameDelay(p, q)
            else && OfA(q, m, 2) && q.recordUpdate && q.requests == p.requests + 1 && q.sent.delayReq == n
                 && q.delay == p.delay.(sentRequest := true, receivedPeerResp := false, sequenceId := n)
                 && q.measures == p.measures + [RequestIssued(n, p.delay.t3.seconds != 0, p.delay.t4.seconds != 0)]
  {
    hide Of;
  }

  lemma NextSync(p: Port, n: UInteger16, m: UInteger16, env: Inputs)
    requires OfA(p, n, p.sync.r) && p.sync.r >= 1 && !p.recordUpdate && n != m && 0 <= p.requests < 100
    requires env == Hear(A, m)
    ensures var q, k := Step(Ordinary, p, env), Next16(p.sent.delayReq);
            if p.sync.r > 1 then OfA(q, m, p.sync.r - 1) && q.recordUpdate && SameDelay(p, q)
            else && OfA(q, m, 2) && q.recordUpdate && q.requests == p.requests + 1 && q.sent.delayReq == k
                 && q.delay == p.delay.(sentRequest := true, receivedPeerResp := false, sequenceId := k)
                 && q.measures == p.measures + [RequestIssued(k, p.delay.t3.seconds != 0, p.delay.t4.seconds != 0)]
  {
    hide Of, Added, CountDown, CheckReceipt, NoteSync, S1, ReceiptTimeout, Handle;
    var msg := Message(124, 0, SyncOf(A, m), 0);
    Unchanged(p, env);
    IsAccepted(p, n, m);
    PortTimers.AcceptedInRound(Ordinary, p, msg, env);
    var k := p.(kind := SYNC);
    NotedA(k, n, m);
    NoteWaits(k, msg);
    var noted := S1(NoteSync(k, msg, TimeInternal(0, 1)), SyncOf(A, m));
    CountedA(noted, m, env);
    var counted := CountDown(Ordinary, noted, env);
    var started := counted.(timers := Started(counted.timers, SYNC_RECEIPT, ReceiptTimeout(counted.syncInterval)));
    assert AcceptSync(Ordinary, k, msg, TimeInternal(0, 1), env) == started;
    KnownA(started.table, m, m);
    var done := RememberSync(started, msg);
    assert Handle(Ordinary, p, env) == done;
    NotTimedOut(Ordinary, done);
  }

  lemma NoteWaits(p: Port, m: Packet)
    requires m.version == 1
    ensures NoteSync(p, m, TimeInternal(0, 1)).sync.waitingForFollow == m.header.assist
  {
  }

  lemma Unchanged(p: Port, env: Inputs)
    requires !p.recordUpdate
    ensures Reconsider(Ordinary, p, env) == p
  {
  }

  lemma IsAccepted(p: Port, n: UInteger16, m: UInteger16)
    requires OfA(p, n, p.sync.r) && n != m
    ensures var msg := Message(124, 0, SyncOf(A, m), 0);
            PortTimers.Accepts(Ordinary, p, msg) && ReceiveTime(Ordinary, msg) == TimeInternal(0, 1)
  {
  }

  /** The decision of a round can be taken first. */
  lemma DecidedFirst(p: Port, env: Inputs)
    requires Reconsider(Ordinary, p, env).state == Slave && !Reconsider(Ordinary, p, env).recordUpdate
    requires p.state != Initializing
    ensures Step(Ordinary, p, env) == Step(Ordinary, Reconsider(Ordinary, p, env), env)
  {
    hide Reconsider, Handle, CheckReceipt, CheckSync, CheckAnnounce;
    Unchanged(Reconsider(Ordinary, p, env), env);
  }

  /** A Sync of A after a change of the table, with more than one to go. */
  lemma SyncRound(p: Port, n: UInteger16, m: UInteger16)
    requires OfA(p, n, p.sync.r) && p.sync.r > 1 && p.recordUpdate && n != m && 0 <= p.requests < 100
    ensures var q := Step(Ordinary, p, Hear(A, m)); OfA(q, m, p.sync.r - 1) && q.recordUpdate && SameDelay(p, q)
  {
    hide Step, Reconsider, Of;
    FollowsA(p, n, Hear(A, m));
    DecidedFirst(p, Hear(A, m));
    NextSync(Reconsider(Ordinary, p, Hear(A, m)), n, m, Hear(A, m));
  }

  /** The Sync that makes a request due. */
  lemma RequestRound(p: Port, n: UInteger16, m: UInteger16)
    requires OfA(p, n, 1) && p.recordUpdate && n != m && 0 <= p.requests < 100
    ensures var q, k := Step(Ordinary, p, Hear(A, m)), Next16(p.sent.delayReq);
            && OfA(q, m, 2) && q.recordUpdate && q.requests == p.requests + 1 && q.sent.delayReq == k
            && q.delay == p.delay.(sentRequest := true, receivedPeerResp := false, sequenceId := k)
            && q.measures == p.measures + [RequestIssued(k, p.delay.t3.seconds != 0, p.delay.t4.seconds != 0)]
  {
    hide Step, Reconsider, Of;
    FollowsA(p, n, Hear(A, m));
    DecidedFirst(p, Hear(A, m));
    NextSync(Reconsider(Ordinary, p, Hear(A, m)), n, m, Hear(A, m));
  }

  const Second := TimeInternal(1, 0)
  const TwoSeconds := TimeInternal(2, 0)

  /** Request k comes back, sent at one second. */
  function LoopBack(k: UInteger16): Inputs {
    Round(Received(Message(124, 1, SyncOf(MINE, k), 0).(time := Second)))
  }

  /** A answers request k, received at two seconds. */
  function Answer(k: UInteger16): Inputs {
    Round(Received(Message(60, 3, SyncOf(A, 0), 0).(requestSequence := k, requester := V1Key(1, MINE, 1),
                                                    stamp := TwoSeconds)))
  }

  lemma NoLatency()
    ensures Sum(Second, ZeroTime) == Second
  {
  }

  lemma LoopedBackRound(p: Port, n: UInteger16, k: UInteger16)
    requires OfA(p, n, p.sync.r) && !p.recordUpdate
    ensures var q := Step(Ordinary, p, LoopBack(k));
            && OfA(q, n, p.sync.r) && !q.recordUpdate && q.sent == p.sent && q.requests == p.requests
            && (if p.delay.t4.seconds == 0
                then q.delay == p.delay.(t3 := Second) && q.measures == p.measures + [LoopedBack(k, Second)]
                else q.measures == p.measures + [LoopedBack(k, Second)] + [Measured(Second, p.delay.t4, p.delay.respCorrection)])
  {
    hide CheckReceipt, Of, Sum, ServoDelay;
    NoLatency();
    Unchanged(p, LoopBack(k));
    NotTimedOut(Ordinary, Handle(Ordinary, p, LoopBack(k)));
  }

  lemma AnsweredRound(p: Port, n: UInteger16, k: UInteger16)
    requires OfA(p, n, p.sync.r) && !p.recordUpdate && p.delay.sentRequest && p.delay.sequenceId == k
    ensures var q := Step(Ordinary, p, Answer(k));
            && OfA(q, n, p.sync.r) && !q.recordUpdate && q.sent == p.sent && q.requests == p.requests
            && (if p.delay.t3.seconds == 0
                then q.delay == p.delay.(t4 := TwoSeconds, respCorrection := ZeroTime)
                     && q.measures == p.measures + [Answered(k, TwoSeconds, ZeroTime)]
                else q.measures == p.measures + [Answered(k, TwoSeconds, ZeroTime)] + [Measured(p.delay.t3, TwoSeconds, ZeroTime)])
  {
    hide CheckReceipt, Of, ServoDelay;
    Unchanged(p, Answer(k));
    NotTimedOut(Ordinary, Handle(Ordinary, p, Answer(k)));
  }

  // ----- the beginning of all runs -----

  lemma Starts()
    ensures var p := Step(Ordinary, PowerUp(Ordinary), Round(Nothing));
            && p.state == Listening && p.table == Table([Blank, Blank, Blank], 0, 0, 0) && !p.recordUpdate
            && !p.timers[SYNC_RECEIPT].expire && Plain(p) && p.requests == 0 && p.sent.delayReq == 0
            && p.delay == Delay(false, 0, ZeroTime, ZeroTime, ZeroTime, false, false, NoPathTimes) && p.measures == []
  {
    hide ServoInit, ReceiptTimeout;
    assert seq(3, _ => Blank) == [Blank, Blank, Blank];
  }

  lemma HeardFirst(p: Port)
    requires p.state == Listening && !p.recordUpdate && !p.timers[SYNC_RECEIPT].expire
    ensures Step(Ordinary, p, Hear(A, 1)) ==
            p.(kind := SYNC, recordUpdate := true, table := Added(p.table, FromSync(SyncOf(A, 1))).0)
  {
    hide Added, CheckReceipt;
    NotTimedOut(Ordinary, p.(kind := SYNC, recordUpdate := true, table := Added(p.table, FromSync(SyncOf(A, 1))).0));
  }

  function FourSyncs(): Port {
    var p2 := Step(Ordinary, Step(Ordinary, PowerUp(Ordinary), Round(Nothing)), Hear(A, 1));
    Step(Ordinary, Step(Ordinary, Step(Ordinary, p2, Hear(A, 2)), Hear(A, 3)), Hear(A, 4))
  }

  lemma AfterFourSyncs()
    ensures var p := FourSyncs();
            && OfA(p, 4, 1) && p.recordUpdate && p.requests == 0 && p.sent.delayReq == 0 && p.measures == [Forgotten]
            && p.delay == Delay(false, 0, ZeroTime, ZeroTime, ZeroTime, false, false, NoPathTimes)
  {
    hide Step, Reconsider, PowerUp, Of, Added;
    Starts();
    var p1 := Step(Ordinary, PowerUp(Ordinary), Round(Nothing));
    HeardFirst(p1);
    FirstRecord(p1.table, SyncOf(A, 1));
    var p2 := Step(Ordinary, p1, Hear(A, 1));
    FollowsA(p2, 1, Hear(A, 2));
    DecidedFirst(p2, Hear(A, 2));
    NextSync(Reconsider(Ordinary, p2, Hear(A, 2)), 1, 2, Hear(A, 2));
    var p3 := Step(Ordinary, p2, Hear(A, 2));
    SyncRound(p3, 2, 3);
    SyncRound(Step(Ordinary, p3, Hear(A, 3)), 3, 4);
  }

  function Beginning(rest: seq<Inputs>): seq<Inputs> {
    [Round(Nothing)] + ([Hear(A, 1)] + ([Hear(A, 2)] + ([Hear(A, 3)] + ([Hear(A, 4)] + rest))))
  }

  lemma Begins(rest: seq<Inputs>)
    ensures Run(Ordinary, PowerUp(Ordinary), Beginning(rest)) == Run(Ordinary, FourSyncs(), rest)
  {
    hide Step, Run;
    var p0 := PowerUp(Ordinary);
    RunTwo(Ordinary, p0, Round(Nothing), Hear(A, 1), [Hear(A, 2)] + ([Hear(A, 3)] + ([Hear(A, 4)] + rest)));
    var p2 := Step(Ordinary, Step(Ordinary, p0, Round(Nothing)), Hear(A, 1));
    RunTwo(Ordinary, p2, Hear(A, 2), Hear(A, 3), [Hear(A, 4)] + rest);
    RunFirst(Ordinary, Step(Ordinary, Step(Ordinary, p2, Hear(A, 2)), Hear(A, 3)), Hear(A, 4), rest);
  }

  // ----- halves of two requests -----

  /** The first request, with its loop-back if sent, else its answer; then two Syncs and the second request. */
  lemma SecondRequest(sent: bool)
    ensures var first := if sent then LoopBack(1) else Answer(1);
            var half := if sent then LoopedBack(1, Second) else Answered(1, TwoSeconds, ZeroTime);
            var p := Step(Ordinary, Step(Ordinary, Step(Ordinary, Step(Ordinary, FourSyncs(), Hear(A, 5)), first),
                                         Hear(A, 6)), Hear(A, 7));
            && OfA(p, 7, 2) && p.recordUpdate && p.delay.sentRequest && p.delay.sequenceId == 2
            && p.measures == [Forgotten] + [RequestIssued(1, false, false)] + [half] + [RequestIssued(2, sent, !sent)]
            && p.delay.t3 == (if sent then Second else ZeroTime) && p.delay.t4 == (if sent then ZeroTime else TwoSeconds)
            && p.delay.respCorrection == ZeroTime
  {
    hide Step, Reconsider, FourSyncs, Of;
    AfterFourSyncs();
    var p5 := Step(Ordinary, FourSyncs(), Hear(A, 5));
    RequestRound(FourSyncs(), 4, 5);
    var first := if sent then LoopBack(1) else Answer(1);
    FollowsA(p5, 5, first);
    DecidedFirst(p5, first);
    if sent {
      LoopedBackRound(Reconsider(Ordinary, p5, first), 5, 1);
    } else {
      AnsweredRound(Reconsider(Ordinary, p5, first), 5, 1);
    }
    var p6 := Step(Ordinary, p5, first);
    NextSync(p6, 5, 6, Hear(A, 6));
    RequestRound(Step(Ordinary, p6, Hear(A, 6)), 6, 7);
  }

  function MixedRun(sent: bool): seq<Inputs> {
    Beginning([Hear(A, 5)] + ([if sent then LoopBack(1) else Answer(1)] + ([Hear(A, 6)] + ([Hear(A, 7)]
              + ([if sent then Answer(2) else LoopBack(2)] + [])))))
  }

  /** A run that ends in a delay measured with halves of two requests. The first request gets one of its
      halves only, which is still there when the second is issued, and of the second the other half comes
      first. It happens either way round. */
  lemma MixedMeasurement(sent: bool)
    ensures var p := Run(Ordinary, PowerUp(Ordinary), MixedRun(sent));
            var half := if sent then LoopedBack(1, Second) else Answered(1, TwoSeconds, ZeroTime);
            var other := if sent then Answered(2, TwoSeconds, ZeroTime) else LoopedBack(2, Second);
            var before := [Forgotten] + [RequestIssued(1, false, false)] + [half] + [RequestIssued(2, sent, !sent)] + [other];
            && p.measures == before + [Measured(Second, TwoSeconds, ZeroTime)]
            && !DelayHalves.OfOneRequest(DelayHalves.HalvesOf(before))
  {
    hide Step, Reconsider, FourSyncs, Of, Run, DelayHalves.HalvesOf;
    SecondRequest(sent);
    var first, last := if sent then LoopBack(1) else Answer(1), if sent then Answer(2) else LoopBack(2);
    var p4 := FourSyncs();
    var p6 := Step(Ordinary, Step(Ordinary, p4, Hear(A, 5)), first);
    var p8 := Step(Ordinary, Step(Ordinary, p6, Hear(A, 6)), Hear(A, 7));
    FollowsA(p8, 7, last);
    DecidedFirst(p8, last);
    if sent {
      AnsweredRound(Reconsider(Ordinary, p8, last), 7, 2);
    } else {
      LoopedBackRound(Reconsider(Ordinary, p8, last), 7, 2);
    }
    var tail := [Hear(A, 6)] + ([Hear(A, 7)] + ([last] + []));
    Begins([Hear(A, 5)] + ([first] + tail));
    RunTwo(Ordinary, p4, Hear(A, 5), first, tail);
    RunTwo(Ordinary, p6, Hear(A, 6), Hear(A, 7), [last] + []);
    RunFirst(Ordinary, p8, last, []);
    RunNone(Ordinary, Step(Ordinary, p8, last));
    NotOfOne(sent);
  }

  lemma NotOfOne(sent: bool)
    ensures var half := if sent then LoopedBack(1, Second) else Answered(1, TwoSeconds, ZeroTime);
            var other := if sent then Answered(2, TwoSeconds, ZeroTime) else LoopedBack(2, Second);
            var before := [Forgotten] + [RequestIssued(1, false, false)] + [half] + [RequestIssued(2, sent, !sent)] + [other];
            !DelayHalves.OfOneRequest(DelayHalves.HalvesOf(before))
  {
    hide DelayHalves.HalvesOf;
    var half := if sent then LoopedBack(1, Second) else Answered(1, TwoSeconds, ZeroTime);
    var other := if sent then Answered(2, TwoSeconds, ZeroTime) else LoopedBack(2, Second);
    var before := [Forgotten] + [RequestIssued(1, false, false)];
    DelayHalves.Noted(before, half);
    DelayHalves.MeetsEarlier(before + [half], RequestIssued(2, sent, !sent), other);
  }

  // ----- from a fault to MASTER -----

  /** The Sync that makes a request due, which cannot be sent, and ten ticks. */
  const Fault := Hear(A, 5).(replySent := false, receiptTicks := 10)

  /** A run of six rounds, the last of which takes a SLAVE through FAULTY to MASTER. */
  lemma FaultyToMaster()
    ensures FourSyncs().state == Slave
    ensures Run(Ordinary, PowerUp(Ordinary), Beginning([Fault] + [])).state == Master
    ensures var q := Reconsider(Ordinary, FourSyncs(), Fault);
            var m := Fault.reception.packet;
            q.state == Slave && PortTimers.Accepts(Ordinary, q, m)
            && AcceptSync(Ordinary, q.(kind := SYNC), m, ReceiveTime(Ordinary, m), Fault).state == Faulty
  {
    hide Step, Run, FourSyncs, Of, AcceptSync, PortTimers.Accepts, Reconsider;
    AfterFourSyncs();
    var p, m := FourSyncs(), Fault.reception.packet;
    FollowsA(p, 4, Fault);
    var q := Reconsider(Ordinary, p, Fault);
    IsAccepted(q, 4, 5);
    PortTimers.AcceptedSyncRestarts(Ordinary, q.(kind := SYNC), m, ReceiveTime(Ordinary, m), Fault);
    PortTimers.FaultyRound(Ordinary, p, m, Fault);
    assert ReceiptTimeout(0) == 10;
    Begins([Fault] + []);
    RunFirst(Ordinary, p, Fault, []);
    RunNone(Ordinary, Step(Ordinary, p, Fault));
  }
}
