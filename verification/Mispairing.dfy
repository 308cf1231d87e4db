/** Why the pairing of Follow_Ups needs an orderly table: a run in which a port that has been initialized
    again takes the time of one Sync for that of another, although its master never changes. */
module Mispairing {
  import opened Octets
  import opened Arith
  import opened Bmc
  import opened Timers
  import opened ForeignMasters
  import opened PortTypes
  import opened DataSets
  import opened PortModel
  import opened PortPairing
  import opened Scenario

  function Complete(uuid: Uuid, seqn: UInteger16): Inputs {
    Round(Received(Message(52, 2, SyncOf(uuid, 0), seqn)))
  }

  /** A Sync of another clock than the parent is remembered. */
  lemma Heard(p: Port, uuid: Uuid, seqn: UInteger16)
    requires uuid != MINE && !p.timers[SYNC_RECEIPT].expire && !p.recordUpdate
    requires p.state == Listening || (p.state == Slave && ParentKey(p.parent, false) != V1Key(1, uuid, 1))
    ensures Step(Slaves, p, Hear(uuid, seqn)) ==
            p.(kind := SYNC, recordUpdate := true, table := Added(p.table, FromSync(SyncOf(uuid, seqn))).0)
  {
    hide Added, CheckReceipt, Updated, Cleared;
    NotTimedOut(Slaves, p.(kind := SYNC, recordUpdate := true, table := Added(p.table, FromSync(SyncOf(uuid, seqn))).0));
  }

  /** A changed table makes a slave-only port the SLAVE of its best record. */
  lemma Followed(p: Port, env: Inputs)
    requires (p.state == Listening || p.state == Slave) && p.recordUpdate && p.table.number > 0
    requires !p.timers[SYNC_RECEIPT].expire && env.slaveRandom == 0
    ensures var q, best := Reconsider(Slaves, p, env), BestRecord(Slaves, p.table);
            var c := p.table.slots[best].v1;
            && q.state == Slave && q.table == p.table.(best := best) && !q.recordUpdate && q.kind == p.kind
            && ParentKey(q.parent, false) == SourceKey(c.header) && q.parent.lastSync == c.header.sequenceId
            && q.log == p.log + [Decided(ParentsRecords(p.table, p.parent))] + [AppliedSync(c)] && q.sync.t2 == p.sync.t2
            && q.sync.waitingForFollow == (p.state == Slave && p.sync.waitingForFollow)
            && q.sync.r == (if p.state == Slave then p.sync.r else 4) && !q.timers[SYNC_RECEIPT].expire
            && (p.state == Slave ==> q.timers == p.timers)
  {
    hide BestRecord, ServoInit, ReceiptTimeout;
  }

  /** A decision that has been taken stays taken while the message is handled. */
  lemma AfterFollowing(p: Port, env: Inputs)
    requires (p.state == Listening || p.state == Slave) && p.recordUpdate && p.table.number > 0
    requires !p.timers[SYNC_RECEIPT].expire && env.slaveRandom == 0
    ensures var q := Reconsider(Slaves, p, env); Step(Slaves, p, env) == Step(Slaves, q, env)
  {
    hide Reconsider, Handle, CheckReceipt, CheckSync, CheckAnnounce;
    Followed(p, env);
    var q := Reconsider(Slaves, p, env);
    Unchanged(q, env);
  }

  lemma Unchanged(p: Port, env: Inputs)
    requires !p.recordUpdate
    ensures Reconsider(Slaves, p, env) == p
  {
  }

  /** The first record of a pair of the same clock is kept unless the second has the higher number. */
  lemma BestOfTwo(t: ForeignMasterTable, uuid: Uuid, m: UInteger16, n: UInteger16)
    requires t.number == 2 && t.slots[0].v1 == SyncOf(uuid, m) && t.slots[1].v1 == SyncOf(uuid, n)
    ensures BestRecord(Slaves, t) == if n > m then 1 else 0
  {
    var c := V1Candidates(t);
    assert Scan(c, V1Me(Slaves), 1) == 0;
    hide Memcmp;
  }

  lemma BestOfOne(t: ForeignMasterTable)
    requires t.number == 1
    ensures BestRecord(Slaves, t) == 0
  {
  }

  lemma Broken(p: Port)
    requires p.state == Slave && !p.recordUpdate && !p.timers[SYNC_RECEIPT].expire
    ensures var q := Step(Slaves, p, Round(Failed));
            q.state == Faulty && q.table == p.table && q.log == p.log && !q.recordUpdate && !q.timers[SYNC_RECEIPT].expire
  {
    hide CheckReceipt, ServoInit;
    NotTimedOut(Slaves, Handle(Slaves, p, Round(Failed)));
  }

  lemma Restarts(p: Port)
    requires p.state == Faulty && !p.recordUpdate && !p.timers[SYNC_RECEIPT].expire
    ensures var q := Step(Slaves, Step(Slaves, p, Round(Nothing)), Round(Nothing));
            && q.state == Listening && q.table == p.table.(number := 0) && q.log == p.log + [Restarted(p.table.next)]
            && !q.recordUpdate && !q.timers[SYNC_RECEIPT].expire
  {
    hide ServoInit, ReceiptTimeout;
  }

  lemma Starts()
    ensures var p := Step(Slaves, PowerUp(Slaves), Round(Nothing));
            && p.state == Listening && p.table == Table([Blank, Blank, Blank], 0, 0, 0) && p.log == [Restarted(0)]
            && !p.recordUpdate && !p.timers[SYNC_RECEIPT].expire
  {
    hide ServoInit, ReceiptTimeout;
    assert seq(3, _ => Blank) == [Blank, Blank, Blank];
  }

  lemma Accepted(p: Port, seqn: UInteger16)
    requires p.state == Slave && ParentKey(p.parent, false) == V1Key(1, A, 1) && p.parent.lastSync != seqn
    requires !p.recordUpdate && p.sync.r == 4
    ensures var q, e := Step(Slaves, p, Hear(A, seqn)), FromSync(SyncOf(A, seqn));
            && q.state == Slave && q.table == Added(Added(p.table, e).0, e).0 && q.recordUpdate
            && q.log == p.log + [SyncAccepted(V1Key(1, A, 1), seqn, TimeInternal(0, 1))] + [AppliedSync(SyncOf(A, seqn))]
            && ParentKey(q.parent, false) == V1Key(1, A, 1) && q.parent.lastSync == seqn
            && q.sync.waitingForFollow && q.sync.t2 == TimeInternal(0, 1) && !q.timers[SYNC_RECEIPT].expire
  {
    hide CheckReceipt, AcceptSync, Added;
    var m, env := Message(124, 0, SyncOf(A, seqn), 0), Hear(A, seqn);
    var q := p.(kind := SYNC);
    Unchanged(p, env);
    AcceptedOnly(q, seqn);
    var r := AcceptSync(Slaves, q, m, TimeInternal(0, 1), env);
    var done := RememberSync(r, m);
    assert Handle(Slaves, p, env) == done;
    NotTimedOut(Slaves, done);
  }

  lemma AcceptedOnly(p: Port, seqn: UInteger16)
    requires p.state == Slave && p.sync.r == 4
    ensures var m, e := Message(124, 0, SyncOf(A, seqn), 0), FromSync(SyncOf(A, seqn));
            var q := AcceptSync(Slaves, p, m, TimeInternal(0, 1), Hear(A, seqn));
            && q.state == Slave && q.table == Added(p.table, e).0
            && q.log == p.log + [SyncAccepted(V1Key(1, A, 1), seqn, TimeInternal(0, 1))] + [AppliedSync(SyncOf(A, seqn))]
            && ParentKey(q.parent, false) == V1Key(1, A, 1) && q.parent.lastSync == seqn
            && q.sync.waitingForFollow && q.sync.t2 == TimeInternal(0, 1) && !q.timers[SYNC_RECEIPT].expire
  {
    hide Added, ReceiptTimeout, ServoInit;
  }

  lemma Used(p: Port, seqn: UInteger16)
    requires p.state == Slave && ParentKey(p.parent, false) == V1Key(1, A, 1) && p.parent.lastSync == seqn
    requires p.sync.waitingForFollow && !p.recordUpdate && !p.timers[SYNC_RECEIPT].expire
    ensures Step(Slaves, p, Complete(A, seqn)).log == p.log + [FollowUpUsed(V1Key(1, A, 1), seqn, p.sync.t2)]
  {
    hide CheckReceipt, ServoOffset, ServoClock;
    var env := Complete(A, seqn);
    Unchanged(p, env);
    NotTimedOut(Slaves, Handle(Slaves, p, env));
  }

  // ----- the tables of the run -----

  lemma StrangersRecord(t: ForeignMasterTable, c: Candidate)
    requires t.number == 1 && t.best == 0 && t.next == 2 && |t.slots| == 3 && t.slots[2] == Blank
    requires !Matches(t.slots[0], FromSync(c))
    ensures Added(t, FromSync(c)).0 == Table(t.slots[2 := Of(c)], 2, 0, 0)
  {
    hide Matches;
  }

  lemma KnownRecord(t: ForeignMasterTable, c: Candidate, d: Candidate)
    requires t.number == 2 && t.best == 1 && |t.slots| == 3 && t.slots[1] == Of(d) && d.header.(sequenceId := 0) == c.header.(sequenceId := 0)
    ensures Added(t, FromSync(c)).0 == t.(slots := t.slots[1 := Of(c)])
  {
    assert Matches(t.slots[1], FromSync(c));
  }

  // ----- the run -----

  /** Started, heard A, followed A, broken down, and initialized again. */
  lemma InitializedAgain()
    ensures var p1 := Step(Slaves, PowerUp(Slaves), Round(Nothing));
            var p3 := Step(Slaves, Step(Slaves, p1, Hear(A, 5)), Round(Failed));
            var p := Step(Slaves, Step(Slaves, p3, Round(Nothing)), Round(Nothing));
            && p1.state == Listening && Step(Slaves, p1, Hear(A, 5)).state == Listening && p3.state == Faulty
            && p.state == Listening && p.table == Table([Of(SyncOf(A, 5)), Blank, Blank], 0, 1, 0)
            && !p.recordUpdate && !p.timers[SYNC_RECEIPT].expire
  {
    hide Step, PowerUp, Reconsider, Added, Of, BestRecord;
    Starts();
    var p1 := Step(Slaves, PowerUp(Slaves), Round(Nothing));
    Heard(p1, A, 5);
    FirstRecord(p1.table, SyncOf(A, 5));
    var p2 := Step(Slaves, p1, Hear(A, 5));
    AfterFollowing(p2, Round(Failed));
    Followed(p2, Round(Failed));
    BestOfOne(p2.table);
    Broken(Reconsider(Slaves, p2, Round(Failed)));
    Restarts(Step(Slaves, p2, Round(Failed)));
  }

  /** Then A and B are heard, while the old record of A is followed. */
  lemma TwoOfA(p: Port)
    requires p.state == Listening && p.table == Table([Of(SyncOf(A, 5)), Blank, Blank], 0, 1, 0)
    requires !p.recordUpdate && !p.timers[SYNC_RECEIPT].expire
    ensures var q := Step(Slaves, p, Hear(A, 6));
            var r := Step(Slaves, q, Hear(B, 1));
            && q.state == Listening && r.state == Slave && r.recordUpdate && !r.timers[SYNC_RECEIPT].expire && r.sync.r == 4
            && r.table == Table([Of(SyncOf(A, 5)), Of(SyncOf(A, 6)), Of(SyncOf(B, 1))], 2, 0, 0)
  {
    hide Step, Reconsider, Added, Of, BestRecord;
    Heard(p, A, 6);
    FirstRecord(p.table, SyncOf(A, 6));
    var q := Step(Slaves, p, Hear(A, 6));
    BestOfOne(q.table);
    AfterFollowing(q, Hear(B, 1));
    Followed(q, Hear(B, 1));
    var f := Reconsider(Slaves, q, Hear(B, 1));
    KeyOfA(5);
    Heard(f, B, 1);
    StrangersRecord(f.table, SyncOf(B, 1));
  }

  lemma KeyOfA(n: UInteger16)
    ensures KeyOf(Of(SyncOf(A, n)), false) == V1Key(1, A, 1)
    ensures Of(SyncOf(A, n)).v1 == SyncOf(A, n) && SourceKey(SyncOf(A, n).header) == V1Key(1, A, 1)
    ensures !Matches(Of(SyncOf(A, n)), FromSync(SyncOf(B, 1)))
  {
  }

  /** A starts again from 1, and its old record becomes the best one. */
  lemma OldRecordIsFollowed(p: Port)
    requires p.state == Slave && p.recordUpdate && !p.timers[SYNC_RECEIPT].expire && p.sync.r == 4
    requires p.table == Table([Of(SyncOf(A, 5)), Of(SyncOf(A, 6)), Of(SyncOf(B, 1))], 2, 0, 0)
    ensures var q := Step(Slaves, p, Hear(A, 1));
            && q.state == Slave
            && Step(Slaves, q, Complete(A, 5)).log ==
               p.log + [Decided(ParentsRecords(p.table, p.parent))] + [AppliedSync(SyncOf(A, 6))]
               + [SyncAccepted(V1Key(1, A, 1), 1, TimeInternal(0, 1))] + [AppliedSync(SyncOf(A, 1))]
               + [Decided(false)] + [AppliedSync(SyncOf(A, 5))] + [FollowUpUsed(V1Key(1, A, 1), 5, TimeInternal(0, 1))]
  {
    hide Step, Reconsider, Added, Of, BestRecord;
    KeyOfA(5);
    KeyOfA(6);
    KeyOfA(1);
    BestOfTwo(p.table, A, 5, 6);
    AfterFollowing(p, Hear(A, 1));
    Followed(p, Hear(A, 1));
    var f := Reconsider(Slaves, p, Hear(A, 1));
    Accepted(f, 1);
    KnownRecord(f.table, SyncOf(A, 1), SyncOf(A, 6));
    KnownRecord(Added(f.table, FromSync(SyncOf(A, 1))).0, SyncOf(A, 1), SyncOf(A, 1));
    var q := Step(Slaves, p, Hear(A, 1));
    assert !ParentsRecords(q.table, q.parent) by { assert KeyOf(q.table.slots[0], false) == V1Key(1, A, 1); }
    BestOfTwo(q.table, A, 5, 1);
    AfterFollowing(q, Complete(A, 5));
    Followed(q, Complete(A, 5));
    Used(Reconsider(Slaves, q, Complete(A, 5)), 5);
  }

  lemma LastIsOne(log: seq<Event>)
    ensures var h := HistoryOf(log + [SyncAccepted(V1Key(1, A, 1), 1, TimeInternal(0, 1))]
                               + [AppliedSync(SyncOf(A, 1))] + [Decided(false)] + [AppliedSync(SyncOf(A, 5))]);
            h.last == LastSync(V1Key(1, A, 1), 1, TimeInternal(0, 1), true, false, 5, false)
  {
    hide HistoryOf, Paired;
    var a, b, c := SyncAccepted(V1Key(1, A, 1), 1, TimeInternal(0, 1)), AppliedSync(SyncOf(A, 1)), AppliedSync(SyncOf(A, 5));
    Noted(log, a, false);
    Noted(log + [a], b, false);
    Noted(log + [a] + [b], Decided(false), false);
    Noted(log + [a] + [b] + [Decided(false)], c, false);
  }

  /** A is followed after an initialization that leaves an older record of it in the table; it starts its
      numbers again from 1, and the older record, which has a higher number, becomes the best one. A
      Follow_Up with that number is then taken to complete the Sync with number 1. */
  lemma DisorderBreaksPairing() returns (cfg: Config, envs: seq<Inputs>, log: seq<Event>, e: Event)
    ensures ValidConfig(cfg) && OneVersion(cfg, envs) && Run(cfg, PowerUp(cfg), envs).log == log + [e]
    ensures e.FollowUpUsed?
    ensures var h := HistoryOf(log);
            && h.last.LastSync? && h.last.steady && e.parent == h.last.parent && e.received == h.last.received
            && e.sequenceId != h.last.sequenceId
  {
    hide Step, PowerUp, Run, HistoryOf;
    cfg := Slaves;
    var n := Round(Nothing);
    var p0 := PowerUp(cfg);
    var p1 := Step(cfg, p0, n);
    var p2 := Step(cfg, p1, Hear(A, 5));
    var p3 := Step(cfg, p2, Round(Failed));
    var p4 := Step(cfg, p3, n);
    var p5 := Step(cfg, p4, n);
    var p6 := Step(cfg, p5, Hear(A, 6));
    var p7 := Step(cfg, p6, Hear(B, 1));
    var p8 := Step(cfg, p7, Hear(A, 1));
    InitializedAgain();
    TwoOfA(p5);
    OldRecordIsFollowed(p7);
    var start := p7.log + [Decided(ParentsRecords(p7.table, p7.parent))] + [AppliedSync(SyncOf(A, 6))];
    log := start + [SyncAccepted(V1Key(1, A, 1), 1, TimeInternal(0, 1))] + [AppliedSync(SyncOf(A, 1))]
           + [Decided(false)] + [AppliedSync(SyncOf(A, 5))];
    e := FollowUpUsed(V1Key(1, A, 1), 5, TimeInternal(0, 1));
    LastIsOne(start);
    var t8 := [Hear(A, 1)] + ([Complete(A, 5)] + []);
    var t6 := [Hear(A, 6)] + ([Hear(B, 1)] + t8);
    var t3 := [Round(Failed)] + ([n] + ([n] + t6));
    envs := [n] + ([Hear(A, 5)] + t3);
    RunTwo(cfg, p0, n, Hear(A, 5), t3);
    RunFirst(cfg, p2, Round(Failed), [n] + ([n] + t6));
    RunTwo(cfg, p3, n, n, t6);
    RunTwo(cfg, p5, Hear(A, 6), Hear(B, 1), t8);
    RunTwo(cfg, p7, Hear(A, 1), Complete(A, 5), []);
    RunNone(cfg, Step(cfg, p8, Complete(A, 5)));
  }
}
