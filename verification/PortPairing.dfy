/** Which Sync a Follow_Up completes, over every run with messages of one protocol version. */
module PortPairing {
  import opened Octets
  import opened Arith
  import opened Bmc
  import opened V2Bmc
  import opened Timers
  import opened ForeignMasters
  import opened PortTypes
  import opened DataSets
  import opened PortModel
  import opened PortFrames

  // ----- the history of a run -----

  /** The last Sync accepted. It is steady until a message of another sender is applied as the reference,
      and used once a Follow_Up has completed it; applied is the number of the Sync last applied since, and
      agreeing tells whether the parent's records agreed with the number noted at every decision since. */
  datatype LastSync =
    | NoSync
    | LastSync(parent: Key, sequenceId: UInteger16, received: TimeInternal, steady: bool, used: bool,
               applied: UInteger16, agreeing: bool)

  /** The table is orderly if it was last emptied with its write position at the start. */
  datatype History = History(orderly: bool, last: LastSync)

  function Keeps(l: LastSync, sender: Key): LastSync {
    if l.LastSync? then l.(steady := l.steady && sender == l.parent) else l
  }

  function Renumbered(l: LastSync, sequenceId: UInteger16): LastSync {
    if l.LastSync? then l.(applied := sequenceId) else l
  }

  function Recall(h: History, e: Event): History {
    match e
    case Restarted(next) => h.(orderly := next == 0)
    case AppliedSync(c) => h.(last := Renumbered(Keeps(h.last, SourceKey(c.header)), c.header.sequenceId))
    case Decided(agreeing) =>
      h.(last := if h.last.LastSync? then h.last.(agreeing := h.last.agreeing && agreeing) else h.last)
    case AppliedAnnounce(c) => h.(last := Keeps(h.last, V2Key(c.source)))
    case SyncAccepted(parent, sequenceId, received) => h.(last := LastSync(parent, sequenceId, received, true, false, sequenceId, true))
    case FollowUpUsed(_, _, _) => h.(last := if h.last.LastSync? then h.last.(used := true) else h.last)
  }

  function HistoryOf(log: seq<Event>): History
    decreases |log|
  {
    if log == [] then History(true, NoSync) else Recall(HistoryOf(log[..|log| - 1]), log[|log| - 1])
  }

  /** A Follow_Up completes the last Sync accepted, with the time that one was received, and no Sync is
      completed twice. As long as the parent has not changed the sender is the same too. The sequence
      number is the same under version 2. Under version 1 it is that of the Sync last applied, so that the
      numbers agree exactly if that Sync has the number of the one accepted. With the same parent it has if at
      every decision since then the records of the parent agreed with the number noted, as they do in an
      orderly table. */
  predicate Completes(h: History, e: Event, v2: bool)
    requires e.FollowUpUsed?
  {
    && h.last.LastSync? && !h.last.used && e.received == h.last.received
    && (h.last.steady ==> e.parent == h.last.parent)
    && e.sequenceId == (if v2 then h.last.sequenceId else h.last.applied)
    && (h.last.steady && (h.orderly || h.last.agreeing) ==> e.sequenceId == h.last.sequenceId)
  }

  predicate Paired(log: seq<Event>, v2: bool)
    decreases |log|
  {
    log == []
    || (var e, before := log[|log| - 1], log[..|log| - 1];
        Paired(before, v2) && (e.FollowUpUsed? ==> Completes(HistoryOf(before), e, v2)))
  }

  lemma Noted(log: seq<Event>, e: Event, v2: bool)
    ensures HistoryOf(log + [e]) == Recall(HistoryOf(log), e)
    ensures Paired(log + [e], v2) <==> Paired(log, v2) && (e.FollowUpUsed? ==> Completes(HistoryOf(log), e, v2))
  {
    assert (log + [e])[..|log|] == log;
  }

  // ----- what the port keeps -----

  /** A Sync waiting for its Follow_Up is the last one accepted. */
  predicate Waiting(h: History, p: Port, v2: bool) {
    && h.last.LastSync? && !h.last.used && h.last.received == p.sync.t2
    && (h.last.steady ==> ParentKey(p.parent, v2) == h.last.parent)
    && p.parent.lastSync == (if v2 then h.last.sequenceId else h.last.applied)
    && (h.last.steady && (h.orderly || h.last.agreeing) ==> p.parent.lastSync == h.last.sequenceId)
  }

  /** A version 1 record is filed under the sender of its message. */
  ghost predicate Filed(t: Table) {
    forall i :: 0 <= i < |t.slots| ==> KeyOf(t.slots[i], false) == SourceKey(t.slots[i].v1.header)
  }

  ghost predicate TableOk(h: History, t: Table, v2: bool) {
    (h.orderly ==> Ring(t, v2)) && (!v2 ==> Filed(t))
  }

  ghost predicate SlaveOk(h: History, p: Port, v2: bool) {
    && p.table.best < p.table.number
    && (p.sync.waitingForFollow ==> Waiting(h, p, v2))
    && (!v2 && h.orderly ==> ParentsRecords(p.table, p.parent))
  }

  /** Types that a version 1 message can be taken for when all messages are of version 1. */
  predicate V1Kind(kind: nat) {
    kind == SYNC || kind == DELAY_REQ || kind == FOLLOW_UP || kind == DELAY_RESP || kind == MANAGEMENT
  }

  ghost predicate Tracks(cfg: Config, p: Port) {
    var h := HistoryOf(p.log);
    && TableOk(h, p.table, cfg.ptpv2) && (!cfg.ptpv2 ==> V1Kind(p.kind))
    && (p.state == Slave ==> SlaveOk(h, p, cfg.ptpv2))
    && Paired(p.log, cfg.ptpv2)
    && (Ready(p.table) || p.recordUpdate) && p.state != Uncalibrated && p.state != PreMaster
  }

  lemma QuietTracks(cfg: Config, p: Port, q: Port)
    requires Tracks(cfg, p) && Quiet(p, q)
    ensures Tracks(cfg, q)
  {
    hide HistoryOf, Paired, Ring, Filed;
  }

  // ----- foreign masters -----

  lemma AddedOk(h: History, t: Table, e: Entry, v2: bool)
    requires Safe(t) && TableOk(h, t, v2) && Ready(t) && e.FromAnnounce? == v2
    ensures TableOk(h, Added(t, e).0, v2)
  {
    hide Ring, Find, Appended;
    if h.orderly { AddIsFirstInFirstOut(t, e); }
    if !v2 { hide Written; FiledUnder(t, e); }
  }

  lemma FiledUnder(t: Table, e: Entry)
    requires Safe(t) && Filed(t) && e.FromSync?
    ensures Filed(Added(t, e).0)
  {
    hide Added;
    var j := Added(t, e).1;
    assert KeyOf(Written(t.slots[j], e), false) == SourceKey(Written(t.slots[j], e).v1.header);
  }

  /** A new Sync leaves the records of the parent in step, whether it is the parent's or another's. */
  lemma AddedParentsRecords(t: Table, c: Candidate, parent: Parent)
    requires Safe(t) && Ready(t) && Ring(t, false) && t.number > 0 && ParentsRecords(t, parent)
    requires SourceKey(c.header) == ParentKey(parent, false) ==> c.header.sequenceId == parent.lastSync
    ensures ParentsRecords(Added(t, FromSync(c)).0, parent)
  {
    hide Ring, Added;
    var e := FromSync(c);
    AddIsFirstInFirstOut(t, e);
    var (u, j) := Added(t, e);
    NumberGrows(t, e);
    assert KeyOf(u.slots[j], false) == SourceKey(c.header) && u.slots[j].v1 == c;
    forall i | 0 <= i < u.number && KeyOf(u.slots[i], false) == ParentKey(parent, false)
      ensures u.slots[i].v1.header.sequenceId == parent.lastSync
    {
      if i != j { assert u.slots[i] == t.slots[i]; }
    }
  }

  lemma NumberGrows(t: Table, e: Entry)
    requires Safe(t) && Ready(t) && Ring(t, e.FromAnnounce?) && t.number > 0
    ensures var (u, j) := Added(t, e);
            u.number == t.number || (u.number == t.number + 1 && j == t.number)
    ensures t.number <= Added(t, e).0.number && Added(t, e).0.best == t.best
  {
  }

  /** A record that is the only one under its key speaks for the parent. */
  lemma OneRecord(t: Table, j: nat, parent: Parent)
    requires Ring(t, false) && j < t.number
    requires KeyOf(t.slots[j], false) == ParentKey(parent, false)
    requires t.slots[j].v1.header.sequenceId == parent.lastSync
    ensures ParentsRecords(t, parent)
  {
    hide KeyOf, ParentKey;
    forall i | 0 <= i < t.number && KeyOf(t.slots[i], false) == ParentKey(parent, false)
      ensures t.slots[i].v1.header.sequenceId == parent.lastSync
    {
      var q := t.slots[..t.number];
      assert KeyOf(q[i], false) == KeyOf(q[j], false);
    }
  }

  lemma StaysReady(t: Table, e: Entry)
    requires Safe(t) && t.number > 0
    ensures var u := Added(t, e).0; t.number <= u.number && u.best == t.best
  {
    hide Find;
  }

  lemma RememberTracks(cfg: Config, p: Port, e: Entry)
    requires Tracks(cfg, p) && Ready(p.table) && e.FromAnnounce? == cfg.ptpv2
    requires !cfg.ptpv2 && p.state == Slave && SourceKey(e.c.header) == ParentKey(p.parent, false) ==>
               e.c.header.sequenceId == p.parent.lastSync
    ensures Tracks(cfg, Remember(p, e)) && (p.table.number > 0 ==> Ready(Remember(p, e).table))
  {
    hide HistoryOf, Paired, Ring, Filed, Added, SourceKey, ParentKey, ParentsRecords, TableOk;
    var h := HistoryOf(p.log);
    AddedOk(h, p.table, e, cfg.ptpv2);
    if p.table.number > 0 { StaysReady(p.table, e); }
    if !cfg.ptpv2 && p.state == Slave && h.orderly {
      OrderlyRing(h, p.table, cfg.ptpv2);
      AddedParentsRecords(p.table, e.c, p.parent);
    }
  }

  lemma OrderlyRing(h: History, t: Table, v2: bool)
    requires TableOk(h, t, v2) && h.orderly
    ensures Ring(t, v2)
  {
  }

  // ----- Sync -----

  /** Messages are of the version the port runs. */
  predicate Agrees(cfg: Config, m: Packet) {
    m.version == if cfg.ptpv2 then 2 else 1
  }

  /** What an accepted Sync changes under version 2. */
  lemma V2AcceptedShape(cfg: Config, p: Port, m: Packet, time: TimeInternal, env: Inputs)
    requires m.version == 2
    ensures var q := AcceptSync(cfg, p, m, time, env);
            && (q.state == p.state || Inactive(q.state)) && q.table == p.table && q.kind == p.kind
            && q.log == p.log + [SyncAccepted(Sender(m), SequenceOf(m), time)]
            && q.parent == p.parent.(lastSync := SequenceOf(m))
            && q.sync.t2 == time && (p.recordUpdate ==> q.recordUpdate)
  {
    hide Correct, CountDown, Started, ReceiptTimeout;
    var noted := NoteSync(p, m, time);
    CorrectIsQuiet(cfg, noted, m.stamp, env);
    var corrected := if noted.sync.waitingForFollow then noted else Correct(cfg, noted, m.stamp, env);
    CountDownIsQuiet(cfg, corrected, env);
  }

  lemma V1AcceptedShape(cfg: Config, p: Port, m: Packet, time: TimeInternal, env: Inputs)
    requires m.version == 1
    ensures var q, c := AcceptSync(cfg, p, m, time, env), Candidate(m.header, m.sync);
            && (q.state == p.state || Inactive(q.state)) && q.table == Added(p.table, FromSync(c)).0 && q.kind == p.kind
            && q.log == p.log + [SyncAccepted(Sender(m), SequenceOf(m), time)] + [AppliedSync(c)]
            && ParentKey(q.parent, false) == SourceKey(m.header) && q.parent.lastSync == SequenceOf(m)
            && q.sync.t2 == time && q.recordUpdate
  {
    hide Correct, CountDown, Started, ReceiptTimeout, Added;
    var noted := NoteSync(p, m, time);
    CorrectIsQuiet(cfg, noted, m.stamp, env);
    var corrected := if noted.sync.waitingForFollow then noted else Correct(cfg, noted, m.stamp, env);
    CountDownIsQuiet(cfg, S1(corrected, Candidate(m.header, m.sync)), env);
  }

  lemma V2AcceptTracks(cfg: Config, p: Port, m: Packet, time: TimeInternal, env: Inputs)
    requires Tracks(cfg, p) && p.state == Slave && cfg.ptpv2 && m.version == 2 && FromParent(p, m)
    ensures var q := AcceptSync(cfg, p, m, time, env); Tracks(cfg, q) && Ready(q.table)
  {
    hide HistoryOf, Paired, Ring, Filed, AcceptSync;
    V2AcceptedShape(cfg, p, m, time, env);
    Noted(p.log, SyncAccepted(Sender(m), SequenceOf(m), time), true);
  }

  lemma V1AcceptTracks(cfg: Config, p: Port, m: Packet, time: TimeInternal, env: Inputs)
    requires Tracks(cfg, p) && p.state == Slave && !cfg.ptpv2 && m.version == 1 && FromParent(p, m)
    ensures var q := AcceptSync(cfg, p, m, time, env);
            Tracks(cfg, q) && Ready(q.table) && q.table.number > 0 && q.parent.lastSync == m.header.sequenceId
            && (q.state == Slave || Inactive(q.state)) && ParentKey(q.parent, false) == SourceKey(m.header)
  {
    hide HistoryOf, Paired, Ring, Filed, AcceptSync, Added, ParentsRecords, TableOk, ParentKey, SourceKey;
    var h, e, c := HistoryOf(p.log), SyncAccepted(Sender(m), SequenceOf(m), time), Candidate(m.header, m.sync);
    var q := AcceptSync(cfg, p, m, time, env);
    V1AcceptedShape(cfg, p, m, time, env);
    Noted(p.log, e, false);
    Noted(p.log + [e], AppliedSync(c), false);
    AddedOk(h, p.table, FromSync(c), false);
    OrderDoesNotChange(h, e, AppliedSync(c), q.table);
    StaysReady(p.table, FromSync(c));
    if h.orderly { NewSequence(h, p.table, c, q.parent); }
  }

  lemma OrderDoesNotChange(h: History, e: Event, f: Event, t: Table)
    requires e.SyncAccepted? && f.AppliedSync? && TableOk(h, t, false)
    ensures TableOk(Recall(Recall(h, e), f), t, false) && Recall(Recall(h, e), f).orderly == h.orderly
  {
    hide Ring, Filed;
  }

  lemma NewSequence(h: History, t: Table, c: Candidate, parent: Parent)
    requires Safe(t) && Ready(t) && h.orderly && TableOk(h, t, false)
    requires ParentKey(parent, false) == SourceKey(c.header) && parent.lastSync == c.header.sequenceId
    ensures ParentsRecords(Added(t, FromSync(c)).0, parent)
  {
    hide Added, Ring, ParentKey;
    var (u, j) := Added(t, FromSync(c));
    AddIsFirstInFirstOut(t, FromSync(c));
    assert u.slots[j] == Written(t.slots[j], FromSync(c));
    OneRecord(u, j, parent);
  }

  lemma SyncTracks(cfg: Config, p: Port, m: Packet, time: TimeInternal, env: Inputs)
    requires Tracks(cfg, p) && (Active(p.state) ==> Ready(p.table)) && Agrees(cfg, m)
    ensures Tracks(cfg, HandleSync(cfg, p, m, time, env))
  {
    hide ToFaulty, AcceptSync, SeenSync, Tracks, FromSelf, Quiet, Ready;
    Excluded(cfg, p);
    FaultIsQuiet(cfg, p);
    QuietTracks(cfg, p, ToFaulty(cfg, p));
    if p.state == Slave && FromParent(p, m) && SequenceOf(m) != p.parent.lastSync {
      var q := AcceptSync(cfg, p, m, time, env);
      if cfg.ptpv2 {
        V2AcceptTracks(cfg, p, m, time, env);
      } else {
        V1AcceptTracks(cfg, p, m, time, env);
      }
      SeenSyncTracks(cfg, q, m, time, env);
    } else if Active(p.state) {
      if !(p.state == Slave && FromParent(p, m)) { SeenSyncTracks(cfg, p, m, time, env); }
    }
  }

  lemma Excluded(cfg: Config, p: Port)
    requires Tracks(cfg, p)
    ensures p.state != Uncalibrated && p.state != PreMaster
  {
  }

  lemma SeenSyncTracks(cfg: Config, p: Port, m: Packet, time: TimeInternal, env: Inputs)
    requires Tracks(cfg, p) && Ready(p.table) && Agrees(cfg, m)
    requires !cfg.ptpv2 && p.state == Slave && SourceKey(m.header) == ParentKey(p.parent, false) ==>
               m.header.sequenceId == p.parent.lastSync
    ensures Tracks(cfg, SeenSync(cfg, p, m, time, env))
  {
    hide SeenSync, Tracks, Quiet, Ready;
    SeenSyncIsQuiet(cfg, p, m, time, env);
    if m.version == 1 && TechnologyOk(cfg, m) && !FromSelf(cfg, m) {
      RememberTracks(cfg, p, FromSync(Candidate(m.header, m.sync)));
    } else {
      QuietTracks(cfg, p, SeenSync(cfg, p, m, time, env));
    }
  }

  // ----- Follow_Up and Announce -----

  lemma UseTracks(cfg: Config, p: Port, m: Packet, env: Inputs)
    requires Tracks(cfg, p) && p.state == Slave && Agrees(cfg, m) && FollowUpExpected(p, m)
    ensures Tracks(cfg, UseFollowUp(cfg, p, m, env))
  {
    hide HistoryOf, Paired, Ring, Filed, Correct, ParentsRecords, Quiet;
    var times := if m.version == 1 then p.sync.(waitingForFollow := false, t1 := m.stamp)
                 else p.sync.(waitingForFollow := false, t1 := m.stamp, followupCorrection := m.v2.correction);
    var e := FollowUpUsed(Sender(m), FollowUpNumber(m), p.sync.t2);
    var q := p.(sync := times, log := p.log + [e]);
    Noted(p.log, e, cfg.ptpv2);
    assert Tracks(cfg, q);
    CorrectIsQuiet(cfg, q, m.stamp, env);
    QuietTracks(cfg, q, Correct(cfg, q, m.stamp, env));
  }

  lemma FollowUpTracks(cfg: Config, p: Port, m: Packet, env: Inputs)
    requires Tracks(cfg, p) && Agrees(cfg, m)
    ensures Tracks(cfg, HandleFollowUp(cfg, p, m, env))
  {
    hide ToFaulty, FollowUpExpected, UseFollowUp, FromSelf, Tracks, Quiet;
    FaultIsQuiet(cfg, p);
    QuietTracks(cfg, p, ToFaulty(cfg, p));
    if p.state == Slave && FollowUpExpected(p, m) { UseTracks(cfg, p, m, env); }
  }

  /** A message of the port's own version arrives, or one of no known version, or none. */
  predicate SameVersion(cfg: Config, env: Inputs) {
    env.reception.Received? && env.reception.packet.version in {1, 2} ==> Agrees(cfg, env.reception.packet)
  }

  lemma ApplyTracks(cfg: Config, p: Port, c: V2Candidate)
    requires Tracks(cfg, p) && cfg.ptpv2 && p.state == Slave
    ensures Tracks(cfg, V2S1(p, c)) && V2S1(p, c).table == p.table
  {
    hide HistoryOf, Paired, Ring;
    Noted(p.log, AppliedAnnounce(c), true);
  }

  lemma AnnounceTracks(cfg: Config, p: Port, m: Packet)
    requires Tracks(cfg, p) && (Active(p.state) ==> Ready(p.table)) && cfg.ptpv2
    ensures Tracks(cfg, HandleAnnounce(cfg, p, m))
  {
    hide ToFaulty, FromSelf, Tracks, Quiet, Ready, V2S1, Added;
    Excluded(cfg, p);
    FaultIsQuiet(cfg, p);
    QuietTracks(cfg, p, ToFaulty(cfg, p));
    if Active(p.state) {
      var e := FromAnnounce(m.v2.source, m.announce, m.translated);
      RememberTracks(cfg, p, e);
      if p.state == Slave {
        SlaveHasRecords(cfg, p);
        ApplyTracks(cfg, Remember(p, e), Announced(m));
        RememberTracks(cfg, V2S1(Remember(p, e), Announced(m)), e);
      }
    }
  }

  lemma SlaveHasRecords(cfg: Config, p: Port)
    requires Tracks(cfg, p) && p.state == Slave
    ensures p.table.number > 0 && Ready(p.table)
  {
  }

  lemma HandleTracks(cfg: Config, p: Port, env: Inputs)
    requires Tracks(cfg, p) && (Active(p.state) ==> Ready(p.table)) && SameVersion(cfg, env)
    ensures Tracks(cfg, Handle(cfg, p, env))
  {
    hide HandleSync, HandleFollowUp, HandleDelayReq, HandleDelayResp, HandlePDelayReq, HandlePDelayResp,
         HandlePDelayRespFollowUp, HandleAnnounce, HandleManagement, ToFaulty, ReceiveTime, Tracks, Quiet, Ready;
    FaultIsQuiet(cfg, p);
    QuietTracks(cfg, p, ToFaulty(cfg, p));
    if env.reception.Received? && Agrees(cfg, env.reception.packet) {
      var m := env.reception.packet;
      var q := p.(kind := KindOf(m, p.kind));
      KindTracks(cfg, p, m);
      SyncTracks(cfg, q, m, ReceiveTime(cfg, m), env);
      FollowUpTracks(cfg, q, m, env);
      if cfg.ptpv2 { AnnounceTracks(cfg, q, m); }
      if q.kind != SYNC && q.kind != FOLLOW_UP && q.kind != ANNOUNCE {
        OtherPacketsAreQuiet(cfg, q, m, env);
        QuietTracks(cfg, q, Dispatch(cfg, q, m, env));
      }
    }
  }

  lemma KindTracks(cfg: Config, p: Port, m: Packet)
    requires Tracks(cfg, p) && Agrees(cfg, m)
    ensures Tracks(cfg, p.(kind := KindOf(m, p.kind)))
    ensures !cfg.ptpv2 ==> V1Kind(KindOf(m, p.kind))
  {
    hide HistoryOf, Paired, Ring, Filed;
  }

  // ----- decisions -----

  /** What is left to show for a SLAVE after a decision. */
  ghost predicate DecidedWell(cfg: Config, p: Port, q: Port, s: PortState) {
    var h := HistoryOf(q.log);
    && TableOk(h, q.table, cfg.ptpv2) && q.kind == p.kind && q.sync == p.sync && q.state == p.state
    && Paired(q.log, cfg.ptpv2) && Ready(q.table)
    && (s == Slave ==> SlaveOk(h, if p.state == Slave then q else q.(sync := q.sync.(waitingForFollow := false)), cfg.ptpv2))
  }

  lemma V2Decided(cfg: Config, p: Port, best: nat, s: PortState)
    requires Tracks(cfg, p.(recordUpdate := true)) && Deciding(p.state) && cfg.ptpv2 && best < p.table.number
    ensures DecidedWell(cfg, p, V2S1(p.(table := p.table.(best := best)), p.table.slots[best].v2), s)
  {
    hide HistoryOf, Paired, Ring;
    Noted(p.log, AppliedAnnounce(p.table.slots[best].v2), true);
    BestDoesNotMatter(p.table, best, true);
  }

  lemma BestDoesNotMatter(t: Table, best: nat, v2: bool)
    ensures Ring(t, v2) ==> Ring(t.(best := best), v2)
    ensures Filed(t) ==> Filed(t.(best := best))
  {
  }

  /** If the parent's records are said to have agreed so far, they do now. */
  predicate Agreed(p: Port) {
    HistoryOf(p.log).last.LastSync? && HistoryOf(p.log).last.agreeing ==> ParentsRecords(p.table, p.parent)
  }

  lemma V1Decided(cfg: Config, p: Port, best: nat, s: PortState)
    requires Tracks(cfg, p.(recordUpdate := true)) && Deciding(p.state) && !cfg.ptpv2 && best < p.table.number
    requires Agreed(p)
    ensures DecidedWell(cfg, p, S1(p.(table := p.table.(best := best)), p.table.slots[best].v1), s)
  {
    hide HistoryOf, Paired, Ring, ParentKey, SourceKey, ParentsRecords, Filed;
    var c := p.table.slots[best].v1;
    var h, q := HistoryOf(p.log), S1(p.(table := p.table.(best := best)), c);
    Noted(p.log, AppliedSync(c), false);
    BestDoesNotMatter(p.table, best, false);
    AppliedKey(p, c);
    RecordIsFiled(p.table, best);
    if h.orderly { OneRecord(q.table, best, q.parent); }
    if p.state == Slave && ParentsRecords(p.table, p.parent) { RecordInStep(p.table, best, p.parent); }
  }

  lemma AppliedKey(p: Port, c: Candidate)
    ensures ParentKey(S1(p, c).parent, false) == SourceKey(c.header) && S1(p, c).parent.lastSync == c.header.sequenceId
  {
  }

  lemma RecordIsFiled(t: Table, i: nat)
    requires Filed(t) && i < |t.slots|
    ensures KeyOf(t.slots[i], false) == SourceKey(t.slots[i].v1.header)
  {
  }

  lemma RecordInStep(t: Table, i: nat, parent: Parent)
    requires ParentsRecords(t, parent) && i < t.number <= |t.slots|
    ensures KeyOf(t.slots[i], false) == ParentKey(parent, false) ==> t.slots[i].v1.header.sequenceId == parent.lastSync
  {
  }

  lemma OwnDecided(cfg: Config, p: Port, best: nat)
    requires Tracks(cfg, p.(recordUpdate := true)) && Deciding(p.state) && (p.table.number == 0 || best < p.table.number)
    ensures p.table.number > 0 ==> DecidedWell(cfg, p, M1(cfg, p.(table := p.table.(best := best))), Master)
    ensures p.table.number == 0 ==> DecidedWell(cfg, p, M1(cfg, p), Master) && (p.state != Slave ==> DecidedWell(cfg, p, p, p.state))
  {
    hide HistoryOf, Paired, Ring, Filed;
    BestDoesNotMatter(p.table, best, cfg.ptpv2);
  }

  lemma DecisionTracks(cfg: Config, p: Port)
    requires Tracks(cfg, p.(recordUpdate := true)) && Deciding(p.state) && Agreed(p)
    ensures var (q, s) := Decision(cfg, p); DecidedWell(cfg, p, q, s) && Deciding(s)
  {
    hide DecidedWell, Tracks, BestRecord, M1, S1, V2S1, D0, V2D0, Agreed;
    if p.table.number == 0 {
      if p.state == Slave { SlaveHasRecords(cfg, p.(recordUpdate := true)); }
      OwnDecided(cfg, p, 0);
    } else {
      var best := BestRecord(cfg, p.table);
      OwnDecided(cfg, p, best);
      if cfg.ptpv2 {
        V2Decided(cfg, p, best, Slave);
        V2Decided(cfg, p, best, Passive);
      } else {
        V1Decided(cfg, p, best, Slave);
        V1Decided(cfg, p, best, Passive);
      }
    }
  }

  lemma DecidedTracks(cfg: Config, p: Port, q: Port, s: PortState, r: Port)
    requires DecidedWell(cfg, p, q, s) && Deciding(s) && (!cfg.ptpv2 ==> V1Kind(p.kind))
    requires r.state == s && r.table == q.table && r.log == q.log && r.kind == q.kind && r.parent == q.parent
    requires if s == p.state then r.sync == q.sync else
               r.sync.t2 == q.sync.t2 && r.sync.waitingForFollow == (q.sync.waitingForFollow && s != Slave)
    ensures Tracks(cfg, r) && Ready(r.table)
  {
    hide HistoryOf, Paired, Ring, Filed, ParentsRecords;
  }

  lemma ReconsideringTracks(cfg: Config, p: Port)
    requires Tracks(cfg, p) && p.recordUpdate
    ensures var q := Reconsidering(p);
            && Tracks(cfg, q.(recordUpdate := true)) && Agreed(q) && q.state == p.state && q.kind == p.kind
  {
    hide HistoryOf, Paired, Ring, Filed, ParentsRecords;
    Noted(p.log, Decided(ParentsRecords(p.table, p.parent)), cfg.ptpv2);
  }

  lemma ReconsiderTracks(cfg: Config, p: Port, env: Inputs)
    requires Tracks(cfg, p)
    ensures var q := Reconsider(cfg, p, env); Tracks(cfg, q) && (Active(q.state) ==> Ready(q.table))
  {
    hide Decision, ToState, HistoryOf, Paired, Ring, Filed, DecidedWell, Reconsidering;
    if Deciding(p.state) && p.recordUpdate {
      var clean := Reconsidering(p);
      ReconsideringTracks(cfg, p);
      DecisionTracks(cfg, clean);
      var (q, s) := Decision(cfg, clean);
      EnteredState(cfg, q, s, env.slaveRandom);
      DecisionKeepsState(cfg, clean);
      DecidedTracks(cfg, clean, q, s, Reconsider(cfg, p, env));
    }
  }

  lemma EmptiedTracks(cfg: Config, p: Port, next: nat)
    requires Tracks(cfg, p) && next < |p.table.slots|
    ensures var log := p.log + [Restarted(next)];
            && Paired(log, cfg.ptpv2)
            && TableOk(HistoryOf(log), p.table.(number := 0, next := next), cfg.ptpv2)
  {
    hide HistoryOf, Paired;
    Noted(p.log, Restarted(next), cfg.ptpv2);
  }

  /** Outside SLAVE there is little to show. */
  lemma NotSlave(cfg: Config, p: Port)
    requires Paired(p.log, cfg.ptpv2) && TableOk(HistoryOf(p.log), p.table, cfg.ptpv2) && p.table.number == 0
    requires (!cfg.ptpv2 ==> V1Kind(p.kind)) && (Inactive(p.state) || p.state == Listening || p.state == Master)
    ensures Tracks(cfg, p)
  {
  }

  lemma ReceiptTracks(cfg: Config, p: Port, ticks: nat)
    requires Tracks(cfg, p)
    ensures Tracks(cfg, CheckReceipt(cfg, p, ticks))
  {
    hide ToState, Updated, Cleared, Flagged, HistoryOf, Paired, Ring, Filed;
    var q := p.(timers := Cleared(Updated(p.timers, ticks), SYNC_RECEIPT));
    var forgot := q.(table := q.table.(number := 0, next := 0), log := q.log + [Restarted(0)]);
    EmptiedTracks(cfg, q, 0);
    EnteredState(cfg, M1(cfg, forgot), Master, 0);
    EnteredState(cfg, forgot, Listening, 0);
    if Flagged(Updated(p.timers, ticks), SYNC_RECEIPT) { NotSlave(cfg, CheckReceipt(cfg, p, ticks)); }
  }

  lemma InitTracks(cfg: Config, p: Port, env: Inputs)
    requires Tracks(cfg, p) && p.state == Initializing
    ensures Tracks(cfg, DoInit(cfg, p, env))
  {
    hide ToState, ServoInit, HistoryOf, Paired, Ring, Filed, Tracks, ToFaulty, Quiet, InitialOwnClock, TableOk;
    if !env.networkUp {
      FaultIsQuiet(cfg, p);
      QuietTracks(cfg, p, ToFaulty(cfg, p));
    } else {
      KindIsV1(cfg, p);
      EmptiedTracks(cfg, p, p.table.next);
      var q := InitData(cfg, p);
      EnteredState(cfg, M1(cfg, q.(servo := ServoInit(cfg.servo, q.servo))), Listening, 0);
      NotSlave(cfg, DoInit(cfg, p, env));
    }
  }

  lemma KindIsV1(cfg: Config, p: Port)
    requires Tracks(cfg, p)
    ensures !cfg.ptpv2 ==> V1Kind(p.kind)
  {
  }

  // ----- every run -----

  lemma StepTracks(cfg: Config, p: Port, env: Inputs)
    requires Tracks(cfg, p) && SameVersion(cfg, env)
    ensures Tracks(cfg, Step(cfg, p, env))
  {
    hide ToState, Reconsider, Handle, CheckSync, CheckAnnounce, CheckReceipt, DoInit, Tracks, Quiet, Ready, SameVersion;
    if p.state == Initializing {
      InitTracks(cfg, p, env);
    } else {
      ReconsiderTracks(cfg, p, env);
      var q := Reconsider(cfg, p, env);
      HandleTracks(cfg, q, env);
      ReceiptTracks(cfg, Handle(cfg, q, env), env.receiptTicks);
      BecomesInactive(cfg, q, Initializing);
      QuietTracks(cfg, q, ToState(cfg, q, Initializing, 0));
      if q.state == Master { MasterTracks(cfg, q, env); }
    }
  }

  lemma MasterTracks(cfg: Config, p: Port, env: Inputs)
    requires Tracks(cfg, p) && Ready(p.table) && SameVersion(cfg, env)
    ensures Tracks(cfg, Handle(cfg, CheckAnnounce(cfg, CheckSync(cfg, p, env), env), env))
  {
    hide Handle, CheckSync, CheckAnnounce, Tracks, SameVersion;
    var q := CheckSync(cfg, p, env);
    var r := CheckAnnounce(cfg, q, env);
    TransmissionIsQuiet(cfg, p, env);
    TransmissionIsQuiet(cfg, q, env);
    QuietTracks(cfg, p, q);
    QuietTracks(cfg, q, r);
    HandleTracks(cfg, r, env);
  }

  ghost predicate OneVersion(cfg: Config, envs: seq<Inputs>) {
    forall i :: 0 <= i < |envs| ==> SameVersion(cfg, envs[i])
  }

  lemma {:induction false} RunTracks(cfg: Config, p: Port, envs: seq<Inputs>)
    requires Tracks(cfg, p) && OneVersion(cfg, envs)
    ensures Tracks(cfg, Run(cfg, p, envs))
    decreases |envs|
  {
    hide Step, Tracks, SameVersion;
    if envs != [] {
      StepTracks(cfg, p, envs[0]);
      if !Stops(p, envs[0]) { RunTracks(cfg, Step(cfg, p, envs[0]), envs[1..]); }
    }
  }

  lemma StartTracks(cfg: Config)
    requires ValidConfig(cfg)
    ensures Tracks(cfg, PowerUp(cfg))
  {
  }

  /** In every run with messages of one version, every correction of the clock made on a Follow_Up uses
      the time of reception of the last Sync accepted, no Sync twice; and as long as no other master has
      been followed since, that Sync has the sender of the Follow_Up. It has its sequence number under
      version 2; under version 1 exactly if the Sync last applied has, and so if the table was last
      emptied with its write position at the start. */
  lemma FollowUpsArePaired(cfg: Config, envs: seq<Inputs>)
    requires ValidConfig(cfg) && OneVersion(cfg, envs)
    ensures Paired(Run(cfg, PowerUp(cfg), envs).log, cfg.ptpv2)
  {
    hide Paired, HistoryOf;
    StartTracks(cfg);
    RunTracks(cfg, PowerUp(cfg), envs);
  }

  /** In such a run the table of foreign masters is a ring with one record for each master whenever it
      was last emptied with its write position at the start, and a SLAVE has a best record in use. */
  lemma TableInEveryRun(cfg: Config, envs: seq<Inputs>)
    requires ValidConfig(cfg) && OneVersion(cfg, envs)
    ensures var p := Run(cfg, PowerUp(cfg), envs);
            && (HistoryOf(p.log).orderly ==> Ring(p.table, cfg.ptpv2))
            && (p.state == Slave ==> p.table.best < p.table.number)
  {
    hide Paired, HistoryOf;
    StartTracks(cfg);
    RunTracks(cfg, PowerUp(cfg), envs);
  }

  // ----- what the clock is corrected by -----

  /** The correction of the clock that a Follow_Up noted as e stands for: its own time as the sending time,
      the time noted as the time of reception, and both corrections. */
  function CorrectedBy(cfg: Config, p: Port, m: Packet, e: Event, env: Inputs): Filtered
    requires e.FollowUpUsed?
  {
    var v2 := if m.version == 1 then p.sync.followupCorrection else m.v2.correction;
    ServoClock(cfg.servo, ServoOffset(p.servo, m.stamp, e.received, p.sync.syncCorrection, v2),
               Servo.SyncReadings(m.stamp, e.received, env.estimate, env.timeA, env.timeB, env.timeD))
  }

  /** The time noted is the time used: a Follow_Up that leaves a SLAVE a SLAVE either is noted, with the
      sender and number it carries, and corrects the clock as noted, or changes neither log nor servo. */
  lemma NotedIsUsed(cfg: Config, p: Port, m: Packet, env: Inputs)
    requires p.state == Slave && HandleFollowUp(cfg, p, m, env).state == Slave
    ensures var q, e := HandleFollowUp(cfg, p, m, env), FollowUpUsed(Sender(m), FollowUpNumber(m), p.sync.t2);
            || (q.log == p.log && q.servo == p.servo)
            || (q.log == p.log + [e] && q.servo == CorrectedBy(cfg, p, m, e, env))
  {
    hide ServoOffset, ServoClock, ServoInit, Sender, FromSelf, FollowUpNumber, ReceiptTimeout;
  }
}
