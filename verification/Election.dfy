/** What a network of version 1 ports decides: who becomes master. */
module Election {
  import opened Octets
  import opened Bmc
  import opened PortTypes
  import opened DataSets

  /** The same clock, as far as ranking goes. */
  predicate SameClock(s: Bmc.Sync, t: Bmc.Sync) {
    && s.preferred == t.preferred && s.stratum == t.stratum && s.identifier == t.identifier
    && s.variance == t.variance && s.isBoundaryClock == t.isBoundaryClock && s.uuid == t.uuid
  }

  lemma RankIsTheClocks(s: Bmc.Sync, s': Bmc.Sync, t: Bmc.Sync, t': Bmc.Sync)
    requires SameClock(s, s') && SameClock(t, t')
    ensures Beats(s, t) == Beats(s', t')
  {
  }

  /** A port that may be master and runs version 1; clocks of stratum 1 and 2 become PASSIVE, not SLAVE. */
  predicate Eligible(cfg: Config, p: Port) {
    !cfg.ptpv2 && !cfg.slaveOnly && 2 < p.own.stratum < 255
  }

  /** The clock of a port, as far as ranking goes. */
  function ClockOf(cfg: Config, own: OwnClock): Candidate {
    Candidate(Header(0, cfg.uuid, 0, 0, false, false),
              Bmc.Sync(0, cfg.uuid, 0, 0, own.stratum, own.identifier, own.variance, own.preferred, false, 0))
  }

  /** The clocks of all ports. */
  function Clocks(nodes: seq<(Config, Port)>): seq<Candidate> {
    seq(|nodes|, i requires 0 <= i < |nodes| => ClockOf(nodes[i].0, nodes[i].1.own))
  }

  lemma OwnIsClock(cfg: Config, p: Port)
    ensures SameClock(D0(cfg, p).sync, ClockOf(cfg, p.own).sync)
  {
  }

  /** Port i has one record of every other port, sent by that port itself, and of no one else: record k is
      of port from[k]. */
  ghost predicate Hears(clocks: seq<Candidate>, i: nat, records: seq<Candidate>, from: seq<nat>) {
    && |from| == |records|
    && (forall k :: 0 <= k < |records| ==> from[k] < |clocks| && from[k] != i && RecordOf(records[k], clocks[from[k]]))
    && (forall j :: 0 <= j < |clocks| && j != i ==> j in from)
    && (forall k, l :: 0 <= k < l < |from| ==> from[k] != from[l])
  }

  predicate RecordOf(record: Candidate, clock: Candidate) {
    SameClock(record.sync, clock.sync) && record.header.uuid == record.sync.uuid
  }

  lemma RecordsSeparate(clocks: seq<Candidate>, i: nat, records: seq<Candidate>, from: seq<nat>)
    requires Separate(clocks) && Hears(clocks, i, records, from)
    ensures Separate(records)
  {
    forall k | 0 <= k < |records|
      ensures records[k].sync.stratum > 2 && records[k].sync.uuid == clocks[from[k]].sync.uuid
    {
      assert RecordOf(records[k], clocks[from[k]]);
    }
  }

  /** The best record of a port is that of the clock that beats all others, if that is not the port's own. */
  lemma HearsTheWinner(clocks: seq<Candidate>, i: nat, records: seq<Candidate>, from: seq<nat>, w: nat, me: Receiver)
    requires Separate(clocks) && w < |clocks| && i != w && Hears(clocks, i, records, from) && BeatsAll(clocks, w)
    ensures records != [] && from[Scan(records, me, |records|)] == w
  {
    hide SameClock, Beats, Separate, RecordOf;
    assert w in from;
    var k :| 0 <= k < |from| && from[k] == w;
    forall l | 0 <= l < |records| && l != k ensures Beats(records[k].sync, records[l].sync) {
      BeatsAlike(records[k], clocks[w], records[l], clocks[from[l]]);
    }
    RecordsSeparate(clocks, i, records, from);
    WinnerIsFound(records, me, k, |records|);
  }

  lemma BeatsAlike(a: Candidate, b: Candidate, c: Candidate, d: Candidate)
    requires RecordOf(a, b) && RecordOf(c, d)
    ensures Beats(a.sync, c.sync) == Beats(b.sync, d.sync)
  {
    RankIsTheClocks(a.sync, b.sync, c.sync, d.sync);
  }

  lemma EitherBeats(clocks: seq<Candidate>, w: nat, j: nat)
    requires Separate(clocks) && w < |clocks| && j < |clocks| && w != j
    ensures Beats(clocks[w].sync, clocks[j].sync) <==> !Beats(clocks[j].sync, clocks[w].sync)
  {
    CompareRanks(clocks[w], clocks[j], Receiver(NoUuid, 0));
  }

  /** It follows the sender of record c, and its grandmaster. */
  predicate Adopts(q: Port, c: Candidate) {
    && q.parent.technology == c.header.technology && q.parent.uuid == c.header.uuid && q.parent.portId == c.header.portId
    && q.stepsRemoved == Next16(c.sync.stepsRemoved)
    && q.gm.technology == c.sync.technology && q.gm.uuid == c.sync.uuid && q.gm.portId == c.sync.portId
  }

  /** Decision of any version 1 port: SLAVE if it may not be master; otherwise MASTER exactly if its clock is
      better than the best record, and else PASSIVE up to stratum 2 and SLAVE from stratum 3. */
  lemma DecidesByStratum(cfg: Config, p: Port)
    requires !cfg.ptpv2 && p.table.number > 0
    ensures var c := p.table.slots[BestRecord(cfg, p.table)].v1;
            var (q, s) := Decision(cfg, p);
            && s == (if cfg.slaveOnly || p.own.stratum == 255 then Slave
                     else if Compare(D0(cfg, p), c, V1Me(cfg)) > 0 then Master
                     else if p.own.stratum <= 2 then Passive else Slave)
            && (s != Master ==> Adopts(q, c)) && (s == Master ==> q.parent.uuid == cfg.uuid && q.stepsRemoved == 0)
  {
    hide Compare, BestRecord;
  }

  lemma DecidesByBest(cfg: Config, p: Port)
    requires Eligible(cfg, p) && p.table.number > 0
    ensures var best := BestRecord(cfg, p.table);
            var c := p.table.slots[best].v1;
            var (q, s) := Decision(cfg, p);
            && s == (if Compare(D0(cfg, p), c, V1Me(cfg)) > 0 then Master else Slave)
            && (s == Slave ==> q.parent.uuid == c.header.uuid)
  {
    hide Compare, BestRecord, Decision;
    DecidesByStratum(cfg, p);
  }

  /** A port whose best record names its own clock as grandmaster goes by the way there: its own has as many steps as
      it keeps. */
  lemma HearsItsOwnClock(cfg: Config, p: Port)
    requires !cfg.ptpv2 && !cfg.slaveOnly && p.own.stratum < 255 && p.table.number > 0
    requires var c := p.table.slots[BestRecord(cfg, p.table)].v1; c.sync.uuid == cfg.uuid && c.sync.portId == cfg.portId
    ensures var c := p.table.slots[BestRecord(cfg, p.table)].v1;
            var m, n := p.stepsRemoved, c.sync.stepsRemoved;
            && (m + 1 < n ==> Decision(cfg, p).1 == Master) && (m > n ==> Decision(cfg, p).1 != Master)
            && (m + 1 == n ==> (Decision(cfg, p).1 == Master <==> V1Me(cfg) != Receiver(c.header.uuid, c.header.portId)))
  {
    hide BestRecord, Decision, Compare, Adopts;
    DecidesByStratum(cfg, p);
    ShorterWay(D0(cfg, p), p.table.slots[BestRecord(cfg, p.table)].v1, V1Me(cfg));
  }

  /** One is ahead in preference, stratum, or identifier, in this order. */
  predicate Ahead(s: Bmc.Sync, t: Bmc.Sync) {
    if s.preferred != t.preferred then s.preferred
    else if s.stratum != t.stratum then s.stratum < t.stratum
    else IdentifierOrder(s.identifier) < IdentifierOrder(t.identifier)
  }

  /** An accurate clock, of stratum 2 or lower, against a best record that one of them is ahead of: MASTER
      exactly if it is the own clock, and PASSIVE otherwise. */
  lemma AccurateDecides(cfg: Config, p: Port)
    requires !cfg.ptpv2 && !cfg.slaveOnly && p.own.stratum <= 2 && p.table.number > 0
    requires var c, d := p.table.slots[BestRecord(cfg, p.table)].v1.sync, ClockOf(cfg, p.own).sync;
             c.uuid != cfg.uuid && (Ahead(c, d) || Ahead(d, c))
    ensures var c := p.table.slots[BestRecord(cfg, p.table)].v1;
            var (q, s) := Decision(cfg, p);
            s == (if Ahead(ClockOf(cfg, p.own).sync, c.sync) then Master else Passive) && (s == Passive ==> Adopts(q, c))
  {
    hide BestRecord, Decision, CompareSteps, Adopts, Memcmp;
    DecidesByStratum(cfg, p);
  }

  /** Port i decides for port w: to be MASTER if it is w itself, else to be its SLAVE. */
  predicate Elected(nodes: seq<(Config, Port)>, w: nat, i: nat)
    requires w < |nodes| && i < |nodes|
  {
    var (q, s) := Decision(nodes[i].0, nodes[i].1);
    if i == w then s == Master else s == Slave && q.parent.uuid == nodes[w].0.uuid
  }

  ghost predicate AllElect(nodes: seq<(Config, Port)>, w: nat)
    requires w < |nodes|
  {
    forall i :: 0 <= i < |nodes| ==> Elected(nodes, w, i)
  }

  /** Ports of stratum 3 to 254 with different UUIDs that hear one another. */
  ghost predicate Network(nodes: seq<(Config, Port)>, froms: seq<seq<nat>>) {
    && |froms| == |nodes| >= 2 && Separate(Clocks(nodes))
    && (forall i :: 0 <= i < |nodes| ==> Eligible(nodes[i].0, nodes[i].1))
    && (forall i :: 0 <= i < |nodes| ==> Hears(Clocks(nodes), i, V1Candidates(nodes[i].1.table), froms[i]))
  }

  /** Whatever the order of their records, the ports elect w as their only master and become its slaves
      exactly if the clock of w beats all others. */
  lemma OneMasterIsElected(nodes: seq<(Config, Port)>, froms: seq<seq<nat>>, w: nat)
    requires Network(nodes, froms) && w < |nodes|
    ensures AllElect(nodes, w) <==> BeatsAll(Clocks(nodes), w)
  {
    hide Hears, Separate, Eligible, Elected, Beats, ClockOf;
    if BeatsAll(Clocks(nodes), w) {
      forall i | 0 <= i < |nodes| ensures Elected(nodes, w, i) { Decides(nodes, froms[i], w, i); }
    }
    if AllElect(nodes, w) {
      forall i | 0 <= i < |nodes| && i != w ensures Beats(Clocks(nodes)[w].sync, Clocks(nodes)[i].sync) {
        assert Elected(nodes, w, i);
        FollowsItsBetter(nodes, froms[i], w, i);
      }
    }
  }

  /** With transitively similar variances there is such a clock. */
  lemma RankableElect(nodes: seq<(Config, Port)>, froms: seq<seq<nat>>)
    requires Network(nodes, froms) && SimilarIsTransitive(Clocks(nodes))
    ensures exists w :: 0 <= w < |nodes| && AllElect(nodes, w)
  {
    hide Network, SimilarIsTransitive, Separate, BeatsAll, AllElect;
    var clocks, judge := Clocks(nodes), Receiver(NoUuid, 0);
    NetworkSeparate(nodes, froms);
    RankableHaveWinner(clocks, judge);
    OneMasterIsElected(nodes, froms, Scan(clocks, judge, |clocks|));
  }

  lemma NetworkSeparate(nodes: seq<(Config, Port)>, froms: seq<seq<nat>>)
    requires Network(nodes, froms)
    ensures Separate(Clocks(nodes)) && |nodes| >= 2
  {
  }

  lemma Decides(nodes: seq<(Config, Port)>, from: seq<nat>, w: nat, i: nat)
    requires |nodes| >= 2 && w < |nodes| && i < |nodes| && Separate(Clocks(nodes))
    requires Eligible(nodes[i].0, nodes[i].1) && Hears(Clocks(nodes), i, V1Candidates(nodes[i].1.table), from)
    requires BeatsAll(Clocks(nodes), w)
    ensures Elected(nodes, w, i)
  {
    hide Separate, Decision, Compare, Beats, SameClock, D0, RecordOf, ClockOf;
    var (cfg, p) := nodes[i];
    var clocks, records := Clocks(nodes), V1Candidates(p.table);
    SomeRecord(clocks, i, records, from);
    DecidesByBest(cfg, p);
    var best := Scan(records, V1Me(cfg), |records|);
    OwnIsClock(cfg, p);
    Versus(D0(cfg, p), clocks, i, from[best], records[best], V1Me(cfg));
    if i != w {
      HearsTheWinner(clocks, i, records, from, w, V1Me(cfg));
      EitherBeats(clocks, w, i);
      ItsUuid(records[best], nodes[w].0, nodes[w].1);
    }
  }

  /** A port becomes the slave only of a port whose clock beats its own. */
  lemma FollowsItsBetter(nodes: seq<(Config, Port)>, from: seq<nat>, w: nat, i: nat)
    requires |nodes| >= 2 && w < |nodes| && i < |nodes| && i != w && Separate(Clocks(nodes))
    requires Eligible(nodes[i].0, nodes[i].1) && Hears(Clocks(nodes), i, V1Candidates(nodes[i].1.table), from)
    requires Elected(nodes, w, i)
    ensures Beats(Clocks(nodes)[w].sync, Clocks(nodes)[i].sync)
  {
    hide Separate, Decision, Compare, Beats, SameClock, D0, RecordOf, ClockOf;
    var (cfg, p) := nodes[i];
    var clocks, records := Clocks(nodes), V1Candidates(p.table);
    SomeRecord(clocks, i, records, from);
    DecidesByBest(cfg, p);
    var best := Scan(records, V1Me(cfg), |records|);
    var f := from[best];
    OwnIsClock(cfg, p);
    Versus(D0(cfg, p), clocks, i, f, records[best], V1Me(cfg));
    EitherBeats(clocks, i, f);
    ItsUuid(records[best], nodes[f].0, nodes[f].1);
    DifferentUuids(nodes, w, f);
  }

  lemma DifferentUuids(nodes: seq<(Config, Port)>, w: nat, f: nat)
    requires Separate(Clocks(nodes)) && w < |nodes| && f < |nodes| && nodes[w].0.uuid == nodes[f].0.uuid
    ensures w == f
  {
    assert Clocks(nodes)[w].sync.uuid == nodes[w].0.uuid && Clocks(nodes)[f].sync.uuid == nodes[f].0.uuid;
  }

  lemma SomeRecord(clocks: seq<Candidate>, i: nat, records: seq<Candidate>, from: seq<nat>)
    requires Hears(clocks, i, records, from) && |clocks| >= 2
    ensures records != []
  {
    assert (if i == 0 then 1 else 0) in from;
  }

  lemma ItsUuid(record: Candidate, winner: Config, p: Port)
    requires RecordOf(record, ClockOf(winner, p.own))
    ensures record.header.uuid == winner.uuid
  {
  }

  /** Comparing the own clock with a record is comparing it with the clock recorded. */
  lemma Versus(own: Candidate, clocks: seq<Candidate>, i: nat, j: nat, record: Candidate, me: Receiver)
    requires Separate(clocks) && i < |clocks| && j < |clocks| && i != j && RecordOf(record, clocks[j])
    requires SameClock(own.sync, clocks[i].sync)
    ensures Compare(own, record, me) > 0 <==> Beats(clocks[i].sync, clocks[j].sync)
  {
    hide Compare, Beats;
    RankIsTheClocks(own.sync, clocks[i].sync, record.sync, clocks[j].sync);
    CompareRanks(own, record, me);
  }
}
