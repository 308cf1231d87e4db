/** What a network of version 2 ports decides: who becomes master, and when no one does or two do. */
module V2Election {
  import opened Octets
  import opened V2Bmc
  import opened ForeignMasters
  import opened PortTypes
  import opened DataSets
  import opened PortModel
  import opened Synchronization
  import PortParents
  import PortTimers

  // ----- the order that is meant -----

  /** Lexicographic order of grandmasters: priority1, class, accuracy, variance, priority2, and last the lower
      identity. */
  predicate V2Beats(a: Announce, b: Announce) {
    if a.priority1 != b.priority1 then a.priority1 < b.priority1
    else if a.quality.clockClass != b.quality.clockClass then a.quality.clockClass < b.quality.clockClass
    else if a.quality.clockAccuracy != b.quality.clockAccuracy then a.quality.clockAccuracy < b.quality.clockAccuracy
    else if a.quality.variance != b.quality.variance then a.quality.variance < b.quality.variance
    else if a.priority2 != b.priority2 then a.priority2 < b.priority2
    else Memcmp(a.identity, b.identity) < 0
  }

  /** Equal down to an accuracy that is above the class: either loses. */
  predicate Blind(a: Announce, b: Announce) {
    && a.identity != b.identity && a.priority1 == b.priority1 && a.quality.clockClass == b.quality.clockClass
    && a.quality.clockAccuracy == b.quality.clockAccuracy > a.quality.clockClass
  }

  /** Different grandmasters that the comparison tells apart, whichever way round. */
  predicate Clear(a: Announce, b: Announce) {
    a.identity != b.identity && !Blind(a, b) && !Overlooked(a, b) && !Overlooked(b, a)
  }

  /** First of two in order, and clear of the other. */
  predicate Over(a: Announce, b: Announce) {
    Clear(a, b) && V2Beats(a, b)
  }

  /** Of two different grandmasters none is better exactly if they are blind for each other, and exactly one
      is if they are clear; that one is the first in order. */
  lemma OrderExactly(a: V2Candidate, b: V2Candidate, me: PortIdentity)
    requires a.announce.identity != b.announce.identity
    ensures Blind(a.announce, b.announce) <==> V2Compare(a, b, me) <= 0 && V2Compare(b, a, me) <= 0
    ensures Clear(a.announce, b.announce) <==> (V2Compare(a, b, me) > 0 <==> V2Compare(b, a, me) <= 0)
    ensures V2Compare(a, b, me) > 0 && V2Compare(b, a, me) <= 0 <==>
            Over(a.announce, b.announce)
  {
    MemcmpMirrors(a.announce.identity, b.announce.identity);
  }

  /** Different grandmasters of which no order is missing. */
  ghost predicate Distinct(table: seq<V2Candidate>) {
    forall i, j :: 0 <= i < j < |table| ==> table[i].announce.identity != table[j].announce.identity
  }

  ghost predicate OverAll(table: seq<V2Candidate>, i: nat)
    requires i < |table|
  {
    forall j :: 0 <= j < |table| && j != i ==> Over(table[i].announce, table[j].announce)
  }

  /** A record over all others is kept, wherever it stands. */
  lemma {:induction false} LowestIsKept(table: seq<V2Candidate>, me: PortIdentity, i: nat, n: nat)
    requires Distinct(table) && i < n <= |table| && OverAll(table, i)
    ensures V2Scan(table, me, n) == i
  {
    hide Over, V2Compare;
    if n > 1 {
      if i < n - 1 {
        LowestIsKept(table, me, i, n - 1);
        OverIsBetter(table[i], table[n - 1], me);
      } else {
        OverIsBetter(table[i], table[V2Scan(table, me, n - 1)], me);
      }
    }
  }

  lemma OverIsBetter(a: V2Candidate, b: V2Candidate, me: PortIdentity)
    requires Over(a.announce, b.announce)
    ensures V2Compare(a, b, me) > 0 && V2Compare(b, a, me) <= 0
  {
    OrderExactly(a, b, me);
  }

  /** No later than t in priority1 and class, and then in accuracy, unless that is within the class. */
  predicate NoWorse(s: Announce, t: Announce) {
    || s.priority1 < t.priority1
    || (s.priority1 == t.priority1 && s.quality.clockClass < t.quality.clockClass)
    || (s.priority1 == t.priority1 && s.quality.clockClass == t.quality.clockClass
        && (s.quality.clockAccuracy <= t.quality.clockAccuracy || s.quality.clockAccuracy <= s.quality.clockClass))
  }

  /** The record kept is no worse, in that sense, than any looked at. */
  lemma {:induction false} KeptIsNoWorse(table: seq<V2Candidate>, me: PortIdentity, n: nat, k: nat)
    requires Distinct(table) && k < n <= |table|
    ensures NoWorse(table[V2Scan(table, me, n)].announce, table[k].announce)
  {
    hide Memcmp;
    if n > 1 {
      var best := V2Scan(table, me, n - 1);
      if k < n - 1 { KeptIsNoWorse(table, me, n - 1, k); }
      assert table[n - 1].announce.identity != table[best].announce.identity;
    }
  }

  // ----- the decision of one port -----

  /** A port that may be master and runs version 2. */
  predicate Able(cfg: Config, p: Port) {
    cfg.ptpv2 && !cfg.slaveOnly
  }

  /** What a port compares with the records: its identity, with the attributes of the grandmaster it follows. */
  function Compared(cfg: Config, p: Port): Announce {
    Announce(cfg.clockIdentity, p.gm.priority1, p.gm.quality, p.gm.priority2, 0)
  }

  lemma IsCompared(cfg: Config, p: Port)
    ensures V2D0(cfg, p).announce == Compared(cfg, p) && V2D0(cfg, p).source == Me(cfg)
  {
  }

  /** The state of a port that is not the best: a clock of class below 128 is not slaved to another. */
  function Beaten(p: Port): PortState {
    if p.gm.quality.clockClass >= 128 then Slave else Passive
  }

  /** It follows the sender of record c, and its grandmaster. */
  predicate Adopts(q: Port, c: V2Candidate) {
    && PortIdentity(q.parent.clockIdentity, q.parent.portId) == c.source && q.stepsRemoved == Next16(c.announce.stepsRemoved)
    && q.gm.clockIdentity == c.announce.identity && q.gm.priority1 == c.announce.priority1
    && q.gm.quality == c.announce.quality && q.gm.priority2 == c.announce.priority2
  }

  lemma DecidesByKept(cfg: Config, p: Port)
    requires Able(cfg, p) && p.table.number > 0
    ensures var records := V2Candidates(p.table);
            var c := records[V2Scan(records, Me(cfg), |records|)];
            var (q, s) := Decision(cfg, p);
            if V2Compare(V2D0(cfg, p), c, Me(cfg)) > 0 then s == Master && q.parent.clockIdentity == cfg.clockIdentity
            else s == Beaten(p) && Adopts(q, c)
  {
    hide V2Compare, V2Scan;
  }

  /** With a record over all others that is clear of the own clock: MASTER exactly if the own clock beats it;
      otherwise its sender is followed, as SLAVE exactly from class 128 on. */
  lemma DecidesByLowest(cfg: Config, p: Port, k: nat)
    requires Able(cfg, p) && k < p.table.number
    requires var records := V2Candidates(p.table);
             Distinct(records) && OverAll(records, k) && Clear(Compared(cfg, p), records[k].announce)
    ensures var c := V2Candidates(p.table)[k];
            var (q, s) := Decision(cfg, p);
            && s == (if V2Beats(Compared(cfg, p), c.announce) then Master
                     else if p.gm.quality.clockClass >= 128 then Slave else Passive)
            && (s != Master ==> Adopts(q, c))
  {
    hide V2Compare, V2Scan, Clear, V2Beats, Decision, V2D0, Adopts;
    var records := V2Candidates(p.table);
    DecidesByKept(cfg, p);
    LowestIsKept(records, Me(cfg), k, |records|);
    IsCompared(cfg, p);
    ClearIdentities(Compared(cfg, p), records[k].announce);
    OrderExactly(V2D0(cfg, p), records[k], Me(cfg));
  }

  lemma ClearIdentities(a: Announce, b: Announce)
    requires Clear(a, b)
    ensures a.identity != b.identity
  {
  }

  /** A slave-only port follows the record kept, whatever its own clock. */
  lemma SlaveOnlyFollows(cfg: Config, p: Port)
    requires cfg.ptpv2 && cfg.slaveOnly && p.table.number > 0
    ensures var records := V2Candidates(p.table);
            var (q, s) := Decision(cfg, p);
            s == Slave && Adopts(q, records[V2Scan(records, Me(cfg), |records|)])
  {
    hide V2Compare, V2Scan;
  }

  // ----- the decisions of all ports -----

  /** The clock of a port, as it is configured. */
  function ClockOf(cfg: Config): V2Candidate {
    V2Candidate(Me(cfg), 0, Announce(cfg.clockIdentity, cfg.priority1, cfg.quality, 128, 0))
  }

  /** The clocks of all ports. */
  function V2Clocks(nodes: seq<(Config, Port)>): seq<V2Candidate> {
    seq(|nodes|, i requires 0 <= i < |nodes| => ClockOf(nodes[i].0))
  }

  /** A port that is its own grandmaster, as MASTER is, and LISTENING after a start. */
  predicate OnItsOwn(cfg: Config, p: Port) {
    Able(cfg, p) && p.gm.priority1 == cfg.priority1 && p.gm.quality == cfg.quality && p.gm.priority2 == 128
  }

  /** Every MASTER that a run reaches is. */
  lemma MasterIsOnItsOwn(cfg: Config, envs: seq<Inputs>)
    requires ValidConfig(cfg) && cfg.ptpv2 && Run(cfg, PowerUp(cfg), envs).state == Master
    ensures OnItsOwn(cfg, Run(cfg, PowerUp(cfg), envs))
  {
    hide Run, PowerUp;
    PortParents.DataSetsInEveryRun(cfg, envs);
    PortTimers.TimersInEveryRun(cfg, envs);
  }

  lemma OwnIsAnnounced(cfg: Config, p: Port)
    requires OnItsOwn(cfg, p)
    ensures Able(cfg, p) && Announces(V2D0(cfg, p), ClockOf(cfg))
  {
  }

  /** The same grandmaster, announced by itself. */
  predicate Announces(record: V2Candidate, clock: V2Candidate) {
    && record.source == clock.source && record.announce.identity == clock.announce.identity
    && record.announce.priority1 == clock.announce.priority1 && record.announce.quality == clock.announce.quality
    && record.announce.priority2 == clock.announce.priority2
  }

  /** Port i has one record of every other port, sent by that port itself, and of no one else: record k is
      of port from[k]. */
  ghost predicate Hears(clocks: seq<V2Candidate>, i: nat, records: seq<V2Candidate>, from: seq<nat>) {
    && |from| == |records|
    && (forall k :: 0 <= k < |records| ==> from[k] < |clocks| && from[k] != i && Announces(records[k], clocks[from[k]]))
    && (forall j :: 0 <= j < |clocks| && j != i ==> j in from)
    && (forall k, l :: 0 <= k < l < |from| ==> from[k] != from[l])
  }

  /** Version 2 ports of different identities that hear one another. */
  ghost predicate Network(nodes: seq<(Config, Port)>, froms: seq<seq<nat>>) {
    && |froms| == |nodes| >= 2 && Distinct(V2Clocks(nodes))
    && (forall i :: 0 <= i < |nodes| ==> OnItsOwn(nodes[i].0, nodes[i].1))
    && (forall i :: 0 <= i < |nodes| ==> Hears(V2Clocks(nodes), i, V2Candidates(nodes[i].1.table), froms[i]))
  }

  /** Port i decides for port w: to be MASTER if it is w itself, else to follow it. */
  predicate Elected(nodes: seq<(Config, Port)>, w: nat, i: nat)
    requires w < |nodes| && i < |nodes|
  {
    var (q, s) := Decision(nodes[i].0, nodes[i].1);
    if i == w then s == Master
    else s == Beaten(nodes[i].1) && PortIdentity(q.parent.clockIdentity, q.parent.portId) == Me(nodes[w].0)
  }

  ghost predicate AllElect(nodes: seq<(Config, Port)>, w: nat)
    requires w < |nodes|
  {
    forall i :: 0 <= i < |nodes| ==> Elected(nodes, w, i)
  }

  lemma RecordsDistinct(clocks: seq<V2Candidate>, i: nat, records: seq<V2Candidate>, from: seq<nat>)
    requires Distinct(clocks) && Hears(clocks, i, records, from)
    ensures Distinct(records)
  {
    forall k, l | 0 <= k < l < |records| ensures records[k].announce.identity != records[l].announce.identity {
      assert Announces(records[k], clocks[from[k]]) && Announces(records[l], clocks[from[l]]);
    }
  }

  /** Only what is announced matters to the order. */
  lemma SameOrder(a: V2Candidate, a': V2Candidate, b: V2Candidate, b': V2Candidate, me: PortIdentity)
    requires Announces(a, a') && Announces(b, b') && a.announce.identity != b.announce.identity
    ensures Over(a.announce, b.announce) == Over(a'.announce, b'.announce)
    ensures V2Compare(a, b, me) > 0 <==> V2Compare(a', b', me) > 0
  {
    hide Memcmp;
  }

  lemma KeptIsOver(clocks: seq<V2Candidate>, i: nat, records: seq<V2Candidate>, from: seq<nat>, w: nat, me: PortIdentity)
    requires Distinct(clocks) && w < |clocks| && i != w && Hears(clocks, i, records, from) && OverAll(clocks, w)
    ensures records != [] && from[V2Scan(records, me, |records|)] == w
  {
    hide Over, V2Compare, V2Scan;
    assert w in from;
    var k :| 0 <= k < |from| && from[k] == w;
    RecordsDistinct(clocks, i, records, from);
    forall l | 0 <= l < |records| && l != k ensures Over(records[k].announce, records[l].announce) {
      SameOrder(records[k], clocks[w], records[l], clocks[from[l]], me);
    }
    LowestIsKept(records, me, k, |records|);
  }

  lemma SomeRecord(clocks: seq<V2Candidate>, i: nat, records: seq<V2Candidate>, from: seq<nat>)
    requires Hears(clocks, i, records, from) && |clocks| >= 2
    ensures records != []
  {
    assert (if i == 0 then 1 else 0) in from;
  }

  /** Port i and the record it keeps: it is MASTER exactly if its clock is better than that of the port
      recorded, and else follows that one. */
  lemma DecidesFor(nodes: seq<(Config, Port)>, from: seq<nat>, i: nat)
    requires |nodes| >= 2 && i < |nodes| && Distinct(V2Clocks(nodes))
    requires OnItsOwn(nodes[i].0, nodes[i].1) && Hears(V2Clocks(nodes), i, V2Candidates(nodes[i].1.table), from)
    ensures var (cfg, p) := nodes[i];
            var clocks, records := V2Clocks(nodes), V2Candidates(p.table);
            && records != [] && |from| == |records|
            && var f := from[V2Scan(records, Me(cfg), |records|)];
               var (q, s) := Decision(cfg, p);
               && f < |nodes| && f != i
               && (if V2Compare(clocks[i], clocks[f], Me(cfg)) > 0 then s == Master
                   else s == Beaten(p) && PortIdentity(q.parent.clockIdentity, q.parent.portId) == Me(nodes[f].0))
  {
    hide V2Compare, V2Scan, Decision, Distinct, OnItsOwn, V2D0;
    var (cfg, p) := nodes[i];
    var clocks, records := V2Clocks(nodes), V2Candidates(p.table);
    OwnIsAnnounced(cfg, p);
    SomeRecord(clocks, i, records, from);
    DecidesByKept(cfg, p);
    var best := V2Scan(records, Me(cfg), |records|);
    assert Announces(records[best], clocks[from[best]]);
    DistinctPair(clocks, i, from[best]);
    SameOrder(V2D0(cfg, p), clocks[i], records[best], clocks[from[best]], Me(cfg));
  }

  lemma DistinctPair(clocks: seq<V2Candidate>, i: nat, j: nat)
    requires Distinct(clocks) && i < |clocks| && j < |clocks| && i != j
    ensures clocks[i].announce.identity != clocks[j].announce.identity
  {
    assert i < j || j < i;
  }

  lemma DifferentPorts(nodes: seq<(Config, Port)>, w: nat, f: nat)
    requires Distinct(V2Clocks(nodes)) && w < |nodes| && f < |nodes| && Me(nodes[w].0) == Me(nodes[f].0)
    ensures w == f
  {
    assert V2Clocks(nodes)[w].announce.identity == nodes[w].0.clockIdentity;
    assert V2Clocks(nodes)[f].announce.identity == nodes[f].0.clockIdentity;
    if w != f { DistinctPair(V2Clocks(nodes), w, f); }
  }

  lemma MasterIsNotBeaten(p: Port)
    ensures Beaten(p) != Master
  {
  }

  /** The ports elect w as their only master and follow it, whatever the order of their records, exactly if the
      clock of w is first in order and clear of every other. */
  lemma OneMasterIsElected(nodes: seq<(Config, Port)>, froms: seq<seq<nat>>, w: nat)
    requires Network(nodes, froms) && w < |nodes|
    ensures AllElect(nodes, w) <==> OverAll(V2Clocks(nodes), w)
  {
    hide Hears, Distinct, OnItsOwn, Elected, Over, ClockOf;
    if OverAll(V2Clocks(nodes), w) {
      forall i | 0 <= i < |nodes| ensures Elected(nodes, w, i) { Decides(nodes, froms[i], w, i); }
    }
    if AllElect(nodes, w) {
      forall i | 0 <= i < |nodes| && i != w ensures Over(V2Clocks(nodes)[w].announce, V2Clocks(nodes)[i].announce) {
        assert Elected(nodes, w, i) && Elected(nodes, w, w);
        FollowsItsBetter(nodes, froms[i], w, i);
        MasterIsOver(nodes, froms[w], w, i);
      }
    }
  }

  lemma Decides(nodes: seq<(Config, Port)>, from: seq<nat>, w: nat, i: nat)
    requires |nodes| >= 2 && w < |nodes| && i < |nodes| && Distinct(V2Clocks(nodes))
    requires OnItsOwn(nodes[i].0, nodes[i].1) && Hears(V2Clocks(nodes), i, V2Candidates(nodes[i].1.table), from)
    requires OverAll(V2Clocks(nodes), w)
    ensures Elected(nodes, w, i)
  {
    hide Distinct, Hears, Decision, V2Compare, V2Scan, ClockOf, Over, OnItsOwn;
    var (cfg, p) := nodes[i];
    var clocks := V2Clocks(nodes);
    DecidesFor(nodes, from, i);
    if i == w {
      OverIsBetter(clocks[w], clocks[from[V2Scan(V2Candidates(p.table), Me(cfg), |V2Candidates(p.table)|)]], Me(cfg));
    } else {
      KeptIsOver(clocks, i, V2Candidates(p.table), from, w, Me(cfg));
      OverIsBetter(clocks[w], clocks[i], Me(cfg));
    }
  }

  /** A port follows only a port that its own clock is not better than. */
  lemma FollowsItsBetter(nodes: seq<(Config, Port)>, from: seq<nat>, w: nat, i: nat)
    requires |nodes| >= 2 && w < |nodes| && i < |nodes| && i != w && Distinct(V2Clocks(nodes))
    requires OnItsOwn(nodes[i].0, nodes[i].1) && Hears(V2Clocks(nodes), i, V2Candidates(nodes[i].1.table), from)
    requires Elected(nodes, w, i)
    ensures V2Compare(V2Clocks(nodes)[i], V2Clocks(nodes)[w], Me(nodes[i].0)) <= 0
  {
    hide Distinct, Hears, Decision, V2Compare, V2Scan, ClockOf, OnItsOwn;
    var (cfg, p) := nodes[i];
    DecidesFor(nodes, from, i);
    MasterIsNotBeaten(p);
    var f := from[V2Scan(V2Candidates(p.table), Me(cfg), |V2Candidates(p.table)|)];
    if Me(nodes[f].0) == Me(nodes[w].0) { DifferentPorts(nodes, w, f); }
  }

  /** A MASTER is over every port that is not better than it. */
  lemma MasterIsOver(nodes: seq<(Config, Port)>, from: seq<nat>, w: nat, i: nat)
    requires |nodes| >= 2 && w < |nodes| && i < |nodes| && i != w && Distinct(V2Clocks(nodes))
    requires OnItsOwn(nodes[w].0, nodes[w].1) && Hears(V2Clocks(nodes), w, V2Candidates(nodes[w].1.table), from)
    requires Elected(nodes, w, w)
    requires V2Compare(V2Clocks(nodes)[i], V2Clocks(nodes)[w], Me(nodes[i].0)) <= 0
    ensures Over(V2Clocks(nodes)[w].announce, V2Clocks(nodes)[i].announce)
  {
    hide Decision, V2Compare, V2Scan, ClockOf, Distinct, Over, Blind, NoWorse, OnItsOwn;
    var (cfg, p) := nodes[w];
    var clocks, records := V2Clocks(nodes), V2Candidates(p.table);
    DecidesFor(nodes, from, w);
    MasterIsNotBeaten(p);
    RecordsDistinct(clocks, w, records, from);
    assert i in from;
    var k :| 0 <= k < |from| && from[k] == i;
    var best := V2Scan(records, Me(cfg), |records|);
    KeptIsNoWorse(records, Me(cfg), |records|, k);
    assert Announces(records[k], clocks[i]) && Announces(records[best], clocks[from[best]]);
    DistinctPair(clocks, w, i);
    DistinctPair(clocks, w, from[best]);
    BetterThanKept(clocks[w], clocks[i], clocks[from[best]], records[k], records[best], Me(cfg));
    OrderExactly(clocks[w], clocks[i], Me(cfg));
    SameJudge(clocks[i], clocks[w], Me(cfg), Me(nodes[i].0));
  }

  lemma SameJudge(a: V2Candidate, b: V2Candidate, me: PortIdentity, you: PortIdentity)
    requires a.announce.identity != b.announce.identity
    ensures V2Compare(a, b, me) == V2Compare(a, b, you)
  {
  }

  /** Better than the record kept, and so not blind for one that it is no worse than. */
  lemma BetterThanKept(a: V2Candidate, t: V2Candidate, s: V2Candidate, t': V2Candidate, s': V2Candidate, me: PortIdentity)
    requires Announces(t', t) && Announces(s', s) && NoWorse(s'.announce, t'.announce)
    requires a.announce.identity != s.announce.identity && V2Compare(a, s, me) > 0
    ensures !Blind(a.announce, t.announce)
  {
    hide Memcmp;
  }

  // ----- when there is a master, and when not -----

  lemma BeatsTransitive(a: Announce, b: Announce, c: Announce)
    requires V2Beats(a, b) && V2Beats(b, c)
    ensures V2Beats(a, c)
  {
    if Memcmp(a.identity, b.identity) < 0 && Memcmp(b.identity, c.identity) < 0 {
      MemcmpTransitive(a.identity, b.identity, c.identity);
    }
  }

  lemma EitherBeats(a: Announce, b: Announce)
    requires a.identity != b.identity
    ensures V2Beats(a, b) <==> !V2Beats(b, a)
  {
    MemcmpMirrors(a.identity, b.identity);
  }

  ghost predicate AllClear(table: seq<V2Candidate>) {
    forall i, j :: 0 <= i < j < |table| ==> Clear(table[i].announce, table[j].announce)
  }

  lemma ClearEitherWay(a: Announce, b: Announce)
    requires Clear(a, b)
    ensures Clear(b, a) && a.identity != b.identity
  {
  }

  /** Among clocks all clear of one another the scan keeps the first in order. */
  lemma {:induction false} FirstIsKept(table: seq<V2Candidate>, me: PortIdentity, n: nat, k: nat)
    requires AllClear(table) && k < n <= |table| && k != V2Scan(table, me, n)
    ensures Over(table[V2Scan(table, me, n)].announce, table[k].announce)
  {
    hide V2Beats, Clear, V2Compare, AllClear;
    if n > 1 {
      var best := V2Scan(table, me, n - 1);
      ClearPair(table, best, n - 1);
      OrderExactly(table[best], table[n - 1], me);
      OrderExactly(table[n - 1], table[best], me);
      EitherBeats(table[best].announce, table[n - 1].announce);
      ClearPair(table, k, V2Scan(table, me, n));
      if k < n - 1 && k != best {
        FirstIsKept(table, me, n - 1, k);
        if V2Beats(table[n - 1].announce, table[best].announce) {
          BeatsTransitive(table[n - 1].announce, table[best].announce, table[k].announce);
        }
      }
    }
  }

  lemma ClearPair(table: seq<V2Candidate>, i: nat, j: nat)
    requires AllClear(table) && i < |table| && j < |table| && i != j
    ensures Clear(table[i].announce, table[j].announce) && Clear(table[j].announce, table[i].announce)
    ensures table[i].announce.identity != table[j].announce.identity
  {
    hide Clear;
    if i < j { ClearEitherWay(table[i].announce, table[j].announce); }
    else { ClearEitherWay(table[j].announce, table[i].announce); }
  }

  /** Ports whose clocks are all clear of one another, as with different priority1, elect a master. */
  lemma ClearPortsElect(nodes: seq<(Config, Port)>, froms: seq<seq<nat>>)
    requires Network(nodes, froms) && AllClear(V2Clocks(nodes))
    ensures exists w :: 0 <= w < |nodes| && AllElect(nodes, w)
  {
    hide Network, AllClear, Over, AllElect;
    var clocks, judge := V2Clocks(nodes), PortIdentity(NoClock, 0);
    SomePorts(nodes, froms);
    var w := V2Scan(clocks, judge, |clocks|);
    forall k | 0 <= k < |clocks| && k != w ensures Over(clocks[w].announce, clocks[k].announce) {
      FirstIsKept(clocks, judge, |clocks|, k);
    }
    OneMasterIsElected(nodes, froms, w);
  }

  lemma SomePorts(nodes: seq<(Config, Port)>, froms: seq<seq<nat>>)
    requires Network(nodes, froms)
    ensures |nodes| >= 2
  {
  }

  lemma DifferentPriorities(a: Announce, b: Announce)
    requires a.identity != b.identity && a.priority1 != b.priority1
    ensures Clear(a, b)
  {
  }

  /** Two ports: one becomes MASTER and the other follows exactly if they are clear; if they are blind both
      follow each other and there is no master; otherwise there are two. */
  lemma TwoPorts(nodes: seq<(Config, Port)>, froms: seq<seq<nat>>)
    requires Network(nodes, froms) && |nodes| == 2
    ensures var a, b := V2Clocks(nodes)[0].announce, V2Clocks(nodes)[1].announce;
            var s, t := Decision(nodes[0].0, nodes[0].1).1, Decision(nodes[1].0, nodes[1].1).1;
            && (Clear(a, b) <==> (s == Master <==> t == Beaten(nodes[1].1)))
            && (Blind(a, b) <==> s == Beaten(nodes[0].1) && t == Beaten(nodes[1].1))
            && (Overlooked(a, b) || Overlooked(b, a) <==> s == Master && t == Master)
  {
    hide Hears, Distinct, OnItsOwn, V2Compare, V2Scan, Decision, V2D0, Blind, Overlooked;
    var a, b := V2Clocks(nodes)[0], V2Clocks(nodes)[1];
    DecidesFor(nodes, froms[0], 0);
    DecidesFor(nodes, froms[1], 1);
    MasterIsNotBeaten(nodes[0].1);
    MasterIsNotBeaten(nodes[1].1);
    DistinctPair(V2Clocks(nodes), 0, 1);
    OrderExactly(a, b, Me(nodes[0].0));
    BothBetter(a, b, Me(nodes[0].0));
    SameJudge(b, a, Me(nodes[0].0), Me(nodes[1].0));
    assert Decision(nodes[0].0, nodes[0].1).1 == (if V2Compare(a, b, Me(nodes[0].0)) > 0 then Master else Beaten(nodes[0].1));
    assert Decision(nodes[1].0, nodes[1].1).1 == (if V2Compare(b, a, Me(nodes[1].0)) > 0 then Master else Beaten(nodes[1].1));
  }

  /** Class and accuracy of a clock of stratum 4 and identifier DFLT, the defaults of the program. */
  const DEFAULT_CLASS: Octet := 251
  const DEFAULT_ACCURACY: Octet := 0xFE

  predicate IsDefault(cfg: Config, priority1: Octet) {
    cfg.priority1 == priority1 && cfg.quality.clockClass == DEFAULT_CLASS && cfg.quality.clockAccuracy == DEFAULT_ACCURACY
  }

  lemma AttributesOwn(nodes: seq<(Config, Port)>, froms: seq<seq<nat>>, i: nat)
    requires Network(nodes, froms) && i < |nodes|
    ensures nodes[i].1.gm.quality == nodes[i].0.quality
  {
    hide Hears, Distinct;
    assert OnItsOwn(nodes[i].0, nodes[i].1);
  }

  /** With the default options, none of the ports becomes MASTER, however many there are and whatever else
      their clocks say: each becomes SLAVE of another. */
  lemma DefaultsElectNoOne(nodes: seq<(Config, Port)>, froms: seq<seq<nat>>, priority1: Octet, i: nat)
    requires Network(nodes, froms) && i < |nodes|
    requires forall j :: 0 <= j < |nodes| ==> IsDefault(nodes[j].0, priority1)
    ensures Decision(nodes[i].0, nodes[i].1).1 == Slave
  {
    hide Hears, Distinct, OnItsOwn, V2Compare, V2Scan, Decision;
    var clocks, me := V2Clocks(nodes), Me(nodes[i].0);
    DecidesFor(nodes, froms[i], i);
    var records := V2Candidates(nodes[i].1.table);
    var f := froms[i][V2Scan(records, me, |records|)];
    DistinctPair(clocks, i, f);
    assert IsDefault(nodes[i].0, priority1) && IsDefault(nodes[f].0, priority1);
    AttributesOwn(nodes, froms, i);
    OrderExactly(clocks[i], clocks[f], me);
  }

  // ----- a SLAVE that decides again -----

  /** The grandmaster the port follows is the one of record c. */
  predicate FollowsRecord(p: Port, c: V2Candidate) {
    p.gm.priority1 == c.announce.priority1 && p.gm.quality == c.announce.quality && p.gm.priority2 == c.announce.priority2
  }

  /** A port compares the attributes of the grandmaster it follows, not its own, with what it hears. So a SLAVE
      that decides again on the record of its own grandmaster becomes MASTER, however much worse its clock
      is, exactly if its identity is the lower one and the accuracy is within the class. */
  lemma LeavesItsMaster(cfg: Config, p: Port, env: Inputs)
    requires Able(cfg, p) && p.state == Slave && p.recordUpdate && p.table.number > 0
    requires var c := V2Candidates(p.table)[V2Scan(V2Candidates(p.table), Me(cfg), p.table.number)];
             FollowsRecord(p, c) && c.announce.identity != cfg.clockIdentity
    ensures var c := V2Candidates(p.table)[V2Scan(V2Candidates(p.table), Me(cfg), p.table.number)];
            Reconsider(cfg, p, env).state == Master <==>
            Memcmp(cfg.clockIdentity, c.announce.identity) < 0 && p.gm.quality.clockAccuracy <= p.gm.quality.clockClass
  {
    hide V2Scan, ToState, Decision, Memcmp;
    var q := Reconsidering(p);
    var c := V2Candidates(p.table)[V2Scan(V2Candidates(p.table), Me(cfg), p.table.number)];
    DecidesByKept(cfg, q);
    assert V2Candidates(q.table) == V2Candidates(p.table);
    MemcmpMirrors(cfg.clockIdentity, c.announce.identity);
    var (d, s) := Decision(cfg, q);
    DecisionStaysPut(cfg, q);
    if s == Master { EntersMaster(cfg, d, env.slaveRandom); }
    if s == Passive { EntersPassive(cfg, d, env.slaveRandom); }
  }

  lemma DecisionStaysPut(cfg: Config, p: Port)
    ensures Decision(cfg, p).0.state == p.state
  {
    hide BestRecord, D0, V2D0, ServoForget;
  }

  lemma EntersMaster(cfg: Config, p: Port, random: UInteger16)
    ensures ToState(cfg, p, Master, random).state == Master
  {
    hide ServoInit, ReceiptTimeout, SyncTimeout;
  }

  lemma EntersPassive(cfg: Config, p: Port, random: UInteger16)
    ensures ToState(cfg, p, Passive, random).state == Passive
  {
    hide ServoInit, ReceiptTimeout, SyncTimeout;
  }

  /** An Announce of the parent, not seen before. */
  predicate NextAnnounce(p: Port, m: Packet, cfg: Config) {
    && m.version == 2 && m.kind == ANNOUNCE && m.length >= 64 && !FromSelf(cfg, m)
    && V2Key(m.v2.source) == ParentKey(p.parent, true) && m.v2.sequenceId != p.parent.lastAnnounce
  }

  lemma OneRecordKept(t: ForeignMasterTable, m: Packet)
    requires t.number == 1 && t.best == 0 && KeyOf(t.slots[0], true) == V2Key(m.v2.source)
    ensures var u := Added(t, FromAnnounce(m.v2.source, m.announce, m.translated)).0;
            && u.number == 1 && u.best == 0 && u.slots[0].v2 == m.announce && KeyOf(u.slots[0], true) == V2Key(m.v2.source)
  {
  }

  lemma AnnounceHandled(cfg: Config, p: Port, m: Packet, env: Inputs)
    requires p.state == Slave && env.reception == Received(m) && NextAnnounce(p, m, cfg)
    requires p.table.number == 1 && p.table.best == 0 && KeyOf(p.table.slots[0], true) == V2Key(m.v2.source)
    ensures var q := Handle(cfg, p, env);
            && q.recordUpdate && q.state == Slave && q.table.number == 1 && V2Candidates(q.table)[0] == m.announce
            && FollowsRecord(q, m.announce)
  {
    hide Added, FromSelf, ReceiveTime, ParentKey, KeyOf;
    OneRecordKept(p.table, m);
    OneRecordKept(Added(p.table, FromAnnounce(m.v2.source, m.announce, m.translated)).0, m);
    assert V2Key(m.v2.source) == ParentKey(p.(kind := ANNOUNCE).parent, true);
  }

  /** So each Announce of its only master may unseat it: in the round after one, a SLAVE is MASTER exactly in
      that case. */
  lemma NextAnnounceUnseats(cfg: Config, p: Port, m: Packet, env: Inputs, next: Inputs)
    requires Able(cfg, p) && p.state == Slave && !p.recordUpdate && env.reception == Received(m) && NextAnnounce(p, m, cfg)
    requires p.table.number == 1 && p.table.best == 0 && KeyOf(p.table.slots[0], true) == V2Key(m.v2.source)
    requires Step(cfg, p, env).state == Slave && m.announce.announce.identity != cfg.clockIdentity
    ensures var a := m.announce.announce;
            Reconsider(cfg, Step(cfg, p, env), next).state == Master <==>
            Memcmp(cfg.clockIdentity, a.identity) < 0 && a.quality.clockAccuracy <= a.quality.clockClass
  {
    hide Handle, CheckReceipt, Reconsider, Memcmp, NextAnnounce, KeyOf;
    NothingToDecide(cfg, p, env);
    AnnounceHandled(cfg, p, m, env);
    var h, q := Handle(cfg, p, env), Step(cfg, p, env);
    NotTimedOut(cfg, h, env.receiptTicks);
    assert V2Candidates(q.table) == V2Candidates(h.table);
    LeavesItsMaster(cfg, q, next);
  }

  lemma NothingToDecide(cfg: Config, p: Port, env: Inputs)
    requires !p.recordUpdate
    ensures Reconsider(cfg, p, env) == p
  {
    hide Decision, ToState;
  }
}
