/** The version 1 best master clock algorithm of src/bmc.c. */
module Bmc {
  import opened Octets

  const LOG_VARIANCE_THRESHOLD := 256

  type Uuid = u: Bytes | |u| == 6 witness [0, 0, 0, 0, 0, 0]
  type Code = c: Bytes | |c| == 4 witness [0, 0, 0, 0]

  const ATOM: Code := [0x41, 0x54, 0x4F, 0x4D]
  const GPS: Code := [0x47, 0x50, 0x53, 0x00]
  const NTP: Code := [0x4E, 0x54, 0x50, 0x00]
  const HAND: Code := [0x48, 0x41, 0x4E, 0x44]
  const INIT: Code := [0x49, 0x4E, 0x49, 0x54]
  const DFLT: Code := [0x44, 0x46, 0x4C, 0x54]

  /** Sender of a version 1 message. */
  datatype Header = Header(technology: Octet, uuid: Uuid, portId: UInteger16, sequenceId: UInteger16,
                           assist: bool, burst: bool)

  /** What a version 1 Sync says about the grandmaster and the way to it. */
  datatype Sync = Sync(technology: Octet, uuid: Uuid, portId: UInteger16, sequenceId: UInteger16, stratum: Octet,
                       identifier: Code, variance: int, preferred: bool, isBoundaryClock: bool,
                       stepsRemoved: UInteger16)

  datatype Receiver = Receiver(uuid: Uuid, portId: UInteger16)

  datatype Candidate = Candidate(header: Header, sync: Sync)

  function IdentifierOrder(identifier: Code): (r: int)
    ensures 1 <= r <= 6
  {
    if identifier == ATOM then 1
    else if identifier == GPS then 1
    else if identifier == NTP then 2
    else if identifier == HAND then 3
    else if identifier == INIT then 4
    else if identifier == DFLT then 5
    else 6
  }

  /** A code as it is spelled, filled up with zeros. */
  function Spelled(s: string): Code
    requires |s| <= 4 && forall i :: 0 <= i < |s| ==> s[i] < 256 as char
  {
    seq(4, i requires 0 <= i < 4 => if i < |s| then s[i] as int else 0)
  }

  /** The order of the time sources, by their names; any other comes last. */
  lemma IdentifiersInOrder(other: Code)
    requires other !in {Spelled("ATOM"), Spelled("GPS"), Spelled("NTP"), Spelled("HAND"), Spelled("INIT"), Spelled("DFLT")}
    ensures IdentifierOrder(Spelled("ATOM")) == IdentifierOrder(Spelled("GPS")) < IdentifierOrder(Spelled("NTP"))
            < IdentifierOrder(Spelled("HAND")) < IdentifierOrder(Spelled("INIT")) < IdentifierOrder(Spelled("DFLT"))
            < IdentifierOrder(other)
  {
    assert Spelled("ATOM") == ATOM && Spelled("GPS") == GPS && Spelled("NTP") == NTP;
    assert Spelled("HAND") == HAND && Spelled("INIT") == INIT && Spelled("DFLT") == DFLT;
    assert ATOM[0] != NTP[0] && ATOM[0] != HAND[0] && GPS[0] != NTP[0] && HAND[0] != INIT[0];
  }

  // ----- the comparison: positive when a is better than b -----

  predicate SameGrandmaster(a: Sync, b: Sync) {
    a.portId == b.portId && Memcmp(a.uuid, b.uuid) == 0
  }

  predicate Similar(a: Sync, b: Sync) {
    !(a.variance > b.variance + LOG_VARIANCE_THRESHOLD || a.variance < b.variance - LOG_VARIANCE_THRESHOLD)
  }

  /** Label A: a is better unless only b is preferred. */
  function PreferA(a: Sync, b: Sync): int {
    if !a.preferred && b.preferred then -1 else 1
  }

  /** Label B: b is better unless only a is preferred. */
  function PreferB(a: Sync, b: Sync): int {
    if a.preferred && !b.preferred then 1 else -1
  }

  function Compare(a: Candidate, b: Candidate, me: Receiver): int {
    var s, t := a.sync, b.sync;
    if SameGrandmaster(s, t) then CompareSteps(a, b, me)
    else if s.stratum < t.stratum then PreferA(s, t)
    else if s.stratum > t.stratum then PreferB(s, t)
    else if IdentifierOrder(s.identifier) < IdentifierOrder(t.identifier) then PreferA(s, t)
    else if IdentifierOrder(s.identifier) > IdentifierOrder(t.identifier) then PreferB(s, t)
    else if s.stratum > 2 then
      if !Similar(s, t) then (if s.variance < t.variance then PreferA(s, t) else PreferB(s, t))
      else if s.isBoundaryClock != t.isBoundaryClock then (if s.isBoundaryClock then PreferA(s, t) else PreferB(s, t))
      else if Memcmp(s.uuid, t.uuid) < 0 then PreferA(s, t)
      else PreferB(s, t)
    else if s.preferred != t.preferred then (if s.preferred then 1 else -1)
    else CompareSteps(a, b, me)
  }

  /** Part X of the flow chart: distance, then the port the messages came through. */
  function CompareSteps(a: Candidate, b: Candidate, me: Receiver): int {
    var m, n := a.sync.stepsRemoved, b.sync.stepsRemoved;
    if m > n + 1 || m < n - 1 then (if m < n then 1 else -1)
    else if m < n then
      if Memcmp(me.uuid, b.header.uuid) < 0 then 1
      else if Memcmp(me.uuid, b.header.uuid) > 0 then 2
      else if me.portId < b.header.portId then 1
      else if me.portId > b.header.portId then 2
      else 0
    else if m > n then
      if Memcmp(me.uuid, a.header.uuid) < 0 then -1
      else if Memcmp(me.uuid, b.header.uuid) > 0 then -2
      else if me.portId < a.header.portId then -1
      else if me.portId > a.header.portId then -2
      else 0
    else if Memcmp(a.header.uuid, b.header.uuid) < 0 then 2
    else if Memcmp(a.header.uuid, b.header.uuid) > 0 then -2
    else if a.sync.sequenceId > b.sync.sequenceId then 3
    else if a.sync.sequenceId < b.sync.sequenceId then -3
    else if a.header.sequenceId > b.header.sequenceId then 3
    else if a.header.sequenceId < b.header.sequenceId then -3
    else 0
  }

  /** Two ways to one grandmaster: the first is better exactly if it is shorter, by one step only if the second does
      not come from the receiver itself; or if they are equally long and its sender has the lower UUID, or the same
      and the later Sync. */
  lemma ShorterWay(a: Candidate, b: Candidate, me: Receiver)
    requires SameGrandmaster(a.sync, b.sync)
    ensures var m, n := a.sync.stepsRemoved, b.sync.stepsRemoved;
            var s, t := a.header, b.header;
            Compare(a, b, me) > 0 <==>
            || m + 1 < n
            || (m + 1 == n && me != Receiver(t.uuid, t.portId))
            || (m == n && (Memcmp(s.uuid, t.uuid) < 0
                           || (s.uuid == t.uuid && a.sync.sequenceId > b.sync.sequenceId)
                           || (s.uuid == t.uuid && a.sync.sequenceId == b.sync.sequenceId && s.sequenceId > t.sequenceId)))
  {
    MemcmpMirrors(a.header.uuid, b.header.uuid);
  }

  // ----- symmetry -----

  predicate Opposite(x: int, y: int) {
    (x > 0 <==> y < 0) && (x < 0 <==> y > 0)
  }

  /** Two ports of one grandmaster that tie in everything else: each comparison favours its second
      argument. */
  predicate TiedPorts(s: Sync, t: Sync) {
    && s.uuid == t.uuid && s.portId != t.portId
    && s.stratum == t.stratum > 2 && IdentifierOrder(s.identifier) == IdentifierOrder(t.identifier)
    && Similar(s, t) && s.isBoundaryClock == t.isBoundaryClock && s.preferred == t.preferred
  }

  /** The comparison goes by steps removed. */
  predicate BySteps(s: Sync, t: Sync) {
    SameGrandmaster(s, t)
    || (s.stratum == t.stratum <= 2 && IdentifierOrder(s.identifier) == IdentifierOrder(t.identifier)
        && s.preferred == t.preferred)
  }

  /** The near candidate is one step nearer than the far one, and the receiver is placed so that the
      comparison with the wrong sender shows. */
  predicate Misplaced(near: Candidate, far: Candidate, me: Receiver) {
    && far.sync.stepsRemoved == near.sync.stepsRemoved + 1
    && me.portId == far.header.portId
    && (if me.uuid == far.header.uuid then Memcmp(me.uuid, near.header.uuid) > 0
        else Memcmp(me.uuid, far.header.uuid) > 0 && Memcmp(me.uuid, near.header.uuid) <= 0)
  }

  /** Never both better, on any input at all. */
  lemma NeverBothBetter(a: Candidate, b: Candidate, me: Receiver)
    ensures !(Compare(a, b, me) > 0 && Compare(b, a, me) > 0)
  {
    MemcmpMirrors(a.sync.uuid, b.sync.uuid);
    MemcmpMirrors(a.header.uuid, b.header.uuid);
  }

  lemma StepsOpposite(a: Candidate, b: Candidate, me: Receiver)
    ensures Opposite(CompareSteps(a, b, me), CompareSteps(b, a, me)) <==> !Misplaced(a, b, me) && !Misplaced(b, a, me)
  {
    MemcmpMirrors(a.header.uuid, b.header.uuid);
  }

  /** Swapping the arguments turns the result round, exactly when there is no tie between ports of one
      grandmaster and the sender mix-up of the steps comparison does not show. */
  lemma OppositeWhenSwapped(a: Candidate, b: Candidate, me: Receiver)
    ensures Opposite(Compare(a, b, me), Compare(b, a, me)) <==>
            !TiedPorts(a.sync, b.sync)
            && !(BySteps(a.sync, b.sync) && (Misplaced(a, b, me) || Misplaced(b, a, me)))
  {
    MemcmpMirrors(a.sync.uuid, b.sync.uuid);
    StepsOpposite(a, b, me);
  }

  /** Both cases happen: two ports of one grandmaster that each lose, and a candidate one step nearer that
      is neither better nor worse one way round, because the other's sender is the receiver. */
  lemma SwappingFails() returns (a: Candidate, b: Candidate, c: Candidate, d: Candidate, me: Receiver)
    ensures Compare(a, b, me) < 0 && Compare(b, a, me) < 0
    ensures Compare(c, d, me) == 0 && Compare(d, c, me) != 0
  {
    var low, high: Uuid := [0, 0, 0, 0, 0, 0], [1, 0, 0, 0, 0, 0];
    me := Receiver(high, 1);
    var h := Header(1, low, 1, 0, true, false);
    a := Candidate(h, Sync(1, low, 1, 0, 4, DFLT, 0, false, false, 0));
    b := Candidate(h, Sync(1, low, 2, 0, 4, DFLT, 0, false, false, 0));
    c := Candidate(h, Sync(1, low, 1, 0, 4, DFLT, 0, false, false, 0));
    d := Candidate(h.(uuid := high), Sync(1, low, 1, 0, 4, DFLT, 0, false, false, 1));
    assert c.sync.stepsRemoved + 1 == d.sync.stepsRemoved;
    assert low[0] < high[0];
  }

  // ----- the scan -----

  /** Index of the record kept after looking at the first n records. */
  function Scan(table: seq<Candidate>, me: Receiver, n: nat): (best: nat)
    requires 1 <= n <= |table|
    ensures best < n
  {
    if n == 1 then 0
    else
      var best := Scan(table, me, n - 1);
      if Compare(table[n - 1], table[best], me) > 0 then n - 1 else best
  }

  /** Lexicographic order of grandmasters: preferred, stratum, identifier, clearly lower variance,
      boundary clock, and last the lower UUID. */
  predicate Beats(s: Sync, t: Sync) {
    if s.preferred != t.preferred then s.preferred
    else if s.stratum != t.stratum then s.stratum < t.stratum
    else if IdentifierOrder(s.identifier) != IdentifierOrder(t.identifier) then
      IdentifierOrder(s.identifier) < IdentifierOrder(t.identifier)
    else if !Similar(s, t) then s.variance < t.variance
    else if s.isBoundaryClock != t.isBoundaryClock then s.isBoundaryClock
    else Memcmp(s.uuid, t.uuid) < 0
  }

  /** Different grandmasters of stratum 3 or more. */
  ghost predicate Separate(table: seq<Candidate>) {
    && (forall i :: 0 <= i < |table| ==> table[i].sync.stratum > 2)
    && (forall i, j :: 0 <= i < j < |table| ==> table[i].sync.uuid != table[j].sync.uuid)
  }

  ghost predicate BeatsAll(table: seq<Candidate>, i: nat)
    requires i < |table|
  {
    forall j :: 0 <= j < |table| && j != i ==> Beats(table[i].sync, table[j].sync)
  }

  /** Similar variance is transitive among the records, as it is when all variances are similar, or none. */
  ghost predicate SimilarIsTransitive(table: seq<Candidate>) {
    forall i, j, k :: 0 <= i < |table| && 0 <= j < |table| && 0 <= k < |table|
      && Similar(table[i].sync, table[j].sync) && Similar(table[j].sync, table[k].sync)
      ==> Similar(table[i].sync, table[k].sync)
  }

  ghost predicate Rankable(table: seq<Candidate>) {
    Separate(table) && SimilarIsTransitive(table)
  }

  lemma CompareRanks(a: Candidate, b: Candidate, me: Receiver)
    requires a.sync.stratum > 2 && b.sync.stratum > 2 && a.sync.uuid != b.sync.uuid
    ensures Compare(a, b, me) > 0 <==> Beats(a.sync, b.sync)
    ensures Beats(a.sync, b.sync) <==> !Beats(b.sync, a.sync)
  {
    MemcmpMirrors(a.sync.uuid, b.sync.uuid);
  }

  lemma BeatsTransitive(a: Sync, b: Sync, c: Sync)
    requires Beats(a, b) && Beats(b, c)
    requires Similar(a, b) && Similar(b, c) ==> Similar(a, c)
    requires Similar(b, c) && Similar(c, a) ==> Similar(b, a)
    requires Similar(c, a) && Similar(a, b) ==> Similar(c, b)
    ensures Beats(a, c)
  {
    if Memcmp(a.uuid, b.uuid) < 0 && Memcmp(b.uuid, c.uuid) < 0 {
      MemcmpTransitive(a.uuid, b.uuid, c.uuid);
    }
  }

  /** A record that beats all others is found, wherever it stands. */
  lemma {:induction false} WinnerIsFound(table: seq<Candidate>, me: Receiver, i: nat, n: nat)
    requires Separate(table) && i < n <= |table| && BeatsAll(table, i)
    ensures Scan(table, me, n) == i
  {
    hide Beats, Compare;
    if n > 1 {
      if i < n - 1 {
        WinnerIsFound(table, me, i, n - 1);
        CompareRanks(table[n - 1], table[i], me);
      } else {
        CompareRanks(table[i], table[Scan(table, me, n - 1)], me);
      }
    }
  }

  /** A record that is followed by one that is better than it is not kept. */
  lemma {:induction false} LoserIsLeft(table: seq<Candidate>, me: Receiver, n: nat)
    requires 2 <= n <= |table| && Compare(table[1], table[0], me) > 0
    ensures Scan(table, me, n) != 0
  {
    hide Compare;
    if n == 2 {
      assert Scan(table, me, 1) == 0;
    } else {
      LoserIsLeft(table, me, n - 1);
    }
  }

  ghost predicate SameRecords(t: seq<Candidate>, u: seq<Candidate>) {
    multiset(t) == multiset(u)
  }

  function Picked(t: seq<Candidate>, me: Receiver): Candidate
    requires t != []
  {
    t[Scan(t, me, |t|)]
  }

  /** Every order of the records, and every receiver, makes the scan pick record i. */
  ghost predicate AlwaysPicked(t: seq<Candidate>, i: nat)
    requires i < |t|
  {
    forall u, me :: u != [] && SameRecords(t, u) ==> Picked(u, me) == t[i]
  }

  lemma {:induction false} TwoCopies(t: seq<Candidate>, i: nat, j: nat)
    requires i < j < |t| && t[i] == t[j]
    ensures multiset(t)[t[i]] >= 2
  {
    assert t == t[..j] + [t[j]] + t[j + 1..];
    assert t[i] in t[..j];
  }

  /** Reordering keeps the records apart. */
  lemma SeparateReordered(t: seq<Candidate>, u: seq<Candidate>)
    requires Separate(t) && SameRecords(t, u)
    ensures Separate(u) && forall x :: x in u <==> x in t
  {
    assert forall x :: x in u <==> x in multiset(u);
    assert forall x :: x in t <==> x in multiset(t);
    forall i | 0 <= i < |u| ensures u[i].sync.stratum > 2 { assert u[i] in t; }
    forall i, j | 0 <= i < j < |u| ensures u[i].sync.uuid != u[j].sync.uuid {
      assert u[i] in t && u[j] in t;
      if u[i] == u[j] {
        TwoCopies(u, i, j);
        OneCopy(t, u[i]);
      }
    }
  }

  lemma {:induction false} OneCopy(t: seq<Candidate>, x: Candidate)
    requires Separate(t)
    ensures multiset(t)[x] <= 1
    decreases |t|
  {
    if t != [] {
      var rest := t[..|t| - 1];
      assert t == rest + [t[|t| - 1]];
      OneCopy(rest, x);
      if x in rest && x == t[|t| - 1] { assert false; }
    }
  }

  lemma WinnerReordered(t: seq<Candidate>, i: nat, u: seq<Candidate>, me: Receiver)
    requires Separate(t) && i < |t| && BeatsAll(t, i) && SameRecords(t, u) && u != []
    ensures Picked(u, me) == t[i]
  {
    hide Beats;
    SeparateReordered(t, u);
    assert t[i] in t;
    var k :| 0 <= k < |u| && u[k] == t[i];
    forall j | 0 <= j < |u| && j != k ensures Beats(u[k].sync, u[j].sync) {
      assert u[j] in t;
      var l :| 0 <= l < |t| && t[l] == u[j];
    }
    WinnerIsFound(u, me, k, |u|);
  }

  /** The records with i first and j second. */
  function InFront(t: seq<Candidate>, i: nat, j: nat): seq<Candidate>
    requires i < |t| && j < |t| && i != j
  {
    [t[i], t[j]] + if i < j then t[..i] + t[i + 1..j] + t[j + 1..] else t[..j] + t[j + 1..i] + t[i + 1..]
  }

  /** Taking one record to the front. */
  lemma ToFront(t: seq<Candidate>, k: nat)
    requires k < |t|
    ensures multiset([t[k]] + (t[..k] + t[k + 1..])) == multiset(t)
  {
    assert t == t[..k] + ([t[k]] + t[k + 1..]);
  }

  lemma InFrontReorders(t: seq<Candidate>, i: nat, j: nat)
    requires i < |t| && j < |t| && i != j
    ensures SameRecords(t, InFront(t, i, j))
  {
    var rest := t[..i] + t[i + 1..];
    ToFront(t, i);
    var k := if j < i then j else j - 1;
    ToFront(rest, k);
    assert rest[k] == t[j];
    var last := rest[..k] + rest[k + 1..];
    assert InFront(t, i, j) == [t[i]] + ([t[j]] + last) by { RestOfTwo(t, i, j); }
    assert multiset([t[i]] + ([t[j]] + last)) == multiset([t[i]]) + multiset([t[j]] + last);
    assert multiset([t[i]] + rest) == multiset([t[i]]) + multiset(rest);
  }

  lemma RestOfTwo(t: seq<Candidate>, i: nat, j: nat)
    requires i < |t| && j < |t| && i != j
    ensures var rest := t[..i] + t[i + 1..];
            var k := if j < i then j else j - 1;
            InFront(t, i, j)[2..] == rest[..k] + rest[k + 1..]
  {
  }

  /** A record is picked in every order exactly if it beats all others. */
  lemma EveryOrderPicks(t: seq<Candidate>, i: nat)
    requires Separate(t) && i < |t|
    ensures AlwaysPicked(t, i) <==> BeatsAll(t, i)
  {
    hide Beats, Compare, SameRecords;
    if BeatsAll(t, i) {
      forall u, me | u != [] && SameRecords(t, u) ensures Picked(u, me) == t[i] { WinnerReordered(t, i, u, me); }
    } else {
      var j :| 0 <= j < |t| && j != i && !Beats(t[i].sync, t[j].sync);
      var me := Receiver([0, 0, 0, 0, 0, 0], 0);
      CompareRanks(t[j], t[i], me);
      NotPicked(t, i, j, me);
    }
  }

  lemma NotPicked(t: seq<Candidate>, i: nat, j: nat, me: Receiver)
    requires Separate(t) && i < |t| && j < |t| && i != j && Compare(t[j], t[i], me) > 0
    ensures var u := InFront(t, i, j); SameRecords(t, u) && Picked(u, me) != t[i]
  {
    hide Compare;
    var u := InFront(t, i, j);
    InFrontReorders(t, i, j);
    SeparateReordered(t, u);
    LoserIsLeft(u, me, |u|);
  }

  /** The choice does not depend on the order of the records, nor on who compares them, exactly if one
      record beats all others. */
  lemma OrderDoesNotMatter(t: seq<Candidate>)
    requires Separate(t) && t != []
    ensures (forall u, v, me, you :: u != [] && v != [] && SameRecords(t, u) && SameRecords(t, v) ==>
               Picked(u, me) == Picked(v, you)) <==>
            exists i :: 0 <= i < |t| && BeatsAll(t, i)
  {
    hide Separate, BeatsAll, SameRecords, Picked;
    if i :| 0 <= i < |t| && BeatsAll(t, i) {
      EveryOrderPicks(t, i);
    } else {
      var me := Receiver([0, 0, 0, 0, 0, 0], 0);
      var i := Scan(t, me, |t|);
      EveryOrderPicks(t, i);
      OwnOrder(t, me);
      assert !AlwaysPicked(t, i);
    }
  }

  lemma OwnOrder(t: seq<Candidate>, me: Receiver)
    requires t != []
    ensures SameRecords(t, t) && Picked(t, me) == t[Scan(t, me, |t|)]
  {
  }

  /** If some record beats all others, the scan picks it, and it is the only one. */
  lemma ScanFindsTheBest(table: seq<Candidate>, me: Receiver, i: nat)
    requires Separate(table) && i < |table|
    requires exists k :: 0 <= k < |table| && BeatsAll(table, k)
    ensures BeatsAll(table, i) <==> i == Scan(table, me, |table|)
  {
    hide BeatsAll, Separate;
    var k :| 0 <= k < |table| && BeatsAll(table, k);
    WinnerIsFound(table, me, k, |table|);
    if BeatsAll(table, i) { WinnerIsFound(table, me, i, |table|); }
  }

  /** Where similar variance is transitive there is such a record: the one the scan keeps. */
  lemma {:induction false} ScanKeepsTheBest(table: seq<Candidate>, me: Receiver, n: nat)
    requires Rankable(table) && 1 <= n <= |table|
    ensures var best := Scan(table, me, n);
            forall j :: 0 <= j < n && j != best ==> Beats(table[best].sync, table[j].sync)
  {
    hide Beats, Compare, Similar;
    if n > 1 {
      ScanKeepsTheBest(table, me, n - 1);
      var best, last := Scan(table, me, n - 1), n - 1;
      CompareRanks(table[last], table[best], me);
      if Compare(table[last], table[best], me) > 0 {
        forall j | 0 <= j < last ensures Beats(table[last].sync, table[j].sync) {
          if j != best {
            BeatsTransitive(table[last].sync, table[best].sync, table[j].sync);
          }
        }
      }
    }
  }

  /** So the order does not matter there. */
  lemma RankableHaveWinner(table: seq<Candidate>, me: Receiver)
    requires Rankable(table) && table != []
    ensures BeatsAll(table, Scan(table, me, |table|))
  {
    ScanKeepsTheBest(table, me, |table|);
  }

  lemma ScanOfThree(a: Candidate, b: Candidate, c: Candidate, me: Receiver)
    requires Compare(b, a, me) > 0 && Compare(c, b, me) > 0
    ensures Scan([a, b, c], me, 3) == 2
  {
    hide Compare;
    assert Scan([a, b, c], me, 2) == 1;
  }

  lemma SimilarClocks(me: Receiver) returns (a: Candidate, b: Candidate, c: Candidate)
    ensures Compare(b, a, me) > 0 && Compare(c, b, me) > 0 && Compare(a, c, me) > 0
  {
    var h := Header(1, [0, 0, 0, 0, 0, 0], 1, 0, true, false);
    a := Candidate(h, Sync(1, [0, 0, 0, 0, 0] + [3], 1, 0, 4, DFLT, 0, false, false, 0));
    b := Candidate(h, Sync(1, [0, 0, 0, 0, 0] + [2], 1, 0, 4, DFLT, 200, false, false, 0));
    c := Candidate(h, Sync(1, [0, 0, 0, 0, 0] + [1], 1, 0, 4, DFLT, 400, false, false, 0));
    LastOctetDecides([0, 0, 0, 0, 0], 1, 2);
    LastOctetDecides([0, 0, 0, 0, 0], 2, 3);
    assert a.sync.uuid[5] == 3 && b.sync.uuid[5] == 2 && c.sync.uuid[5] == 1;
    hide Memcmp;
    CompareRanks(b, a, me);
    CompareRanks(c, b, me);
    CompareRanks(a, c, me);
  }

  /** Without transitivity the order does matter: three clocks that beat one another in a circle, so
      that the scan keeps whichever record comes last. */
  lemma CircleOfSimilarClocks(me: Receiver)
    ensures exists a: Candidate, b: Candidate, c: Candidate ::
              a != c && Scan([a, b, c], me, 3) == 2 && Scan([b, c, a], me, 3) == 2
  {
    var a, b, c := SimilarClocks(me);
    ScanOfThree(a, b, c, me);
    ScanOfThree(b, c, a, me);
    NeverBothBetter(a, c, me);
  }

  lemma {:induction false} LastOctetDecides(pre: Bytes, x: Octet, y: Octet)
    requires x < y
    ensures Memcmp(pre + [x], pre + [y]) < 0
    decreases |pre|
  {
    if pre != [] {
      assert (pre + [x])[1..] == pre[1..] + [x] && (pre + [y])[1..] == pre[1..] + [y];
      LastOctetDecides(pre[1..], x, y);
    }
  }
}
