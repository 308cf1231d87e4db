/** The foreign master table of src/protocol.c (addForeign, addV2Foreign): a fixed array of records,
    searched from the best record onwards and overwritten in a circle. Each version of the protocol
    looks at its own key of a record and writes its own part of it. */
module ForeignMasters {
  import opened Octets
  import opened Bmc
  import opened V2Bmc

  /** A record: the keys of both versions, which share the port number, and the latest messages. */
  datatype Slot = Slot(technology: Octet, uuid: Uuid, portId: UInteger16, clockIdentity: ClockIdentity,
                       v1: Candidate, v2: V2Candidate)

  /** A message to remember: a Sync, or an Announce that came with a header and its translation into
      version 1 terms. */
  datatype Entry =
    | FromSync(c: Candidate)
    | FromAnnounce(source: PortIdentity, v2: V2Candidate, v1: Candidate)

  datatype Key = V1Key(technology: Octet, uuid: Uuid, portId: UInteger16) | V2Key(source: PortIdentity)

  function KeyOf(s: Slot, v2: bool): Key {
    if v2 then V2Key(PortIdentity(s.clockIdentity, s.portId)) else V1Key(s.technology, s.uuid, s.portId)
  }

  function EntryKey(e: Entry): Key {
    match e
    case FromSync(c) => V1Key(c.header.technology, c.header.uuid, c.header.portId)
    case FromAnnounce(source, _, _) => V2Key(source)
  }

  predicate Matches(s: Slot, e: Entry) {
    KeyOf(s, e.FromAnnounce?) == EntryKey(e)
  }

  /** The slot with its key and messages overwritten; those of the other version stay, except that an
      Announce also leaves its translation. */
  function Written(s: Slot, e: Entry): (r: Slot)
    ensures Matches(r, e)
  {
    match e
    case FromSync(c) =>
      s.(technology := c.header.technology, uuid := c.header.uuid, portId := c.header.portId, v1 := c)
    case FromAnnounce(source, v2, v1) =>
      s.(portId := source.port, clockIdentity := source.clock, v2 := v2, v1 := v1)
  }

  /** number records are in use; the next new one goes to slot next. */
  datatype Table = Table(slots: seq<Slot>, number: nat, next: nat, best: nat)

  predicate Safe(t: Table) {
    t.number <= |t.slots| && t.next < |t.slots| && t.best < |t.slots|
  }

  /** The slot after j, wrapping at n. */
  function After(j: nat, n: nat): (r: nat)
    requires n > 0
    ensures r < n && (j < n ==> r == if j + 1 < n then j + 1 else 0)
  {
    (j + 1) % n
  }

  /** Slot found by looking at most steps slots from j on, wrapping at number; |slots| if none. */
  function Probe(t: Table, e: Entry, j: nat, steps: nat): (r: nat)
    requires j < |t.slots| && t.number <= |t.slots| && (steps > 0 ==> t.number > 0)
    ensures r <= |t.slots| && (r < |t.slots| ==> Matches(t.slots[r], e))
    decreases steps
  {
    if steps == 0 then |t.slots|
    else if Matches(t.slots[j], e) then j
    else Probe(t, e, After(j, t.number), steps - 1)
  }

  function Find(t: Table, e: Entry): (r: nat)
    requires Safe(t)
    ensures r <= |t.slots| && (r < |t.slots| ==> Matches(t.slots[r], e))
  {
    Probe(t, e, t.best, t.number)
  }

  /** The table after a new record s. */
  function Appended(t: Table, s: Slot): Table
    requires Safe(t)
  {
    Table(t.slots[t.next := s], if t.number < |t.slots| then t.number + 1 else t.number,
          After(t.next, |t.slots|), t.best)
  }

  /** Add or update a record; the slot written comes with the new table. */
  function Added(t: Table, e: Entry): (r: (Table, nat))
    requires Safe(t)
    ensures Safe(r.0) && |r.0.slots| == |t.slots| && r.1 < |t.slots|
    ensures r.0.slots == t.slots[r.1 := Written(t.slots[r.1], e)]
  {
    var j := Find(t, e);
    if j < |t.slots| then
      (t.(slots := t.slots[j := Written(t.slots[j], e)]), j)
    else
      (Appended(t, Written(t.slots[t.next], e)), t.next)
  }

  /** The record written has the messages that came: a Sync leaves the last Announce there, an Announce comes with its
      reading as a Sync. No other record changes. */
  lemma RecordHolds(t: Table, e: Entry)
    requires Safe(t)
    ensures var (u, j) := Added(t, e);
            && KeyOf(u.slots[j], e.FromAnnounce?) == EntryKey(e)
            && (forall i :: 0 <= i < |t.slots| && i != j ==> u.slots[i] == t.slots[i])
            && match e
               case FromSync(c) => u.slots[j].v1 == c && u.slots[j].v2 == t.slots[j].v2
               case FromAnnounce(_, v2, v1) => u.slots[j].v2 == v2 && u.slots[j].v1 == v1
  {
    hide Find;
  }

  // ----- what the wrapped search looks at -----

  function Visited(best: nat, number: nat, step: nat): nat
    requires number > 0
  {
    if step == 0 then best else (best + step) % number
  }

  ghost predicate LookedAt(best: nat, number: nat, i: nat)
    requires number > 0
  {
    exists step :: 0 <= step < number && Visited(best, number, step) == i
  }

  lemma VisitedStep(best: nat, number: nat, i: nat)
    requires best < number && i < number
    ensures LookedAt(best, number, i)
  {
    if i >= best {
      Remainder(i, number, 0, i);
      assert Visited(best, number, i - best) == i;
    } else {
      Remainder(i + number, number, 1, i);
      assert Visited(best, number, i + number - best) == i;
    }
  }

  lemma MissedRemainder(best: nat, number: nat)
    requires 0 < number <= best
    ensures !LookedAt(best, number, best % number)
  {
    forall step | 0 <= step < number ensures Visited(best, number, step) != best % number {
      if 0 < step { NoReturn(best, number, step); }
    }
  }

  /** The search looks at every record in use exactly when it starts at one of them. */
  lemma SearchCovers(best: nat, number: nat)
    requires number > 0
    ensures (forall i :: 0 <= i < number ==> LookedAt(best, number, i)) <==> best < number
  {
    hide LookedAt;
    if best < number {
      forall i | 0 <= i < number ensures LookedAt(best, number, i) { VisitedStep(best, number, i); }
    } else {
      MissedRemainder(best, number);
    }
  }

  lemma NoReturn(best: nat, number: nat, step: nat)
    requires 0 < step < number
    ensures (best + step) % number != best % number
  {
    var q, r := best / number, best % number;
    if r + step < number {
      Remainder(best + step, number, q, r + step);
    } else {
      Remainder(best + step, number, q + 1, r + step - number);
    }
  }

  lemma Remainder(x: nat, number: nat, q: nat, r: nat)
    requires x == q * number + r && r < number
    ensures x % number == r
  {
    var p := x / number - q;
    assert x / number * number == q * number + p * number;
    assert p >= 1 ==> p * number >= number;
    assert p <= -1 ==> p * number <= 0 - number;
  }

  /** Slots the search has still to look at lie from j to the wrap, then from 0 up to the start. */
  lemma {:induction false} ProbeMisses(t: Table, e: Entry, j: nat, steps: nat)
    requires j < t.number <= |t.slots| && steps <= t.number
    requires Probe(t, e, j, steps) == |t.slots|
    ensures forall i :: j <= i < j + steps && i < t.number ==> !Matches(t.slots[i], e)
    ensures forall i :: 0 <= i < j + steps - t.number ==> !Matches(t.slots[i], e)
    decreases steps
  {
    hide After, Matches;
    if steps > 0 {
      ProbeMisses(t, e, After(j, t.number), steps - 1);
    }
  }

  lemma {:induction false} ProbeStaysInUse(t: Table, e: Entry, j: nat, steps: nat)
    requires j < t.number <= |t.slots|
    ensures Probe(t, e, j, steps) < t.number || Probe(t, e, j, steps) == |t.slots|
    decreases steps
  {
    hide Matches;
    if steps > 0 { ProbeStaysInUse(t, e, After(j, t.number), steps - 1); }
  }

  predicate Ready(t: Table) {
    t.number == 0 || t.best < t.number
  }

  predicate Holds(t: Table, e: Entry)
    requires t.number <= |t.slots|
  {
    exists i :: 0 <= i < t.number && Matches(t.slots[i], e)
  }

  /** A search that starts at a record in use finds a key exactly when a record in use has it. */
  lemma FindsExactly(t: Table, e: Entry)
    requires Safe(t) && Ready(t)
    ensures Find(t, e) < t.number <==> Holds(t, e)
    ensures !Holds(t, e) ==> Find(t, e) == |t.slots|
  {
    hide Matches;
    if t.number > 0 {
      ProbeStaysInUse(t, e, t.best, t.number);
      if Find(t, e) == |t.slots| { ProbeMisses(t, e, t.best, t.number); }
    }
  }

  // ----- a bounded map with first-in-first-out replacement -----

  ghost predicate Distinct(q: seq<Slot>, v2: bool) {
    forall i, j :: 0 <= i < j < |q| ==> KeyOf(q[i], v2) != KeyOf(q[j], v2)
  }

  /** The slots fill up in order and are then reused in a circle, with one record for each key. */
  ghost predicate Ring(t: Table, v2: bool) {
    && t.number <= |t.slots| && (t.number < |t.slots| ==> t.next == t.number)
    && Distinct(t.slots[..t.number], v2)
  }

  /** The records in use, oldest first. */
  function Contents(t: Table): seq<Slot>
    requires Safe(t)
  {
    if t.number < |t.slots| then t.slots[..t.number] else t.slots[t.next..] + t.slots[..t.next]
  }

  /** Place of the record that matches; |q| if none. */
  function Position(q: seq<Slot>, e: Entry): (p: nat)
    ensures p <= |q| && (p < |q| ==> Matches(q[p], e))
    ensures p == |q| ==> forall i :: 0 <= i < |q| ==> !Matches(q[i], e)
  {
    if q == [] || Matches(q[0], e) then 0 else 1 + Position(q[1..], e)
  }

  /** The intended behaviour: update in place, or append and drop the oldest beyond the capacity. A new
      record is written over the slot given. */
  function Queued(q: seq<Slot>, capacity: nat, e: Entry, reused: Slot): seq<Slot> {
    var p := Position(q, e);
    if p < |q| then q[p := Written(q[p], e)]
    else if |q| < capacity then q + [Written(reused, e)]
    else if q == [] then []
    else q[1..] + [Written(reused, e)]
  }

  lemma PositionIs(q: seq<Slot>, e: Entry, p: nat)
    requires p < |q| && Matches(q[p], e) && Distinct(q, e.FromAnnounce?)
    ensures Position(q, e) == p
  {
    hide KeyOf, EntryKey;
  }

  lemma ContentsDistinct(t: Table, v2: bool)
    requires Safe(t) && Ring(t, v2)
    ensures Distinct(Contents(t), v2)
  {
    hide KeyOf;
    if t.number == |t.slots| { assert t.slots[..t.number] == t.slots; }
  }

  lemma StaysDistinct(q: seq<Slot>, j: nat, s: Slot, v2: bool)
    requires Distinct(q, v2) && j < |q|
    requires forall i :: 0 <= i < |q| && i != j ==> KeyOf(q[i], v2) != KeyOf(s, v2)
    ensures Distinct(q[j := s], v2)
  {
    hide KeyOf;
  }

  function Age(t: Table, j: nat): int {
    if t.number < |t.slots| then j else if j >= t.next then j - t.next else j + |t.slots| - t.next
  }

  lemma ContentsOverwritten(t: Table, j: nat, s: Slot)
    requires Safe(t) && j < t.number
    ensures var q, p := Contents(t), Age(t, j);
            0 <= p < |q| && q[p] == t.slots[j] && Contents(t.(slots := t.slots[j := s])) == q[p := s]
  {
  }

  lemma HitUpdates(t: Table, j: nat, e: Entry)
    requires Safe(t) && Ring(t, e.FromAnnounce?) && j < t.number && Matches(t.slots[j], e)
    ensures var u := t.(slots := t.slots[j := Written(t.slots[j], e)]);
            Ring(u, e.FromAnnounce?) && Contents(u) == Queued(Contents(t), |t.slots|, e, t.slots[t.next])
  {
    hide KeyOf, EntryKey, Written, Contents, Matches;
    var s, v := Written(t.slots[j], e), e.FromAnnounce?;
    ContentsDistinct(t, v);
    ContentsOverwritten(t, j, s);
    PositionIs(Contents(t), e, Age(t, j));
    OverwrittenDistinct(t.slots[..t.number], j, s, e);
    assert t.slots[j := s][..t.number] == t.slots[..t.number][j := s];
  }

  lemma OverwrittenDistinct(q: seq<Slot>, j: nat, s: Slot, e: Entry)
    requires Distinct(q, e.FromAnnounce?) && j < |q| && Matches(q[j], e) && Matches(s, e)
    ensures Distinct(q[j := s], e.FromAnnounce?)
  {
    hide KeyOf, EntryKey;
  }

  lemma ContentsAppended(t: Table, s: Slot)
    requires Safe(t) && (t.number < |t.slots| ==> t.next == t.number)
    ensures var q := Contents(t);
            Contents(Appended(t, s)) == if t.number < |t.slots| then q + [s] else q[1..] + [s]
  {
    hide After;
    var u, max := Appended(t, s), |t.slots|;
    if t.number < max {
      assert u.slots[..t.number + 1] == t.slots[..t.number] + [s];
      if t.number + 1 == max { assert Contents(u) == u.slots[..t.number + 1]; }
    } else if t.next + 1 < max {
      assert u.slots[t.next + 1..] + u.slots[..t.next + 1] == (t.slots[t.next..] + t.slots[..t.next])[1..] + [s];
    } else {
      assert u.slots[0..] + u.slots[..0] == (t.slots[t.next..] + t.slots[..t.next])[1..] + [s];
    }
  }

  lemma RingAppended(t: Table, s: Slot, v2: bool)
    requires Safe(t) && Ring(t, v2)
    requires forall i :: 0 <= i < t.number ==> KeyOf(t.slots[i], v2) != KeyOf(s, v2)
    ensures Ring(Appended(t, s), v2)
  {
    hide After, KeyOf;
    var u := Appended(t, s);
    if t.number < |t.slots| {
      assert u.slots[..t.number + 1] == t.slots[..t.number] + [s];
    } else {
      assert t.slots[..t.number] == t.slots && u.slots[..t.number] == u.slots;
      StaysDistinct(t.slots, t.next, s, v2);
    }
  }

  lemma MissAppends(t: Table, e: Entry)
    requires Safe(t) && Ring(t, e.FromAnnounce?) && !Holds(t, e)
    ensures var u := Appended(t, Written(t.slots[t.next], e));
            Ring(u, e.FromAnnounce?) && Contents(u) == Queued(Contents(t), |t.slots|, e, t.slots[t.next])
  {
    hide After, KeyOf, EntryKey, Written;
    ContentsAppended(t, Written(t.slots[t.next], e));
    RingAppended(t, Written(t.slots[t.next], e), e.FromAnnounce?);
    assert Position(Contents(t), e) == |Contents(t)|;
  }

  /** Adding to a table in order is adding to the queue: the keys stay distinct, only the slot
      returned changes, and the count never exceeds the size of the table. */
  lemma AddIsFirstInFirstOut(t: Table, e: Entry)
    requires Safe(t) && Ready(t) && Ring(t, e.FromAnnounce?)
    ensures var (u, j) := Added(t, e);
            && Ring(u, e.FromAnnounce?)
            && Contents(u) == Queued(Contents(t), |t.slots|, e, t.slots[t.next])
            && (forall i :: 0 <= i < |t.slots| && i != j ==> u.slots[i] == t.slots[i])
            && j < u.number && (Ready(u) <==> t.number > 0 || t.best == 0)
  {
    hide Matches, Written, Ring, Contents, Queued, Distinct;
    FindsExactly(t, e);
    var j := Find(t, e);
    if j < |t.slots| {
      HitUpdates(t, j, e);
    } else {
      MissAppends(t, e);
      NextIsInUse(t, e.FromAnnounce?);
    }
  }

  lemma NextIsInUse(t: Table, v2: bool)
    requires Safe(t) && Ring(t, v2)
    ensures t.next <= t.number
  {
  }

  /** Forgetting the records without resetting the write position, as initData does, loses the order
      of the table with the next new record, exactly unless the position is already at the start. */
  lemma ForgettingNeedsTheStart(t: Table, e: Entry)
    requires Safe(t)
    ensures Ring(Added(t.(number := 0), e).0, e.FromAnnounce?) <==> t.next == 0
  {
    hide After, Written, KeyOf;
  }

  // ----- the table in memory -----

  class ForeignTable {
    const slots: array<Slot>
    var number: nat
    var next: nat
    var best: nat

    constructor (capacity: nat, blank: Slot)
      requires capacity >= 1
      ensures fresh(slots) && slots.Length == capacity
      ensures View() == Table(seq(capacity, _ => blank), 0, 0, 0)
    {
      slots := new Slot[capacity](_ => blank);
      number, next, best := 0, 0, 0;
    }

    function View(): Table
      reads this, slots
    {
      Table(slots[..], number, next, best)
    }

    /** Add or update the record of a foreign master; returns its slot. */
    method Add(e: Entry) returns (j: nat)
      requires Safe(View())
      modifies this`number, this`next, slots
      ensures (View(), j) == Added(old(View()), e)
    {
      hide After, Matches, Written;
      ghost var before := View();
      var found := false;
      j := best;
      var i := 0;
      while i < number
        invariant View() == before && j < slots.Length && i <= number
        invariant Find(before, e) == Probe(before, e, j, number - i)
        modifies {}
      {
        if Matches(slots[j], e) {
          found := true;
          break;
        }
        j := After(j, number);
        i := i + 1;
      }
      if !found {
        if number < slots.Length {
          number := number + 1;
        }
        j := next;
        next := After(next, slots.Length);
      }
      slots[j] := Written(slots[j], e);
    }

    /** A receipt timeout forgets the records and starts again at the first slot. */
    method Forget()
      modifies this`number, this`next
      ensures View() == old(View()).(number := 0, next := 0)
    {
      number, next := 0, 0;
    }
  }
}
