/** The version 2 best master clock comparison of src/v2bmc.c, as it is written there. */
module V2Bmc {
  import opened Octets

  type ClockIdentity = c: Bytes | |c| == 8 witness [0, 0, 0, 0, 0, 0, 0, 0]

  /** Port identity: a clock and a port of it. */
  datatype PortIdentity = PortIdentity(clock: ClockIdentity, port: UInteger16)

  datatype Quality = Quality(clockClass: Octet, clockAccuracy: Octet, variance: UInteger16)

  /** What a version 2 Announce says about the grandmaster and the way to it. */
  datatype Announce = Announce(identity: ClockIdentity, priority1: Octet, quality: Quality, priority2: Octet,
                               stepsRemoved: UInteger16)

  /** An Announce with the sender and sequence number of its header. */
  datatype V2Candidate = V2Candidate(source: PortIdentity, sequenceId: UInteger16, announce: Announce)

  function V2Compare(a: V2Candidate, b: V2Candidate, me: PortIdentity): int {
    if a.announce.identity != b.announce.identity then CompareGrandmasters(a.announce, b.announce)
    else CompareDistance(a, b, me)
  }

  /** The accuracy of one is compared with the class of the other, and a larger variance is not noticed. */
  function CompareGrandmasters(a: Announce, b: Announce): int {
    if a.priority1 < b.priority1 then 1
    else if a.priority1 > b.priority1 then -1
    else if a.quality.clockClass < b.quality.clockClass then 2
    else if a.quality.clockClass > b.quality.clockClass then -2
    else if a.quality.clockAccuracy < b.quality.clockAccuracy then 3
    else if a.quality.clockAccuracy > b.quality.clockClass then -3
    else if a.quality.variance < b.quality.variance then 4
    else CompareTieBreakers(a, b)
  }

  function CompareTieBreakers(a: Announce, b: Announce): int {
    if a.priority2 < b.priority2 then 5
    else if a.priority2 > b.priority2 then -5
    else if Memcmp(b.identity, a.identity) > 0 then 6
    else -6
  }

  /** Part 2 of the flow chart. A grandmaster more than one step nearer or farther loses either way. */
  function CompareDistance(a: V2Candidate, b: V2Candidate, me: PortIdentity): int {
    var m, n := a.announce.stepsRemoved, b.announce.stepsRemoved;
    if m > n + 1 || m + 1 < n then -7
    else if m > n then -Side(me, a.source)
    else if m < n then Side(me, b.source)
    else if Memcmp(a.source.clock, b.source.clock) < 0 then 9
    else if Memcmp(a.source.clock, b.source.clock) > 0 then -9
    else if a.source.port < b.source.port then 9
    else if a.source.port > b.source.port then -9
    else 0
  }

  /** 8 when the receiver comes before the sender, 9 when after, 0 when they are the same port. */
  function Side(receiver: PortIdentity, sender: PortIdentity): int {
    if Memcmp(receiver.clock, sender.clock) < 0 then 8
    else if Memcmp(receiver.clock, sender.clock) > 0 then 9
    else if receiver.port < sender.port then 8
    else if receiver.port > sender.port then 9
    else 0
  }

  /** Order of port identities: the clock first, then the port. */
  predicate Before(p: PortIdentity, q: PortIdentity) {
    Memcmp(p.clock, q.clock) < 0 || (p.clock == q.clock && p.port < q.port)
  }

  /** Two ways to one grandmaster: the first is better exactly if it is one step shorter, unless the second comes
      from the receiver itself, or if they are equally long and its sender comes first. Of ways that differ by more
      than a step each loses to the other. */
  lemma SameGrandmaster(a: V2Candidate, b: V2Candidate, me: PortIdentity)
    requires a.announce.identity == b.announce.identity
    ensures var m, n := a.announce.stepsRemoved, b.announce.stepsRemoved;
            && (V2Compare(a, b, me) > 0 <==> (n == m + 1 && me != b.source) || (m == n && Before(a.source, b.source)))
            && (m > n + 1 || n > m + 1 ==> V2Compare(a, b, me) < 0 && V2Compare(b, a, me) < 0)
  {
    MemcmpMirrors(a.source.clock, b.source.clock);
  }

  /** a wins by accuracy or variance, but the comparison from b's side does not see that and b wins by
      something that should count less. */
  predicate Overlooked(a: Announce, b: Announce) {
    && a.identity != b.identity && a.priority1 == b.priority1 && a.quality.clockClass == b.quality.clockClass
    && (if a.quality.clockAccuracy < b.quality.clockAccuracy then
          b.quality.clockAccuracy <= a.quality.clockClass
          && (b.quality.variance < a.quality.variance || CompareTieBreakers(b, a) > 0)
        else
          && a.quality.clockAccuracy == b.quality.clockAccuracy <= b.quality.clockClass
          && a.quality.variance < b.quality.variance && CompareTieBreakers(b, a) > 0)
  }

  /** Two candidates are each better than the other exactly in these cases. */
  lemma BothBetter(a: V2Candidate, b: V2Candidate, me: PortIdentity)
    ensures V2Compare(a, b, me) > 0 && V2Compare(b, a, me) > 0 <==>
            Overlooked(a.announce, b.announce) || Overlooked(b.announce, a.announce)
  {
    MemcmpMirrors(a.announce.identity, b.announce.identity);
    MemcmpMirrors(a.source.clock, b.source.clock);
  }

  /** It happens: one wins by accuracy, and the other, whose accuracy is compared with a class, by priority2. */
  lemma BothBetterHappens(me: PortIdentity) returns (a: V2Candidate, b: V2Candidate)
    ensures V2Compare(a, b, me) > 0 && V2Compare(b, a, me) > 0
  {
    var first, second: ClockIdentity := [0, 0, 0, 0, 0, 0, 0, 1], [0, 0, 0, 0, 0, 0, 0, 2];
    assert first[7] != second[7];
    a := V2Candidate(me, 0, Announce(first, 128, Quality(248, 0x20, 0), 128, 0));
    b := V2Candidate(me, 0, Announce(second, 128, Quality(248, 0x21, 0), 127, 0));
  }

  /** Index of the record kept after looking at the first n records. */
  function V2Scan(table: seq<V2Candidate>, me: PortIdentity, n: nat): (best: nat)
    requires 1 <= n <= |table|
    ensures best < n
  {
    if n == 1 then 0
    else
      var best := V2Scan(table, me, n - 1);
      if V2Compare(table[n - 1], table[best], me) > 0 then n - 1 else best
  }
}
