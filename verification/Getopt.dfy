/** Argument scanning of src/dep/getopt.c in PERMUTE mode with short options.
    The scanner moves argv in place, one call at a time; the reference below reads the original
    argument list once, from left to right, and never moves anything. */
module Getopt {

  datatype Option<+T> = None | Some(value: T)

  /** What one call reports: the returned character, optarg, and the character stored in optopt
      (only the error returns store one). */
  datatype Event = Event(code: char, arg: Option<string>, bad: Option<char>)

  /** Where the argument of a short option came from, and so how far the scan advances. */
  datatype Uses = Letter | RestOfElement | NextElement

  /** The result of a whole scan; ended tells whether "--" ended it. */
  datatype Outcome = Outcome(events: seq<Event>, options: seq<string>, operands: seq<string>, ended: bool)

  // ----- reference: one left-to-right pass over the original arguments -----

  predicate NonOption(s: string) {
    |s| < 2 || s[0] != '-'
  }

  /** Character k of a C string, which ends in a null character. */
  function CharAt(s: string, k: nat): char {
    if k < |s| then s[k] else '\0'
  }

  /** Position of the first occurrence of c, or |s|. */
  function IndexOf(s: string, c: char): (k: nat)
    ensures k <= |s| && (k < |s| ==> s[k] == c) && c !in s[..k]
  {
    if s == "" || s[0] == c then 0 else
      var k := 1 + IndexOf(s[1..], c);
      assert s[..k] == [s[0]] + s[1..][..k - 1];
      k
  }

  /** Short options only: a leading '-' or '+' selects another ordering, and "W;" needs long options. */
  predicate ShortOptionString(opts: string) {
    (opts != "" ==> opts[0] != '-' && opts[0] != '+')
    && forall k :: 0 <= k < |opts| && opts[k] == 'W' ==> CharAt(opts, k + 1) != ';'
  }

  function ShortOption(opts: string, c: char, rest: string, next: Option<string>): (Event, Uses) {
    var k := IndexOf(opts, c);
    if k == |opts| || c == ':' then
      (Event('?', None, Some(c)), Letter)
    else if CharAt(opts, k + 1) != ':' then
      (Event(c, None, None), Letter)
    else if rest != "" then
      (Event(c, Some(rest), None), RestOfElement)
    else if CharAt(opts, k + 2) == ':' then
      (Event(c, None, None), RestOfElement)
    else if next == None then
      (Event(if opts[0] == ':' then ':' else '?', None, Some(c)), RestOfElement)
    else
      (Event(c, next, None), NextElement)
  }

  function Element(args: seq<string>, i: nat): Option<string> {
    if i < |args| then Some(args[i]) else None
  }

  function Reference(opts: string, args: seq<string>, i: nat): (r: Outcome)
    decreases |args| - i, 0, 0
  {
    if i >= |args| then Outcome([], [], [], false)
    else if args[i] == "--" then Outcome([], ["--"], args[i + 1..], true)
    else if NonOption(args[i]) then
      var r := Reference(opts, args, i + 1);
      r.(operands := [args[i]] + r.operands)
    else
      ReferenceElement(opts, args, i, args[i][1..])
  }

  /** The rest of option element i, of which the letters in text are still to be read. */
  function ReferenceElement(opts: string, args: seq<string>, i: nat, text: string): (r: Outcome)
    requires i < |args| && text != ""
    decreases |args| - i - 1, 1, |text|
  {
    var (e, uses) := ShortOption(opts, text[0], text[1..], Element(args, i + 1));
    if uses == Letter && text[1..] != "" then
      var r := ReferenceElement(opts, args, i, text[1..]);
      r.(events := [e] + r.events)
    else
      var n := if uses == NextElement then i + 2 else i + 1;
      var r := Reference(opts, args, n);
      Outcome([e] + r.events, args[i..n] + r.options, r.operands, r.ended)
  }

  // ----- what the reference does to the order of the arguments -----

  /** s merges a and b: both keep their own order and nothing is lost or added. */
  predicate Merges(a: seq<string>, b: seq<string>, s: seq<string>)
    decreases |s|
  {
    if s == [] then a == [] && b == []
    else
      || (a != [] && a[0] == s[0] && Merges(a[1..], b, s[1..]))
      || (b != [] && b[0] == s[0] && Merges(a, b[1..], s[1..]))
  }

  lemma {:induction false} MergesOnlyRight(b: seq<string>)
    ensures Merges([], b, b)
  {
    if b != [] { MergesOnlyRight(b[1..]); }
  }

  lemma {:induction false} MergesLeftBlock(x: seq<string>, a: seq<string>, b: seq<string>, s: seq<string>)
    requires Merges(a, b, s)
    ensures Merges(x + a, b, x + s)
  {
    if x == [] {
      assert x + a == a && x + s == s;
    } else {
      MergesLeftBlock(x[1..], a, b, s);
      assert (x + a)[1..] == x[1..] + a && (x + s)[1..] == x[1..] + s;
    }
  }

  lemma {:induction false} MergeIsPermutation(a: seq<string>, b: seq<string>, s: seq<string>)
    requires Merges(a, b, s)
    ensures multiset(a + b) == multiset(s)
    decreases |s|
  {
    if s != [] {
      assert s == [s[0]] + s[1..];
      if a != [] && a[0] == s[0] && Merges(a[1..], b, s[1..]) {
        MergeIsPermutation(a[1..], b, s[1..]);
        assert a == [a[0]] + a[1..];
      } else {
        MergeIsPermutation(a, b[1..], s[1..]);
        assert b == [b[0]] + b[1..];
      }
    }
  }

  /** Options with their arguments and operands each keep their original order, and every argument
      is in exactly one of the two. */
  lemma {:induction false} PartitionIsStable(opts: string, args: seq<string>, i: nat)
    requires i <= |args|
    ensures var r := Reference(opts, args, i); Merges(r.options, r.operands, args[i..])
    decreases |args| - i, 0, 0
  {
    if i < |args| {
      assert args[i..] == [args[i]] + args[i + 1..];
      if args[i] == "--" {
        MergesOnlyRight(args[i + 1..]);
        MergesLeftBlock(["--"], [], args[i + 1..], args[i + 1..]);
      } else if NonOption(args[i]) {
        PartitionIsStable(opts, args, i + 1);
        var r := Reference(opts, args, i);
        assert r.operands[1..] == Reference(opts, args, i + 1).operands;
      } else {
        ElementPartitionIsStable(opts, args, i, args[i][1..]);
      }
    }
  }

  lemma {:induction false} ElementPartitionIsStable(opts: string, args: seq<string>, i: nat, text: string)
    requires i < |args| && text != ""
    ensures var r := ReferenceElement(opts, args, i, text); Merges(r.options, r.operands, args[i..])
    decreases |args| - i - 1, 1, |text|
  {
    var (e, uses) := ShortOption(opts, text[0], text[1..], Element(args, i + 1));
    if uses == Letter && text[1..] != "" {
      ElementPartitionIsStable(opts, args, i, text[1..]);
    } else {
      var n := if uses == NextElement then i + 2 else i + 1;
      PartitionIsStable(opts, args, n);
      var r := Reference(opts, args, n);
      MergesLeftBlock(args[i..n], r.options, r.operands, args[n..]);
      assert args[i..] == args[i..n] + args[n..];
    }
  }

  /** Options come first: nothing that looks like an option is left among the operands, unless "--"
      protects it. */
  lemma {:induction false} OperandsAreNotOptions(opts: string, args: seq<string>, i: nat)
    ensures var r := Reference(opts, args, i); r.ended || forall x :: x in r.operands ==> NonOption(x)
    decreases |args| - i, 0, 0
  {
    if i < |args| && args[i] != "--" {
      if NonOption(args[i]) {
        OperandsAreNotOptions(opts, args, i + 1);
      } else {
        ElementOperandsAreNotOptions(opts, args, i, args[i][1..]);
      }
    }
  }

  lemma {:induction false} ElementOperandsAreNotOptions(opts: string, args: seq<string>, i: nat, text: string)
    requires i < |args| && text != ""
    ensures var r := ReferenceElement(opts, args, i, text); r.ended || forall x :: x in r.operands ==> NonOption(x)
    decreases |args| - i - 1, 1, |text|
  {
    var (e, uses) := ShortOption(opts, text[0], text[1..], Element(args, i + 1));
    if uses == Letter && text[1..] != "" {
      ElementOperandsAreNotOptions(opts, args, i, text[1..]);
    } else {
      OperandsAreNotOptions(opts, args, if uses == NextElement then i + 2 else i + 1);
    }
  }

  // ----- scanning the rearranged arguments again -----

  /** The scan ended in an option whose required argument was missing. */
  predicate Starved(opts: string, r: Outcome) {
    r.events != []
    && var last := r.events[|r.events| - 1];
       last.bad.Some? && last.bad.value in opts && last.bad.value != ':'
  }

  lemma {:induction false} ReferenceOfSuffix(opts: string, pre: seq<string>, s: seq<string>, k: nat)
    ensures Reference(opts, pre + s, |pre| + k) == Reference(opts, s, k)
    decreases |s| - k, 0, 0
  {
    var args := pre + s;
    if k < |s| {
      assert args[|pre| + k] == s[k];
      if s[k] == "--" {
        assert args[|pre| + k + 1..] == s[k + 1..];
      } else if NonOption(s[k]) {
        ReferenceOfSuffix(opts, pre, s, k + 1);
      } else {
        ElementOfSuffix(opts, pre, s, k, s[k][1..]);
      }
    }
  }

  lemma {:induction false} ElementOfSuffix(opts: string, pre: seq<string>, s: seq<string>, k: nat, text: string)
    requires k < |s| && text != ""
    ensures ReferenceElement(opts, pre + s, |pre| + k, text) == ReferenceElement(opts, s, k, text)
    decreases |s| - k - 1, 1, |text|
  {
    var args := pre + s;
    assert Element(args, |pre| + k + 1) == Element(s, k + 1);
    var (e, uses) := ShortOption(opts, text[0], text[1..], Element(s, k + 1));
    if uses == Letter && text[1..] != "" {
      ElementOfSuffix(opts, pre, s, k, text[1..]);
    } else {
      var n := if uses == NextElement then k + 2 else k + 1;
      ReferenceOfSuffix(opts, pre, s, n);
      assert args[|pre| + k..|pre| + n] == s[k..n];
    }
  }

  lemma {:induction false} OperandsOnly(opts: string, s: seq<string>, k: nat)
    requires k <= |s| && forall x :: x in s ==> NonOption(x)
    ensures Reference(opts, s, k) == Outcome([], [], s[k..], false)
    decreases |s| - k
  {
    if k < |s| {
      assert s[k] in s;
      OperandsOnly(opts, s, k + 1);
      assert s[k..] == [s[k]] + s[k + 1..];
    }
  }

  /** The options of a scan followed by any operands scan to the same events and the same split,
      except that a starved last option takes the first operand as its argument. */
  lemma {:induction false} RescanOptions(opts: string, args: seq<string>, i: nat, x: seq<string>)
    requires var r := Reference(opts, args, i); r.ended || forall y :: y in x ==> NonOption(y)
    ensures var r := Reference(opts, args, i);
            var again := Reference(opts, r.options + x, 0);
            if Starved(opts, r) && x != [] then again.events != r.events else again == r.(operands := x)
    decreases |args| - i, 0, 0
  {
    var r := Reference(opts, args, i);
    if i >= |args| {
      assert r.options + x == x;
      OperandsOnly(opts, x, 0);
    } else if args[i] == "--" {
      assert (r.options + x)[1..] == x;
    } else if NonOption(args[i]) {
      RescanOptions(opts, args, i + 1, x);
    } else {
      assert r.options[0] == args[i] by { FirstOption(opts, args, i, args[i][1..]); }
      RescanElement(opts, args, i, args[i][1..], x);
    }
  }

  lemma {:induction false} FirstOption(opts: string, args: seq<string>, i: nat, text: string)
    requires i < |args| && text != ""
    ensures var r := ReferenceElement(opts, args, i, text); r.options != [] && r.options[0] == args[i] && r.events != []
    decreases |text|
  {
    if text[1..] != "" { FirstOption(opts, args, i, text[1..]); }
  }

  lemma SameTail(e: Event, a: seq<Event>, b: seq<Event>)
    ensures [e] + a == [e] + b <==> a == b
  {
    assert ([e] + a)[1..] == a && ([e] + b)[1..] == b;
  }

  lemma {:induction false} RescanElement(opts: string, args: seq<string>, i: nat, text: string, x: seq<string>)
    requires i < |args| && text != ""
    requires var r := ReferenceElement(opts, args, i, text); r.ended || forall y :: y in x ==> NonOption(y)
    requires ReferenceElement(opts, args, i, text).options != []
    ensures var r := ReferenceElement(opts, args, i, text);
            var again := ReferenceElement(opts, r.options + x, 0, text);
            if Starved(opts, r) && x != [] then again.events != r.events else again == r.(operands := x)
    decreases |args| - i - 1, 1, |text|
  {
    var r := ReferenceElement(opts, args, i, text);
    var (e, uses) := ShortOption(opts, text[0], text[1..], Element(args, i + 1));
    if uses == Letter && text[1..] != "" {
      FirstOption(opts, args, i, text[1..]);
      RescanElement(opts, args, i, text[1..], x);
      var inner := ReferenceElement(opts, args, i, text[1..]);
      SameTail(e, ReferenceElement(opts, r.options + x, 0, text[1..]).events, inner.events);
      assert Starved(opts, r) == Starved(opts, inner);
    } else {
      var n := if uses == NextElement then i + 2 else i + 1;
      RescanOptions(opts, args, n, x);
      RescanLeaving(opts, args, i, n, text, x);
    }
  }

  /** Leaving an element consumes the same arguments whatever follows them. */
  lemma LeaveElement(opts: string, used: seq<string>, tail: seq<string>, text: string, e: Event, uses: Uses)
    requires used != [] && text != "" && |used| == if uses == NextElement then 2 else 1
    requires ShortOption(opts, text[0], text[1..], Element(used + tail, 1)) == (e, uses)
    requires !(uses == Letter && text[1..] != "")
    ensures var a := Reference(opts, tail, 0);
            ReferenceElement(opts, used + tail, 0, text) == Outcome([e] + a.events, used + a.options, a.operands, a.ended)
  {
    assert (used + tail)[0..|used|] == used;
    ReferenceOfSuffix(opts, used, tail, 0);
  }

  /** What scanning again must give: the same, unless a starved option now finds an operand to eat. */
  predicate SameAgain(opts: string, r: Outcome, again: Outcome, x: seq<string>) {
    if Starved(opts, r) && x != [] then again.events != r.events else again == r.(operands := x)
  }

  lemma {:induction false} LeavesAlike(opts: string, args: seq<string>, i: nat, n: nat, text: string, x: seq<string>)
    requires i < n <= |args| && text != ""
    requires var (e, uses) := ShortOption(opts, text[0], text[1..], Element(args, i + 1));
             && !(uses == Letter && text[1..] != "") && n == (if uses == NextElement then i + 2 else i + 1)
             && ShortOption(opts, text[0], text[1..], Element(args[i..n] + (Reference(opts, args, n).options + x), 1)) == (e, uses)
    requires var rest := Reference(opts, args, n); SameAgain(opts, rest, Reference(opts, rest.options + x, 0), x)
    ensures var r := ReferenceElement(opts, args, i, text);
            r.options != [] && SameAgain(opts, r, ReferenceElement(opts, r.options + x, 0, text), x)
  {
    var r := ReferenceElement(opts, args, i, text);
    var (e, uses) := ShortOption(opts, text[0], text[1..], Element(args, i + 1));
    var rest := Reference(opts, args, n);
    var tail := rest.options + x;
    assert r.options + x == args[i..n] + tail;
    SameTail(e, Reference(opts, tail, 0).events, rest.events);
    LeaveElement(opts, args[i..n], tail, text, e, uses);
    NotStarvedHere(opts, text, args, i, n, tail, e, uses);
  }

  /** An option that takes the same course with more elements behind it did not miss its argument,
      unless there is nothing behind it this time either. */
  lemma NotStarvedHere(opts: string, text: string, args: seq<string>, i: nat, n: nat, tail: seq<string>, e: Event, uses: Uses)
    requires i < n <= |args| && text != "" && n == (if uses == NextElement then i + 2 else i + 1)
    requires ShortOption(opts, text[0], text[1..], Element(args, i + 1)) == (e, uses)
    requires ShortOption(opts, text[0], text[1..], Element(args[i..n] + tail, 1)) == (e, uses)
    ensures e.bad.Some? && e.bad.value in opts && e.bad.value != ':' ==> tail == []
  {
  }

  lemma {:induction false} LeavesStarved(opts: string, args: seq<string>, i: nat, n: nat, text: string, x: seq<string>)
    requires i < n <= |args| && text != ""
    requires var (e, uses) := ShortOption(opts, text[0], text[1..], Element(args, i + 1));
             && !(uses == Letter && text[1..] != "") && n == (if uses == NextElement then i + 2 else i + 1)
             && ShortOption(opts, text[0], text[1..], Element(args[i..n] + (Reference(opts, args, n).options + x), 1)) != (e, uses)
    ensures var r := ReferenceElement(opts, args, i, text);
            r.options != [] && SameAgain(opts, r, ReferenceElement(opts, r.options + x, 0, text), x)
  {
    var (e, uses) := ShortOption(opts, text[0], text[1..], Element(args, i + 1));
    assert e.bad.Some? && n == |args|;
    assert Reference(opts, args, n) == Outcome([], [], [], false);
  }

  lemma {:induction false} RescanLeaving(opts: string, args: seq<string>, i: nat, n: nat, text: string, x: seq<string>)
    requires i < n <= |args| && text != ""
    requires var (e, uses) := ShortOption(opts, text[0], text[1..], Element(args, i + 1));
             !(uses == Letter && text[1..] != "") && n == if uses == NextElement then i + 2 else i + 1
    requires var rest := Reference(opts, args, n); SameAgain(opts, rest, Reference(opts, rest.options + x, 0), x)
    ensures var r := ReferenceElement(opts, args, i, text);
            r.options != [] && SameAgain(opts, r, ReferenceElement(opts, r.options + x, 0, text), x)
  {
    hide SameAgain;
    var tail := Reference(opts, args, n).options + x;
    if ShortOption(opts, text[0], text[1..], Element(args[i..n] + tail, 1)) ==
       ShortOption(opts, text[0], text[1..], Element(args, i + 1)) {
      LeavesAlike(opts, args, i, n, text, x);
    } else {
      LeavesStarved(opts, args, i, n, text, x);
    }
  }

  /** Rearranged arguments are a fixed point: scanning them again reports the same events and moves
      nothing, exactly unless the first scan starved its last option and there is an operand to feed it. */
  lemma RescanIsStable(opts: string, args: seq<string>)
    requires args != []
    ensures var r := Reference(opts, args, 1);
            Reference(opts, [args[0]] + (r.options + r.operands), 1) == r <==> !(Starved(opts, r) && r.operands != [])
  {
    var r := Reference(opts, args, 1);
    OperandsAreNotOptions(opts, args, 1);
    RescanOptions(opts, args, 1, r.operands);
    ReferenceOfSuffix(opts, [args[0]], r.options + r.operands, 0);
  }

  /** It happens: an option at the end that misses its argument takes the operand that has moved behind it. */
  lemma RescanEatsOperand()
    ensures var opts, args := "a:", ["program", "x", "-a"];
            var r := Reference(opts, args, 1);
            && r == Outcome([Event('?', None, Some('a'))], ["-a"], ["x"], false)
            && Reference(opts, ["program"] + (r.options + r.operands), 1) ==
               Outcome([Event('a', Some("x"), None)], ["-a", "x"], [], false)
  {
    var opts, args, again := "a:", ["program", "x", "-a"], ["program", "-a", "x"];
    assert "-a"[1..] == "a" && "a"[1..] == "";
    assert IndexOf(opts, 'a') == 0;
    assert NonOption("x") && !NonOption("-a");
    assert Reference(opts, args, 3) == Outcome([], [], [], false);
    assert args[2..3] == ["-a"];
    assert ReferenceElement(opts, args, 2, "a") == Outcome([Event('?', None, Some('a'))], ["-a"], [], false);
    assert ["program"] + (["-a"] + ["x"]) == again;
    assert Reference(opts, again, 3) == Outcome([], [], [], false);
    assert again[1..3] == ["-a", "x"];
    assert ReferenceElement(opts, again, 1, "a") == Outcome([Event('a', Some("x"), None)], ["-a", "x"], [], false);
  }

  // ----- the scanner -----

  /** Adjacent segments s[b..m] and s[m..t] in exchanged order, everything else in place. */
  function Exchanged(s: seq<string>, b: nat, m: nat, t: nat): (r: seq<string>)
    requires b <= m <= t <= |s|
    ensures |r| == |s|
  {
    s[..b] + s[m..t] + s[b..m] + s[t..]
  }

  /** The blocks of length len at i and at j in exchanged places. */
  function Swapped(s: seq<string>, i: nat, j: nat, len: nat): (r: seq<string>)
    requires i + len <= j && j + len <= |s|
    ensures |r| == |s|
  {
    s[..i] + s[j..j + len] + s[i + len..j] + s[i..i + len] + s[j + len..]
  }

  lemma ExchangedParts(a: seq<string>, x: seq<string>, y: seq<string>, d: seq<string>)
    ensures Exchanged(a + x + y + d, |a|, |a| + |x|, |a| + |x| + |y|) == a + y + x + d
  {
    var w := a + x + y + d;
    assert w[..|a|] == a && w[|a|..|a| + |x|] == x;
    assert w[|a| + |x|..|a| + |x| + |y|] == y && w[|a| + |x| + |y|..] == d;
  }

  lemma Segments(s: seq<string>, b: nat, m: nat, t: nat)
    requires b <= m <= t <= |s|
    ensures s == s[..b] + s[b..m] + s[m..t] + s[t..]
  {
  }

  lemma SplitAt(s: seq<string>, i: nat, j: nat, k: nat)
    requires i <= j <= k <= |s|
    ensures s[i..k] == s[i..j] + s[j..k]
  {
  }

  lemma Regroup(a: seq<string>, x: seq<string>, y: seq<string>, z: seq<string>, d: seq<string>)
    ensures a + (x + y) + z + d == a + x + y + (z + d) && a + x + y + z + d == a + x + y + (z + d)
    ensures a + x + (y + z) + d == (a + x) + y + z + d
  {
  }

  /** Swapping a short bottom segment with the far end of the top one leaves a smaller exchange to do. */
  lemma SwapShortBottom(s: seq<string>, b: nat, m: nat, t: nat)
    requires b <= m <= t <= |s| && m - b < t - m
    ensures Exchanged(Swapped(s, b, t - (m - b), m - b), b, m, t - (m - b)) == Exchanged(s, b, m, t)
  {
    hide Exchanged;
    var n := t - (m - b);
    var a, x, y, z, d := s[..b], s[b..m], s[m..n], s[n..t], s[t..];
    Segments(s, b, m, t);
    SplitAt(s, m, n, t);
    ExchangedParts(a, x, y + z, d);
    ExchangedParts(a, z, y, x + d);
    Regroup(a, y, z, x, d);
    Regroup(a, z, y, x, d);
  }

  /** Swapping a short top segment with the near end of the bottom one leaves a smaller exchange to do. */
  lemma SwapShortTop(s: seq<string>, b: nat, m: nat, t: nat)
    requires b <= m <= t <= |s| && t - m <= m - b
    ensures Exchanged(Swapped(s, b, m, t - m), b + (t - m), m, t) == Exchanged(s, b, m, t)
  {
    hide Exchanged;
    var n := b + (t - m);
    var a, x, y, z, d := s[..b], s[b..n], s[n..m], s[m..t], s[t..];
    Segments(s, b, m, t);
    SplitAt(s, b, n, m);
    ExchangedParts(a, x + y, z, d);
    ExchangedParts(a + z, y, x, d);
    Regroup(a, z, x, y, d);
  }

  lemma NothingToExchange(s: seq<string>, b: nat, m: nat, t: nat)
    requires b <= m <= t <= |s| && (b == m || m == t)
    ensures Exchanged(s, b, m, t) == s
  {
  }

  lemma IsSwapped(s: seq<string>, w: seq<string>, i: nat, j: nat, len: nat)
    requires i + len <= j && j + len <= |s| == |w|
    requires w[..i] == s[..i] && w[i..i + len] == s[j..j + len] && w[i + len..j] == s[i + len..j]
    requires w[j..j + len] == s[i..i + len] && w[j + len..] == s[j + len..]
    ensures w == Swapped(s, i, j, len)
  {
    Segments(w[..j], i, i + len, j);
    Segments(w, j, j + len, |w|);
    assert w[..j][..i] == w[..i] && w[..j][i..i + len] == w[i..i + len] && w[..j][i + len..j] == w[i + len..j];
  }

  /** Swaps two disjoint blocks of equal length, element by element. */
  method SwapBlocks(argv: array<string>, i: nat, j: nat, len: nat)
    requires i + len <= j && j + len <= argv.Length
    modifies argv
    ensures argv[..] == Swapped(old(argv[..]), i, j, len)
  {
    for n := 0 to len
      invariant forall k :: i <= k < i + n ==> argv[k] == old(argv[k - i + j])
      invariant forall k :: j <= k < j + n ==> argv[k] == old(argv[k - j + i])
      invariant forall k :: 0 <= k < argv.Length && !(i <= k < i + n) && !(j <= k < j + n) ==> argv[k] == old(argv[k])
    {
      var tem := argv[i + n];
      argv[i + n] := argv[j + n];
      argv[j + n] := tem;
    }
    ghost var was, now := old(argv[..]), argv[..];
    assert now[..i] == was[..i] && now[i..i + len] == was[j..j + len] && now[i + len..j] == was[i + len..j];
    assert now[j..j + len] == was[i..i + len] && now[j + len..] == was[j + len..];
    IsSwapped(was, now, i, j, len);
  }

  /** With fewer elements below the middle than above, those below go to their final place at the far end. */
  method MoveBottom(argv: array<string>, bottom: nat, middle: nat, top: nat) returns (newTop: nat)
    requires bottom <= middle <= top <= argv.Length && middle - bottom < top - middle
    modifies argv
    ensures newTop == top - (middle - bottom)
    ensures Exchanged(argv[..], bottom, middle, newTop) == Exchanged(old(argv[..]), bottom, middle, top)
  {
    hide Exchanged, Swapped;
    ghost var before := argv[..];
    newTop := top - (middle - bottom);
    SwapBlocks(argv, bottom, newTop, middle - bottom);
    SwapShortBottom(before, bottom, middle, top);
  }

  /** With no more elements above the middle than below, those above go to their final place at the start. */
  method MoveTop(argv: array<string>, bottom: nat, middle: nat, top: nat) returns (newBottom: nat)
    requires bottom <= middle <= top <= argv.Length && top - middle <= middle - bottom
    modifies argv
    ensures newBottom == bottom + (top - middle)
    ensures Exchanged(argv[..], newBottom, middle, top) == Exchanged(old(argv[..]), bottom, middle, top)
  {
    hide Exchanged, Swapped;
    ghost var before := argv[..];
    newBottom := bottom + (top - middle);
    SwapBlocks(argv, bottom, middle, top - middle);
    SwapShortTop(before, bottom, middle, top);
  }

  /** Position of chr in str, or |str|. */
  method MyIndex(str: string, chr: char) returns (k: nat)
    ensures k == IndexOf(str, chr)
  {
    k := 0;
    while k < |str|
      invariant k <= |str|
      invariant IndexOf(str, chr) == k + IndexOf(str[k..], chr)
    {
      if str[k] == chr { return; }
      k := k + 1;
    }
  }

  /** All options scanned so far stand before all operands skipped so far, in original order and
      followed by the untouched tail; adding what is pending gives the whole reference outcome. */
  ghost predicate GatheredAt(opts: string, original: seq<string>, argv: seq<string>, reported: seq<Event>,
                             first: nat, optind: nat)
  {
    && 1 <= first <= optind <= |argv| == |original|
    && argv[0] == original[0] && argv[optind..] == original[optind..]
    && var rest := Reference(opts, original, optind);
       Reference(opts, original, 1) ==
       Outcome(reported + rest.events, argv[1..first] + rest.options, argv[first..optind] + rest.operands,
               rest.ended)
  }

  lemma GatherOne(opts: string, original: seq<string>, argv: seq<string>, reported: seq<Event>,
                  first: nat, optind: nat)
    requires GatheredAt(opts, original, argv, reported, first, optind)
    requires optind < |argv| && NonOption(argv[optind])
    ensures GatheredAt(opts, original, argv, reported, first, optind + 1)
  {
    assert argv[optind] == argv[optind..][0] == original[optind];
    var rest := Reference(opts, original, optind + 1);
    assert argv[first..optind] + ([argv[optind]] + rest.operands) == argv[first..optind + 1] + rest.operands;
    assert argv[optind + 1..] == argv[optind..][1..] == original[optind + 1..];
  }

  /** Between calls: argv holds the options scanned so far around the skipped operands, in original
      order, before an untouched tail; nextchar is what is left of the option element at optind. */
  ghost predicate ScanningAt(opts: string, original: seq<string>, argv: seq<string>, reported: seq<Event>,
                             first: nat, last: nat, optind: nat, nextchar: string)
  {
    && 1 <= first <= last <= optind <= |argv| == |original|
    && argv[0] == original[0] && argv[optind..] == original[optind..]
    && (nextchar != "" ==> optind < |argv|)
    && var rest := if nextchar == "" then Reference(opts, original, optind)
                   else ReferenceElement(opts, original, optind, nextchar);
       Reference(opts, original, 1) ==
       Outcome(reported + rest.events,
               argv[1..first] + argv[last..optind] + rest.options,
               argv[first..last] + rest.operands,
               rest.ended)
  }

  lemma ReferencePermutes(opts: string, args: seq<string>, i: nat)
    requires i <= |args|
    ensures var r := Reference(opts, args, i); multiset(r.options) + multiset(r.operands) == multiset(args[i..])
  {
    var r := Reference(opts, args, i);
    PartitionIsStable(opts, args, i);
    MergeIsPermutation(r.options, r.operands, args[i..]);
  }

  lemma ElementPermutes(opts: string, args: seq<string>, i: nat, text: string)
    requires i < |args| && text != ""
    ensures var r := ReferenceElement(opts, args, i, text);
            multiset(r.options) + multiset(r.operands) == multiset(args[i..])
  {
    var r := ReferenceElement(opts, args, i, text);
    ElementPartitionIsStable(opts, args, i, text);
    MergeIsPermutation(r.options, r.operands, args[i..]);
  }

  lemma CountParts(s: seq<string>, i: nat, j: nat, k: nat)
    requires 1 <= i <= j <= k <= |s|
    ensures multiset(s) == multiset{s[0]} + multiset(s[1..i]) + multiset(s[i..j]) + multiset(s[j..k]) + multiset(s[k..])
  {
    assert s == [s[0]] + s[1..i] + s[i..j] + s[j..k] + s[k..];
  }

  lemma CountFromOne(s: seq<string>)
    requires s != []
    ensures multiset(s) == multiset{s[0]} + multiset(s[1..])
  {
    assert s == [s[0]] + s[1..];
  }

  /** While the scan goes on, argv holds the original arguments. */
  lemma ScanningPermutes(opts: string, original: seq<string>, argv: seq<string>, reported: seq<Event>,
                         first: nat, last: nat, optind: nat, nextchar: string)
    requires ScanningAt(opts, original, argv, reported, first, last, optind, nextchar)
    ensures multiset(argv) == multiset(original)
  {
    hide Reference, ReferenceElement;
    var rest := if nextchar == "" then Reference(opts, original, optind)
                else ReferenceElement(opts, original, optind, nextchar);
    if nextchar == "" {
      ReferencePermutes(opts, original, optind);
    } else {
      ElementPermutes(opts, original, optind, nextchar);
    }
    ReferencePermutes(opts, original, 1);
    CountParts(argv, first, last, optind);
    CountFromOne(original);
    assert multiset(argv[1..first] + argv[last..optind] + rest.options) ==
           multiset(argv[1..first]) + multiset(argv[last..optind]) + multiset(rest.options);
    assert multiset(argv[first..last] + rest.operands) == multiset(argv[first..last]) + multiset(rest.operands);
  }

  lemma FinishedPermutes(opts: string, original: seq<string>, argv: seq<string>, reported: seq<Event>, first: nat)
    requires FinishedAt(opts, original, argv, reported, first)
    ensures multiset(argv) == multiset(original)
  {
    hide Reference;
    var r := Reference(opts, original, 1);
    ReferencePermutes(opts, original, 1);
    CountFromOne(original);
    assert multiset(argv) == multiset{original[0]} + multiset(r.options) + multiset(r.operands);
  }

  lemma ExchangeGathers(opts: string, original: seq<string>, argv: seq<string>, reported: seq<Event>,
                        first: nat, last: nat, optind: nat)
    requires ScanningAt(opts, original, argv, reported, first, last, optind, "")
    ensures GatheredAt(opts, original, Exchanged(argv, first, last, optind), reported, first + (optind - last), optind)
  {
    var moved := Exchanged(argv, first, last, optind);
    var middle := first + (optind - last);
    assert moved[optind..] == argv[optind..];
    assert moved[1..middle] == argv[1..first] + argv[last..optind];
    assert moved[middle..optind] == argv[first..last];
  }

  lemma AlreadyGathered(opts: string, original: seq<string>, argv: seq<string>, reported: seq<Event>,
                        first: nat, last: nat, optind: nat)
    requires ScanningAt(opts, original, argv, reported, first, last, optind, "")
    requires first == last || last == optind
    ensures GatheredAt(opts, original, argv, reported, if last != optind then optind else first, optind)
  {
    var middle := if last != optind then optind else first;
    assert argv[1..middle] == argv[1..first] + argv[last..optind];
    assert argv[middle..optind] == argv[first..last];
  }

  /** The whole argument list in its final order, the operands starting at first. */
  ghost predicate FinishedAt(opts: string, original: seq<string>, argv: seq<string>, reported: seq<Event>, first: nat)
  {
    && |original| > 0
    && var r := Reference(opts, original, 1);
       argv == [original[0]] + r.options + r.operands && first == 1 + |r.options| && reported == r.events
  }

  lemma FinishAtEnd(opts: string, original: seq<string>, argv: seq<string>, reported: seq<Event>, first: nat)
    requires GatheredAt(opts, original, argv, reported, first, |argv|)
    ensures FinishedAt(opts, original, argv, reported, first)
  {
    var r := Reference(opts, original, 1);
    assert r.options == argv[1..first] && r.operands == argv[first..];
    assert argv == [argv[0]] + argv[1..first] + argv[first..];
  }

  /** The terminator "--" moves in front of the skipped operands; the rest of argv joins them. */
  lemma FinishAtTerminator(opts: string, original: seq<string>, argv: seq<string>, reported: seq<Event>,
                           first: nat, optind: nat)
    requires GatheredAt(opts, original, argv, reported, first, optind)
    requires optind < |argv| && argv[optind] == "--"
    ensures FinishedAt(opts, original, Exchanged(argv, first, optind, optind + 1), reported, first + 1)
  {
    TailFromHere(original, argv, optind);
    var r := Reference(opts, original, 1);
    TerminatorMoves(argv, first, optind);
    assert r.options == argv[1..first] + ["--"];
    assert r.operands == argv[first..optind] + argv[optind + 1..];
  }

  lemma TerminatorMoves(argv: seq<string>, first: nat, optind: nat)
    requires 1 <= first <= optind < |argv| && argv[optind] == "--"
    ensures Exchanged(argv, first, optind, optind + 1) ==
            [argv[0]] + (argv[1..first] + ["--"]) + (argv[first..optind] + argv[optind + 1..])
  {
    assert argv[..first] == [argv[0]] + argv[1..first] && argv[optind..optind + 1] == ["--"];
  }

  lemma TailFromHere(original: seq<string>, argv: seq<string>, optind: nat)
    requires optind < |argv| && optind <= |original| && argv[optind..] == original[optind..]
    ensures optind < |original| && original[optind] == argv[optind] && argv[optind + 1..] == original[optind + 1..]
  {
    assert argv[optind + 1..] == argv[optind..][1..] && original[optind + 1..] == original[optind..][1..];
    assert argv[optind..][0] == original[optind..][0];
  }

  lemma StartElement(opts: string, original: seq<string>, argv: seq<string>, reported: seq<Event>,
                     first: nat, optind: nat)
    requires GatheredAt(opts, original, argv, reported, first, optind)
    requires optind < |argv| && !NonOption(argv[optind]) && argv[optind] != "--"
    ensures ScanningAt(opts, original, argv, reported, first, optind, optind, argv[optind][1..])
  {
    assert argv[optind] == argv[optind..][0] == original[optind];
    assert argv[1..first] + argv[optind..optind] == argv[1..first];
  }

  lemma SliceOfTail(s: seq<string>, i: nat, j: nat)
    requires i <= j <= |s|
    ensures s[i..j] == s[i..][..j - i] && s[j..] == s[i..][j - i..]
  {
  }

  /** One letter: the scan stays inside the element, or leaves it with or without the next element. */
  lemma TakeLetter(opts: string, original: seq<string>, argv: seq<string>, reported: seq<Event>,
                   first: nat, last: nat, optind: nat, nextchar: string, e: Event, uses: Uses,
                   newOptind: nat, newNextchar: string)
    requires ScanningAt(opts, original, argv, reported, first, last, optind, nextchar) && nextchar != ""
    requires (e, uses) == ShortOption(opts, nextchar[0], nextchar[1..], Element(argv, optind + 1))
    requires newNextchar == if uses == Letter then nextchar[1..] else ""
    requires newOptind == if newNextchar != "" then optind else if uses == NextElement then optind + 2 else optind + 1
    ensures ScanningAt(opts, original, argv, reported + [e], first, last, newOptind, newNextchar)
  {
    if optind + 1 < |argv| {
      assert argv[optind + 1] == argv[optind..][1] == original[optind + 1];
    }
    assert argv[newOptind..] == argv[optind..][newOptind - optind..] == original[newOptind..];
    if newNextchar == "" {
      var rest := Reference(opts, original, newOptind);
      SliceOfTail(argv, optind, newOptind);
      SliceOfTail(original, optind, newOptind);
      assert argv[last..newOptind] == argv[last..optind] + argv[optind..newOptind];
      assert argv[1..first] + argv[last..newOptind] + rest.options
          == argv[1..first] + argv[last..optind] + (original[optind..newOptind] + rest.options);
      assert reported + [e] + rest.events == reported + ([e] + rest.events);
    } else {
      var rest := ReferenceElement(opts, original, optind, newNextchar);
      assert reported + [e] + rest.events == reported + ([e] + rest.events);
    }
  }

  class Scanner {
    const argv: array<string>
    const opts: string
    var optind: nat
    var nextchar: string        // "" for a null pointer and for the end of an element
    var firstNonopt: nat
    var lastNonopt: nat
    var optarg: Option<string>
    var optopt: char

    ghost const original: seq<string>
    ghost var reported: seq<Event>

    constructor (argv: array<string>, opts: string)
      requires argv.Length >= 1 && ShortOptionString(opts)
      ensures Scanning() && fresh(this)
      ensures this.argv == argv && this.opts == opts && original == argv[..] && reported == []
    {
      this.argv, this.opts := argv, opts;
      optind, firstNonopt, lastNonopt := 1, 1, 1;
      nextchar, optarg, optopt := "", None, '?';
      original, reported := argv[..], [];
    }

    ghost predicate Scanning()
      reads this, argv
    {
      ShortOptionString(opts)
      && ScanningAt(opts, original, argv[..], reported, firstNonopt, lastNonopt, optind, nextchar)
    }

    method Exchange()
      requires firstNonopt <= lastNonopt <= optind <= argv.Length
      modifies argv, this`firstNonopt, this`lastNonopt
      ensures argv[..] == Exchanged(old(argv[..]), old(firstNonopt), old(lastNonopt), optind)
      ensures lastNonopt == optind && lastNonopt - firstNonopt == old(lastNonopt - firstNonopt)
    {
      var bottom, middle, top := firstNonopt, lastNonopt, optind;
      ghost var goal := Exchanged(argv[..], bottom, middle, top);
      while top > middle && middle > bottom
        invariant firstNonopt <= bottom <= middle <= top <= optind
        invariant Exchanged(argv[..], bottom, middle, top) == goal
        modifies argv
        decreases top - bottom
      {
        if top - middle > middle - bottom {
          top := MoveBottom(argv, bottom, middle, top);
        } else {
          bottom := MoveTop(argv, bottom, middle, top);
        }
      }
      NothingToExchange(argv[..], bottom, middle, top);
      firstNonopt := firstNonopt + (optind - lastNonopt);
      lastNonopt := optind;
    }

    ghost predicate Gathered()
      reads this, argv
    {
      ShortOptionString(opts) && GatheredAt(opts, original, argv[..], reported, firstNonopt, optind)
    }

    /** The PERMUTE block: move the options read last in front of the operands skipped before them,
        then skip further operands. */
    method GatherOperands()
      requires Scanning() && nextchar == ""
      modifies argv, this`optind, this`firstNonopt, this`lastNonopt
      ensures Gathered() && lastNonopt == optind
      ensures optind < argv.Length ==> !NonOption(argv[optind])
    {
      ghost var before, first, last := argv[..], firstNonopt, lastNonopt;
      if firstNonopt != lastNonopt && lastNonopt != optind {
        Exchange();
        ExchangeGathers(opts, original, before, reported, first, last, optind);
      } else if lastNonopt != optind {
        firstNonopt := optind;
        AlreadyGathered(opts, original, before, reported, first, last, optind);
      } else {
        AlreadyGathered(opts, original, before, reported, first, last, optind);
      }
      SkipOperands();
      lastNonopt := optind;
    }

    method SkipOperands()
      requires Gathered()
      modifies this`optind
      ensures Gathered()
      ensures optind < argv.Length ==> !NonOption(argv[optind])
    {
      while optind < argv.Length && NonOption(argv[optind])
        invariant Gathered()
      {
        GatherOne(opts, original, argv[..], reported, firstNonopt, optind);
        optind := optind + 1;
      }
    }

    /** Skip "--" like an option, then treat everything after it as operands. */
    method TakeTerminator()
      requires Gathered() && lastNonopt == optind < argv.Length && argv[optind] == "--"
      modifies argv, this`optind, this`firstNonopt, this`lastNonopt
      ensures optind == lastNonopt == argv.Length && 1 <= firstNonopt
      ensures FinishedAt(opts, original, argv[..], reported, firstNonopt)
    {
      FinishAtTerminator(opts, original, argv[..], reported, firstNonopt, optind);
      ghost var before, first, last := argv[..], firstNonopt, lastNonopt;
      optind := optind + 1;
      if firstNonopt != lastNonopt && lastNonopt != optind {
        Exchange();
      } else if firstNonopt == lastNonopt {
        firstNonopt := optind;
        NothingToExchange(before, first, last, optind);
      }
      lastNonopt := argv.Length;
      optind := argv.Length;
    }

    /** What the caller sees of event e. */
    ghost predicate Shows(e: Event, code: char, oldOptopt: char)
      reads this
    {
      code == e.code && optarg == e.arg && optopt == if e.bad.Some? then e.bad.value else oldOptopt
    }

    /** Consume one letter of an option element, with the argument it may take. */
    method DecodeLetter(ghost e: Event, ghost uses: Uses) returns (code: char)
      requires nextchar != "" && optarg == None && optind < argv.Length
      requires (e, uses) == ShortOption(opts, nextchar[0], nextchar[1..], Element(argv[..], optind + 1))
      modifies this`optind, this`nextchar, this`optarg, this`optopt
      ensures Shows(e, code, old(optopt))
      ensures nextchar == if uses == Letter then old(nextchar)[1..] else ""
      ensures optind == if nextchar != "" then old(optind)
                        else if uses == NextElement then old(optind) + 2 else old(optind) + 1
    {
      code := nextchar[0];
      nextchar := nextchar[1..];
      var temp := MyIndex(opts, code);
      if nextchar == "" {
        optind := optind + 1;
      }
      if temp == |opts| || code == ':' {
        optopt := code;
        return '?';
      }
      if CharAt(opts, temp + 1) == ':' {
        if CharAt(opts, temp + 2) == ':' {
          if nextchar != "" {
            optarg := Some(nextchar);
            optind := optind + 1;
          } else {
            optarg := None;
          }
        } else {
          if nextchar != "" {
            optarg := Some(nextchar);
            optind := optind + 1;
          } else if optind == argv.Length {
            optopt := code;
            code := if opts[0] == ':' then ':' else '?';
          } else {
            optarg := Some(argv[optind]);
            optind := optind + 1;
          }
        }
        nextchar := "";
      }
    }

    /** Advance to the next option element, if there is one. */
    method AdvanceElement() returns (done: bool)
      requires Scanning() && nextchar == ""
      modifies argv, this`optind, this`firstNonopt, this`lastNonopt, this`nextchar
      ensures !done ==> Scanning() && nextchar != ""
      ensures done ==> FinishedAt(opts, original, argv[..], reported, optind)
    {
      GatherOperands();
      if optind != argv.Length && argv[optind] == "--" {
        TakeTerminator();
      }
      if optind == argv.Length {
        if Gathered() { FinishAtEnd(opts, original, argv[..], reported, firstNonopt); }
        if firstNonopt != lastNonopt {
          optind := firstNonopt;
        }
        return true;
      }
      StartElement(opts, original, argv[..], reported, firstNonopt, optind);
      nextchar := argv[optind][1..];
      return false;
    }

    /** Report the letter at nextchar. */
    method TakeOption() returns (code: char)
      requires Scanning() && nextchar != "" && optarg == None
      modifies this
      ensures Scanning()
      ensures |reported| == |old(reported)| + 1 && reported[..|old(reported)|] == old(reported)
      ensures Shows(reported[|old(reported)|], code, old(optopt))
    {
      ghost var (e, uses) := ShortOption(opts, nextchar[0], nextchar[1..], Element(argv[..], optind + 1));
      ghost var start, text := optind, nextchar;
      code := DecodeLetter(e, uses);
      TakeLetter(opts, original, argv[..], reported, firstNonopt, lastNonopt, start, text, e, uses, optind, nextchar);
      reported := reported + [e];
    }

    /** One call of getopt. It reports the next event of the reference, or ends the scan with argv
        rearranged into options followed by operands and optind at the first operand. Either way argv
        is a permutation of the original arguments. */
    method Next() returns (code: Option<char>)
      requires Scanning()
      modifies this, argv
      ensures code.Some? ==>
                && Scanning()
                && |reported| == |old(reported)| + 1 && reported[..|old(reported)|] == old(reported)
                && Shows(reported[|old(reported)|], code.value, old(optopt))
      ensures code.None? ==>
                && FinishedAt(opts, original, argv[..], reported, optind)
                && reported == old(reported) && optarg == None && optopt == old(optopt)
      ensures multiset(argv[..]) == multiset(original)
    {
      hide ScanningAt, FinishedAt;
      optarg := None;
      if nextchar == "" {
        var done := AdvanceElement();
        if done {
          FinishedPermutes(opts, original, argv[..], reported, optind);
          return None;
        }
      }
      var c := TakeOption();
      ScanningPermutes(opts, original, argv[..], reported, firstNonopt, lastNonopt, optind, nextchar);
      code := Some(c);
    }
  }

  /** What a caller sees of a list of events: the returned characters with optarg. */
  function Visible(events: seq<Event>): seq<(char, Option<string>)> {
    seq(|events|, k requires 0 <= k < |events| => (events[k].code, events[k].arg))
  }

  lemma VisibleGrows(before: seq<Event>, after: seq<Event>)
    requires |after| == |before| + 1 && after[..|before|] == before
    ensures Visible(after) == Visible(before) + [(after[|before|].code, after[|before|].arg)]
  {
    assert forall k :: 0 <= k < |before| ==> after[..|before|][k] == before[k];
  }

  lemma ReportedSoFar(scanner: Scanner)
    requires scanner.Scanning()
    ensures |scanner.reported| <= |Reference(scanner.opts, scanner.original, 1).events|
  {
  }

  /** The caller's loop: calls getopt until it returns -1. */
  method ScanAll(argv: array<string>, opts: string) returns (report: seq<(char, Option<string>)>, firstOperand: nat)
    requires argv.Length >= 1 && ShortOptionString(opts)
    modifies argv
    ensures var r := Reference(opts, old(argv[..]), 1);
            && argv[..] == [old(argv[..])[0]] + r.options + r.operands
            && firstOperand == 1 + |r.options|
            && report == Visible(r.events)
    ensures multiset(argv[..]) == multiset(old(argv[..]))
  {
    var scanner := new Scanner(argv, opts);
    report := [];
    ReportedSoFar(scanner);
    while true
      invariant scanner.Scanning() && scanner.argv == argv && scanner.opts == opts
      invariant scanner.original == old(argv[..])
      invariant report == Visible(scanner.reported)
      invariant |scanner.reported| <= |Reference(opts, old(argv[..]), 1).events|
      decreases |Reference(opts, old(argv[..]), 1).events| - |scanner.reported|
    {
      ghost var before := scanner.reported;
      var code := scanner.Next();
      if code.None? {
        firstOperand := scanner.optind;
        return;
      }
      report := report + [(code.value, scanner.optarg)];
      VisibleGrows(before, scanner.reported);
      ReportedSoFar(scanner);
    }
  }
}
