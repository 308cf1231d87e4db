/** What a command line means, whatever way it is written: options and operands rendered into arguments come
    back from the scan as they were. */
module CommandLine {
  import opened Getopt

  // ----- the options a program declares -----

  datatype Takes = Nothing | Required | Optional

  datatype Declared = Declared(letter: char, takes: Takes)

  function Colons(t: Takes): string {
    match t
    case Nothing => ""
    case Required => ":"
    case Optional => "::"
  }

  function Letters(ds: seq<Declared>): string {
    if ds == [] then "" else [ds[0].letter] + Colons(ds[0].takes) + Letters(ds[1..])
  }

  /** A leading ':' asks for ':' instead of '?' when an argument is missing. */
  function OptionString(quiet: bool, ds: seq<Declared>): string {
    (if quiet then ":" else "") + Letters(ds)
  }

  function LookUp(ds: seq<Declared>, c: char): Option<Takes> {
    if ds == [] then None else if ds[0].letter == c then Some(ds[0].takes) else LookUp(ds[1..], c)
  }

  /** Each letter is declared once, and ':' is none. */
  predicate Declares(ds: seq<Declared>) {
    ds != [] ==> ds[0].letter != ':' && LookUp(ds[1..], ds[0].letter) == None && Declares(ds[1..])
  }

  // ----- what a user means, and how it may be written -----

  /** How an element that holds options ends: with the last flag, with an argument in the same element, with one
      in the next element, or with an optional argument left out. */
  datatype Ending = LastFlag | Attached(letter: char, arg: string) | Separate(letter: char, arg: string) | Bare(letter: char)

  datatype Item = Cluster(flags: string, ending: Ending) | Operand(text: string)

  /** The line ends, or a "--" protects what follows, or the last option misses its argument. */
  datatype Tail = End | Protected(rest: seq<string>) | Missing(flags: string, letter: char)

  /** The text behind the '-' of an element. */
  function Body(flags: string, ending: Ending): string {
    match ending
    case LastFlag => flags
    case Attached(c, a) => flags + [c] + a
    case Separate(c, _) => flags + [c]
    case Bare(c) => flags + [c]
  }

  function Rendered(it: Item): seq<string> {
    match it
    case Operand(s) => [s]
    case Cluster(flags, ending) =>
      if ending.Separate? then ["-" + Body(flags, ending), ending.arg] else ["-" + Body(flags, ending)]
  }

  function RenderedTail(t: Tail): seq<string> {
    match t
    case End => []
    case Protected(rest) => ["--"] + rest
    case Missing(flags, c) => ["-" + flags + [c]]
  }

  function Line(items: seq<Item>, t: Tail): seq<string> {
    if items == [] then RenderedTail(t) else Rendered(items[0]) + Line(items[1..], t)
  }

  /** A letter that takes no argument, or that is not declared at all. */
  predicate IsFlag(ds: seq<Declared>, c: char) {
    LookUp(ds, c) == None || LookUp(ds, c) == Some(Nothing)
  }

  predicate AreFlags(ds: seq<Declared>, flags: string) {
    forall k :: 0 <= k < |flags| ==> IsFlag(ds, flags[k])
  }

  predicate Proper(ds: seq<Declared>, it: Item) {
    match it
    case Operand(s) => NonOption(s)
    case Cluster(flags, ending) =>
      && AreFlags(ds, flags) && Body(flags, ending) != "" && Body(flags, ending) != "-"
      && match ending
         case LastFlag => true
         case Attached(c, a) => a != "" && (LookUp(ds, c) == Some(Required) || LookUp(ds, c) == Some(Optional))
         case Separate(c, _) => LookUp(ds, c) == Some(Required)
         case Bare(c) => LookUp(ds, c) == Some(Optional)
  }

  predicate ProperTail(ds: seq<Declared>, t: Tail) {
    t.Missing? ==> AreFlags(ds, t.flags) && LookUp(ds, t.letter) == Some(Required) && t.flags + [t.letter] != "-"
  }

  ghost predicate AllProper(ds: seq<Declared>, items: seq<Item>) {
    forall k :: 0 <= k < |items| ==> Proper(ds, items[k])
  }

  // ----- what the scan should say -----

  function FlagEvents(ds: seq<Declared>, flags: string): seq<Event> {
    if flags == "" then []
    else [if LookUp(ds, flags[0]) == None then Event('?', None, Some(flags[0])) else Event(flags[0], None, None)]
         + FlagEvents(ds, flags[1..])
  }

  function EndingEvents(ending: Ending): seq<Event> {
    match ending
    case LastFlag => []
    case Attached(c, a) => [Event(c, Some(a), None)]
    case Separate(c, a) => [Event(c, Some(a), None)]
    case Bare(c) => [Event(c, None, None)]
  }

  function ItemEvents(ds: seq<Declared>, it: Item): seq<Event> {
    if it.Operand? then [] else FlagEvents(ds, it.flags) + EndingEvents(it.ending)
  }

  function Meant(ds: seq<Declared>, quiet: bool, items: seq<Item>, t: Tail): Outcome {
    if items == [] then
      match t
      case End => Outcome([], [], [], false)
      case Protected(rest) => Outcome([], ["--"], rest, true)
      case Missing(flags, c) =>
        Outcome(FlagEvents(ds, flags) + [Event(if quiet then ':' else '?', None, Some(c))], RenderedTail(t), [], false)
    else
      var r := Meant(ds, quiet, items[1..], t);
      var it := items[0];
      if it.Operand? then r.(operands := [it.text] + r.operands)
      else Outcome(ItemEvents(ds, it) + r.events, Rendered(it) + r.options, r.operands, r.ended)
  }

  // ----- looking up a letter -----

  lemma IndexOfPrefix(x: char, s: string, c: char)
    ensures IndexOf([x] + s, c) == if x == c then 0 else 1 + IndexOf(s, c)
  {
    assert ([x] + s)[1..] == s;
  }

  lemma CharOfPrefix(x: string, s: string, k: nat)
    ensures CharAt(x + s, |x| + k) == CharAt(s, k)
  {
  }

  /** What stands at a letter of the option string: its colons and no more. */
  predicate StandsAs(s: string, c: char, t: Option<Takes>) {
    var k := IndexOf(s, c);
    match t
    case None => k == |s|
    case Some(takes) =>
      k < |s| && (CharAt(s, k + 1) == ':' <==> takes != Nothing) && (takes != Nothing ==> (CharAt(s, k + 2) == ':' <==> takes == Optional))
  }

  lemma NoColonFirst(ds: seq<Declared>)
    requires Declares(ds)
    ensures CharAt(Letters(ds), 0) != ':'
  {
  }

  lemma {:induction false} LetterStands(ds: seq<Declared>, c: char)
    requires Declares(ds) && c != ':'
    ensures StandsAs(Letters(ds), c, LookUp(ds, c))
  {
    if ds != [] {
      var d, rest := ds[0], Letters(ds[1..]);
      var colons := Colons(d.takes);
      assert Letters(ds) == [d.letter] + (colons + rest);
      IndexOfPrefix(d.letter, colons + rest, c);
      NoColonFirst(ds[1..]);
      if d.letter == c {
        CharOfPrefix([d.letter], colons + rest, 0);
        CharOfPrefix([d.letter], colons + rest, 1);
        FirstBehindColons(d.takes, rest);
      } else {
        LetterStands(ds[1..], c);
        PastColons(d.takes, rest, c);
        PrefixStands([d.letter] + colons, rest, c, LookUp(ds[1..], c));
        assert ([d.letter] + colons) + rest == [d.letter] + (colons + rest);
      }
    }
  }

  lemma FirstBehindColons(t: Takes, rest: string)
    requires CharAt(rest, 0) != ':'
    ensures CharAt(Colons(t) + rest, 0) == ':' <==> t != Nothing
    ensures t != Nothing ==> (CharAt(Colons(t) + rest, 1) == ':' <==> t == Optional)
  {
    CharOfPrefix(Colons(t), rest, 0);
  }

  lemma PastColons(t: Takes, rest: string, c: char)
    requires c != ':'
    ensures IndexOf(Colons(t) + rest, c) == |Colons(t)| + IndexOf(rest, c)
  {
    if t == Nothing {
      assert Colons(t) + rest == rest;
    } else if t == Required {
      IndexOfPrefix(':', rest, c);
    } else {
      IndexOfPrefix(':', rest, c);
      IndexOfPrefix(':', ":" + rest, c);
      assert Colons(t) + rest == [':'] + (":" + rest);
    }
  }

  lemma PrefixStands(pre: string, s: string, c: char, t: Option<Takes>)
    requires StandsAs(s, c, t) && IndexOf(pre + s, c) == |pre| + IndexOf(s, c)
    ensures StandsAs(pre + s, c, t)
  {
    var k := IndexOf(s, c);
    CharOfPrefix(pre, s, k + 1);
    CharOfPrefix(pre, s, k + 2);
  }

  lemma Stands(quiet: bool, ds: seq<Declared>, c: char)
    requires Declares(ds) && c != ':'
    ensures StandsAs(OptionString(quiet, ds), c, LookUp(ds, c))
  {
    LetterStands(ds, c);
    if quiet {
      IndexOfPrefix(':', Letters(ds), c);
      PrefixStands(":", Letters(ds), c, LookUp(ds, c));
    } else {
      assert "" + Letters(ds) == Letters(ds);
    }
  }

  lemma FirstCharacter(quiet: bool, ds: seq<Declared>)
    requires Declares(ds)
    ensures OptionString(quiet, ds) != "" ==> (OptionString(quiet, ds)[0] == ':' <==> quiet)
  {
    NoColonFirst(ds);
    assert "" + Letters(ds) == Letters(ds);
  }

  // ----- one letter -----

  lemma FlagMeans(quiet: bool, ds: seq<Declared>, c: char, rest: string, next: Option<string>)
    requires Declares(ds) && IsFlag(ds, c)
    ensures ShortOption(OptionString(quiet, ds), c, rest, next) ==
            (if LookUp(ds, c) == None then Event('?', None, Some(c)) else Event(c, None, None), Letter)
  {
    hide OptionString;
    if c == ':' { ColonIsUndeclared(ds); } else { Stands(quiet, ds, c); }
  }

  lemma {:induction false} ColonIsUndeclared(ds: seq<Declared>)
    requires Declares(ds)
    ensures LookUp(ds, ':') == None
  {
    if ds != [] { ColonIsUndeclared(ds[1..]); }
  }

  lemma ArgumentMeans(quiet: bool, ds: seq<Declared>, c: char, rest: string, next: Option<string>)
    requires Declares(ds) && (LookUp(ds, c) == Some(Required) || LookUp(ds, c) == Some(Optional))
    ensures ShortOption(OptionString(quiet, ds), c, rest, next) ==
            if rest != "" then (Event(c, Some(rest), None), RestOfElement)
            else if LookUp(ds, c) == Some(Optional) then (Event(c, None, None), RestOfElement)
            else if next == None then (Event(if quiet then ':' else '?', None, Some(c)), RestOfElement)
            else (Event(c, next, None), NextElement)
  {
    hide OptionString;
    ColonIsUndeclared(ds);
    Stands(quiet, ds, c);
    FirstCharacter(quiet, ds);
  }

  // ----- one element -----

  /** The flags of an element are reported one by one; then the scan goes on with what is left of it. */
  lemma {:induction false} FlagsAreRead(quiet: bool, ds: seq<Declared>, args: seq<string>, flags: string, body: string)
    requires Declares(ds) && AreFlags(ds, flags) && args != [] && body != ""
    ensures var opts := OptionString(quiet, ds);
            var r := ReferenceElement(opts, args, 0, body);
            ReferenceElement(opts, args, 0, flags + body) == r.(events := FlagEvents(ds, flags) + r.events)
    decreases |flags|
  {
    hide OptionString, ShortOption;
    var opts := OptionString(quiet, ds);
    if flags == "" {
      assert flags + body == body;
    } else {
      assert (flags + body)[1..] == flags[1..] + body;
      FlagMeans(quiet, ds, flags[0], flags[1..] + body, Element(args, 1));
      FlagsAreRead(quiet, ds, args, flags[1..], body);
    }
  }

  /** A last flag, or a letter with its argument, ends the element. */
  lemma LetterEnds(quiet: bool, ds: seq<Declared>, used: seq<string>, rest: seq<string>, body: string, e: Event, uses: Uses)
    requires used != [] && body != "" && |used| == (if uses == NextElement then 2 else 1)
    requires ShortOption(OptionString(quiet, ds), body[0], body[1..], Element(used + rest, 1)) == (e, uses)
    requires !(uses == Letter && body[1..] != "")
    ensures var opts := OptionString(quiet, ds);
            var r := Reference(opts, rest, 0);
            ReferenceElement(opts, used + rest, 0, body) == Outcome([e] + r.events, used + r.options, r.operands, r.ended)
  {
    hide OptionString, ShortOption;
    LeaveElement(OptionString(quiet, ds), used, rest, body, e, uses);
  }

  /** What a scan says whose first arguments were read as events es. */
  function Then(es: seq<Event>, used: seq<string>, r: Outcome): Outcome {
    Outcome(es + r.events, used + r.options, r.operands, r.ended)
  }

  lemma EndingIsRead(quiet: bool, ds: seq<Declared>, flags: string, ending: Ending, rest: seq<string>)
    requires Declares(ds) && Proper(ds, Cluster(flags, ending)) && !ending.LastFlag?
    ensures var opts, used := OptionString(quiet, ds), Rendered(Cluster(flags, ending));
            ReferenceElement(opts, used + rest, 0, Body(flags, ending)) ==
            Then(FlagEvents(ds, flags) + EndingEvents(ending), used, Reference(opts, rest, 0))
  {
    hide OptionString, ShortOption, Reference, ReferenceElement, LookUp, FlagEvents;
    var opts, used := OptionString(quiet, ds), Rendered(Cluster(flags, ending));
    var body := [ending.letter] + if ending.Attached? then ending.arg else "";
    assert Body(flags, ending) == flags + body && body[1..] == if ending.Attached? then ending.arg else "";
    FlagsAreRead(quiet, ds, used + rest, flags, body);
    ArgumentMeans(quiet, ds, ending.letter, body[1..], Element(used + rest, 1));
    var uses := if ending.Separate? then NextElement else RestOfElement;
    LetterEnds(quiet, ds, used, rest, body, EndingEvents(ending)[0], uses);
    EventsJoin(FlagEvents(ds, flags), EndingEvents(ending)[0], Reference(opts, rest, 0).events);
  }

  lemma EventsJoin(a: seq<Event>, e: Event, b: seq<Event>)
    ensures a + ([e] + b) == (a + [e]) + b
  {
  }

  lemma FlagsOnly(quiet: bool, ds: seq<Declared>, flags: string, rest: seq<string>)
    requires Declares(ds) && AreFlags(ds, flags) && flags != ""
    ensures var opts, used := OptionString(quiet, ds), ["-" + flags];
            ReferenceElement(opts, used + rest, 0, flags) == Then(FlagEvents(ds, flags), used, Reference(opts, rest, 0))
  {
    hide OptionString, ShortOption, Reference, ReferenceElement, LookUp;
    var opts, used := OptionString(quiet, ds), ["-" + flags];
    var n := |flags| - 1;
    var last := flags[n..];
    assert flags == flags[..n] + last && last[1..] == "";
    FlagsAreRead(quiet, ds, used + rest, flags[..n], last);
    FlagMeans(quiet, ds, flags[n], "", Element(used + rest, 1));
    LetterEnds(quiet, ds, used, rest, last, FlagEvents(ds, last)[0], Letter);
    FlagEventsSplit(ds, flags[..n], last);
    EventsJoin(FlagEvents(ds, flags[..n]), FlagEvents(ds, last)[0], Reference(opts, rest, 0).events);
  }

  lemma {:induction false} FlagEventsSplit(ds: seq<Declared>, a: string, b: string)
    ensures FlagEvents(ds, a + b) == FlagEvents(ds, a) + FlagEvents(ds, b)
    decreases |a|
  {
    if a == "" {
      assert a + b == b;
    } else {
      assert (a + b)[1..] == a[1..] + b;
      FlagEventsSplit(ds, a[1..], b);
    }
  }

  lemma OperandIsRead(opts: string, x: string, rest: seq<string>)
    requires NonOption(x)
    ensures var r := Reference(opts, rest, 0); Reference(opts, [x] + rest, 0) == r.(operands := [x] + r.operands)
  {
    ReferenceOfSuffix(opts, [x], rest, 0);
  }

  lemma ElementIsScanned(opts: string, args: seq<string>, body: string)
    requires args != [] && args[0] == "-" + body && body != "" && body != "-"
    ensures Reference(opts, args, 0) == ReferenceElement(opts, args, 0, body)
  {
    hide ReferenceElement;
    assert args[0][1..] == body;
  }

  /** One item, whatever follows. */
  lemma ItemIsRead(quiet: bool, ds: seq<Declared>, it: Item, rest: seq<string>)
    requires Declares(ds) && Proper(ds, it)
    ensures var opts := OptionString(quiet, ds);
            var r := Reference(opts, rest, 0);
            Reference(opts, Rendered(it) + rest, 0) ==
            if it.Operand? then r.(operands := [it.text] + r.operands) else Then(ItemEvents(ds, it), Rendered(it), r)
  {
    hide OptionString, LookUp, FlagEvents, ReferenceElement, Reference, Declares, Body;
    if it.Operand? {
      OperandIsRead(OptionString(quiet, ds), it.text, rest);
    } else {
      ElementIsScanned(OptionString(quiet, ds), Rendered(it) + rest, Body(it.flags, it.ending));
      if it.ending.LastFlag? {
        BodyOfFlags(it.flags);
        FlagsOnly(quiet, ds, it.flags, rest);
      } else {
        EndingIsRead(quiet, ds, it.flags, it.ending, rest);
      }
    }
  }

  lemma BodyOfFlags(flags: string)
    ensures Body(flags, LastFlag) == flags
  {
  }

  lemma MissingIsRead(quiet: bool, ds: seq<Declared>, flags: string, c: char)
    requires Declares(ds) && ProperTail(ds, Missing(flags, c))
    ensures Reference(OptionString(quiet, ds), ["-" + flags + [c]], 0) == Meant(ds, quiet, [], Missing(flags, c))
  {
    hide OptionString, LookUp, FlagEvents, ShortOption;
    var opts, used := OptionString(quiet, ds), ["-" + flags + [c]];
    var e := Event(if quiet then ':' else '?', None, Some(c));
    assert used[0][1..] == flags + [c] && [c][1..] == "" && used + [] == used;
    FlagsAreRead(quiet, ds, used, flags, [c]);
    ArgumentMeans(quiet, ds, c, "", None);
    LetterEnds(quiet, ds, used, [], [c], e, RestOfElement);
    EventsJoin(FlagEvents(ds, flags), e, []);
  }

  lemma TailIsRead(quiet: bool, ds: seq<Declared>, t: Tail)
    requires Declares(ds) && ProperTail(ds, t)
    ensures Reference(OptionString(quiet, ds), RenderedTail(t), 0) == Meant(ds, quiet, [], t)
  {
    hide OptionString, LookUp, FlagEvents, ReferenceElement;
    match t
    case End =>
    case Protected(rest) => assert (["--"] + rest)[1..] == rest;
    case Missing(flags, c) => MissingIsRead(quiet, ds, flags, c);
  }

  // ----- the whole line -----

  /** Whatever way the options are written, in clusters, with their arguments attached, separate or left out, and
      mixed with operands, the scan says what was meant: every letter with its argument, in order, letters that
      are not declared and an argument missing at the end as such, and the operands. */
  lemma {:induction false} LineIsRead(quiet: bool, ds: seq<Declared>, items: seq<Item>, t: Tail)
    requires Declares(ds) && AllProper(ds, items) && ProperTail(ds, t)
    ensures Reference(OptionString(quiet, ds), Line(items, t), 0) == Meant(ds, quiet, items, t)
    decreases |items|
  {
    hide OptionString, Reference, ItemEvents, Rendered, RenderedTail, Proper, ProperTail, Declares;
    if items == [] {
      TailIsRead(quiet, ds, t);
    } else {
      assert forall k :: 0 <= k < |items[1..]| ==> items[1..][k] == items[k + 1];
      LineIsRead(quiet, ds, items[1..], t);
      ItemIsRead(quiet, ds, items[0], Line(items[1..], t));
    }
  }

  lemma ProgramLineIsRead(name: string, quiet: bool, ds: seq<Declared>, items: seq<Item>, t: Tail)
    requires Declares(ds) && AllProper(ds, items) && ProperTail(ds, t)
    ensures Reference(OptionString(quiet, ds), [name] + Line(items, t), 1) == Meant(ds, quiet, items, t)
  {
    hide OptionString, Reference;
    LineIsRead(quiet, ds, items, t);
    ReferenceOfSuffix(OptionString(quiet, ds), [name], Line(items, t), 0);
  }

  /** And so do the calls of getopt over the argument list in memory, which leave the options in front of the
      operands. */
  method ScanLine(argv: array<string>, quiet: bool, ds: seq<Declared>, ghost items: seq<Item>, ghost t: Tail)
    returns (report: seq<(char, Option<string>)>, firstOperand: nat)
    requires Declares(ds) && AllProper(ds, items) && ProperTail(ds, t)
    requires argv.Length >= 1 && argv[..] == [argv[0]] + Line(items, t) && ShortOptionString(OptionString(quiet, ds))
    modifies argv
    ensures var m := Meant(ds, quiet, items, t);
            && report == Visible(m.events) && firstOperand == 1 + |m.options|
            && argv[..] == [old(argv[0])] + m.options + m.operands
  {
    hide OptionString, Reference, Meant, Line, ShortOptionString;
    ProgramLineIsRead(argv[0], quiet, ds, items, t);
    report, firstOperand := ScanAll(argv, OptionString(quiet, ds));
  }
}
