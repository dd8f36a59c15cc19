/** What a command line means (packages/agent/args.go:171-384), without the parser: the
    one way to read it as switches, flags with values and words, and what each setting is
    then: of the settings taken once the last value counts, of the lists every value in
    order. The parser of module Args gives just that, or refuses where the reading ends. */
module ArgsMeaning {
  import opened Transcript
  import opened Args

  /** One argument, or a flag together with the argument that is its value. */
  datatype Item = Single(flag: string) | Pair(flag: string, value: string) | Word(text: string)

  function Render(i: Item): (line: seq<string>)
    ensures line != []
  {
    match i
    case Single(flag) => [flag]
    case Pair(flag, value) => [flag, value]
    case Word(text) => [text]
  }

  /** The table has this under the name behind the dashes. */
  ghost predicate Named(table: map<string, Kind>, dashes: string, s: string, k: Kind) {
    exists name :: name != "" && s == dashes + name && name in table && table[name] == k
  }

  ghost predicate Undashed(short: map<string, Kind>) {
    forall name :: name in short ==> name != "" && name[0] != '-'
  }

  lemma ProgramIsUndashed()
    ensures Undashed(SHORT)
  {
  }

  lemma NamedLong(table: map<string, Kind>, s: string, k: Kind)
    ensures Named(table, "--", s, k) <==> |s| > 2 && s[0] == s[1] == '-' && s[2..] in table && table[s[2..]] == k
  {
    if |s| > 2 && s[0] == s[1] == '-' {
      assert s == "--" + s[2..];
    }
    if name :| name != "" && s == "--" + name {
      assert s[2..] == name;
    }
  }

  lemma NamedShort(table: map<string, Kind>, s: string, k: Kind)
    ensures Named(table, "-", s, k) <==> |s| > 1 && s[0] == '-' && s[1..] in table && table[s[1..]] == k
  {
    if |s| > 1 && s[0] == '-' {
      assert s == "-" + s[1..];
    }
    if name :| name != "" && s == "-" + name {
      assert s[1..] == name;
    }
  }

  /** Two dashes in front of a flag with a value or of a switch, one in front of a short
      flag: there are no other flags. */
  lemma FlagNames(lex: Lexicon, s: string, k: Kind)
    requires Undashed(lex.short)
    ensures KindOf(lex, s) == Some(k)
            <==> || Named(lex.values, "--", s, k)
                 || (Named(lex.switches, "--", s, k) && forall v :: !Named(lex.values, "--", s, v))
                 || Named(lex.short, "-", s, k)
  {
    forall v ensures Named(lex.values, "--", s, v) <==> |s| > 2 && s[0] == s[1] == '-' && s[2..] in lex.values && lex.values[s[2..]] == v {
      NamedLong(lex.values, s, v);
    }
    if |s| > 2 && s[2..] in lex.values {
      NamedLong(lex.values, s, lex.values[s[2..]]);
    }
    NamedLong(lex.switches, s, k);
    NamedShort(lex.short, s, k);
    if |s| > 1 && s[1..] in lex.short {
      assert s[1..][0] == s[1];
    }
  }

  predicate IsFlag(lex: Lexicon, s: string) {
    s != DASHES && KindOf(lex, s).Some?
  }

  /** The value is one that this flag takes. */
  predicate Readable(lex: Lexicon, s: Setting, v: string) {
    match s
    case Reasoning => lex.reasoning(v).Some?
    case Temperature => lex.temperature(v).Some?
    case MaxSteps => lex.maxSteps(v).Some?
    case _ => true
  }

  /** A session ID behind the resume flag belongs to it, anything else does not. */
  predicate Proper(lex: Lexicon, i: Item, next: seq<string>) {
    match i
    case Word(t) => t != DASHES && KindOf(lex, t) == None && !Dashed(t)
    case Pair(f, v) =>
      && IsFlag(lex, f)
      && (match KindOf(lex, f).value
          case Takes(s) => Readable(lex, s, v)
          case Resumes => IsID(lex, v)
          case _ => false)
    case Single(f) =>
      && IsFlag(lex, f) && !KindOf(lex, f).value.Takes?
      && (KindOf(lex, f).value.Resumes? && next != [] ==> !IsID(lex, next[0]))
  }

  /** Why reading stops in front of this, if not for the end or the terminator. */
  predicate Faulty(lex: Lexicon, tail: seq<string>, why: Failure) {
    && tail != [] && tail[0] != DASHES
    && match why
       case UnknownFlag => KindOf(lex, tail[0]) == None && Dashed(tail[0])
       case MissingValue => KindOf(lex, tail[0]).Some? && KindOf(lex, tail[0]).value.Takes? && |tail| == 1
       case BadValue => KindOf(lex, tail[0]).Some? && KindOf(lex, tail[0]).value.Takes? && |tail| > 1
                        && !Readable(lex, KindOf(lex, tail[0]).value.setting, tail[1])
       case StatsNeedsPrint => false
  }

  predicate Complete(tail: seq<string>) {
    tail == [] || tail[0] == DASHES
  }

  /** The line is these items and the tail, and the items are read as they must be. */
  ghost predicate Splits(lex: Lexicon, line: seq<string>, items: seq<Item>, tail: seq<string>) {
    if items == [] then line == tail && (Complete(tail) || exists why :: Faulty(lex, tail, why))
    else
      && Render(items[0]) <= line
      && Proper(lex, items[0], line[|Render(items[0])|..])
      && Splits(lex, line[|Render(items[0])|..], items[1..], tail)
  }

  // ------------------------------------------------------------- what items say

  /** All values given to a setting, in order. */
  function Values(lex: Lexicon, items: seq<Item>, s: Setting): seq<string> {
    if items == [] then []
    else Given(lex, items[0], s) + Values(lex, items[1..], s)
  }

  function Given(lex: Lexicon, i: Item, s: Setting): seq<string> {
    if i.Pair? && KindOf(lex, i.flag) == Some(Takes(s)) then [i.value] else []
  }

  predicate TurnsOn(lex: Lexicon, i: Item, s: Switch) {
    i.Single? && KindOf(lex, i.flag) == Some(Turns(s))
  }

  predicate SelectsMode(lex: Lexicon, i: Item) {
    i.Single? && KindOf(lex, i.flag).Some? && KindOf(lex, i.flag).value.Selects?
  }

  function Modes(lex: Lexicon, items: seq<Item>): seq<Mode> {
    if items == [] then []
    else (if SelectsMode(lex, items[0]) then [KindOf(lex, items[0].flag).value.mode] else []) + Modes(lex, items[1..])
  }

  predicate ResumesAt(lex: Lexicon, i: Item) {
    !i.Word? && KindOf(lex, i.flag) == Some(Resumes)
  }

  /** The session IDs given to the resume flag, in order. */
  function ResumeIDs(lex: Lexicon, items: seq<Item>): seq<string> {
    if items == [] then []
    else (if items[0].Pair? && ResumesAt(lex, items[0]) then [CanonicalID(lex, items[0].value)] else [])
         + ResumeIDs(lex, items[1..])
  }

  function Words(items: seq<Item>): seq<string> {
    if items == [] then [] else (if items[0].Word? then [items[0].text] else []) + Words(items[1..])
  }

  /** The tools that all the lists name. */
  function ToolNames(lex: Lexicon, lists: seq<string>): seq<string> {
    if lists == [] then [] else lex.tools(lists[0]) + ToolNames(lex, lists[1..])
  }

  function LastOr<T>(xs: seq<T>, before: T): T {
    if xs == [] then before else Last(xs)
  }

  /** The settings that are one text. */
  function TextOf(a: Args, s: Setting): Option<string> {
    match s
    case Provider => Some(a.provider)
    case Model => Some(a.model)
    case SystemPrompt => Some(a.systemPrompt)
    case APIKey => Some(a.others.apiKey)
    case BaseURL => Some(a.others.baseURL)
    case Stats => Some(a.others.stats)
    case Session => Some(a.others.session)
    case CWD => Some(a.others.cwd)
    case _ => None
  }

  /** The settings that are lists of texts. */
  function ListOf(a: Args, s: Setting): Option<seq<string>> {
    match s
    case AppendSystemPrompt => Some(a.append)
    case Ext => Some(a.others.exts)
    case _ => None
  }

  /** The setting behind the items, given the one in front. */
  ghost predicate Says(lex: Lexicon, a: Args, items: seq<Item>, b: Args, s: Setting) {
    && (TextOf(a, s).Some? ==> TextOf(b, s) == Some(LastOr(Values(lex, items, s), TextOf(a, s).value)))
    && (ListOf(a, s).Some? ==> ListOf(b, s) == Some(ListOf(a, s).value + Values(lex, items, s)))
  }

  ghost predicate Numbers(lex: Lexicon, a: Others, items: seq<Item>, b: Others) {
    var levels, heats, limits, lists :=
      Values(lex, items, Setting.Reasoning), Values(lex, items, Temperature), Values(lex, items, MaxSteps), Values(lex, items, ToolList);
    && (if levels == [] then b.reasoning == a.reasoning else lex.reasoning(Last(levels)) == Some(b.reasoning))
    && (if heats == [] then b.temperature == a.temperature else b.temperature.Some? && b.temperature == lex.temperature(Last(heats)))
    && (if limits == [] then b.maxSteps == a.maxSteps else lex.maxSteps(Last(limits)) == Some(b.maxSteps))
    && b.toolsSet == (a.toolsSet || lists != [])
    && b.tools == a.tools + ToolNames(lex, lists)
  }

  ghost predicate Turned(lex: Lexicon, a: Others, items: seq<Item>, b: Others) {
    && b.mode == LastOr(Modes(lex, items), a.mode)
    && (forall s :: s in b.switches <==> s in a.switches || exists i :: i in items && TurnsOn(lex, i, s))
    && b.resume == (a.resume || exists i :: i in items && ResumesAt(lex, i))
    && b.resumeID == LastOr(ResumeIDs(lex, items), a.resumeID)
  }

  ghost predicate Adds(lex: Lexicon, a: Args, items: seq<Item>, b: Args) {
    && (forall s :: Says(lex, a, items, b, s))
    && Numbers(lex, a.others, items, b.others) && Turned(lex, a.others, items, b.others)
  }

  // ---------------------------------------------------------- one item in front

  lemma ValuesCons(lex: Lexicon, i: Item, items: seq<Item>, s: Setting)
    ensures Values(lex, [i] + items, s) == Given(lex, i, s) + Values(lex, items, s)
  {
    assert ([i] + items)[1..] == items;
  }

  lemma LastCons(lex: Lexicon, i: Item, items: seq<Item>, s: Setting, before: string)
    ensures LastOr(Values(lex, [i] + items, s), before) == LastOr(Values(lex, items, s), LastOr(Given(lex, i, s), before))
  {
    ValuesCons(lex, i, items, s);
  }

  /** What the parser makes of one item. */
  function Taken(lex: Lexicon, a: Args, i: Item): Option<Args> {
    match i
    case Word(_) => Some(a)
    case Single(f) =>
      if KindOf(lex, f) == None then None
      else
        (match KindOf(lex, f).value
         case Turns(s) => Some(a.(others := a.others.(switches := a.others.switches + {s})))
         case Selects(m) => Some(a.(others := a.others.(mode := m)))
         case Ignored => Some(a)
         case Resumes => Some(WithResume(a, None))
         case Takes(_) => None)
    case Pair(f, v) =>
      if KindOf(lex, f) == None then None
      else
        (match KindOf(lex, f).value
         case Takes(s) => WithValue(lex, a, s, v)
         case Resumes => Some(WithResume(a, Some(CanonicalID(lex, v))))
         case _ => None)
  }

  lemma ElsewhereSame(lex: Lexicon, a: Args, v: string, s0: Setting, s: Setting)
    requires WithValue(lex, a, s0, v).Some? && s0 != s
    ensures TextOf(WithValue(lex, a, s0, v).value, s) == TextOf(a, s) && ListOf(WithValue(lex, a, s0, v).value, s) == ListOf(a, s)
  {
  }

  lemma HereNew(lex: Lexicon, a: Args, v: string, s: Setting)
    requires WithValue(lex, a, s, v).Some?
    ensures var b := WithValue(lex, a, s, v).value;
            && (TextOf(a, s).Some? ==> TextOf(b, s) == Some(v))
            && (ListOf(a, s).Some? ==> ListOf(b, s) == Some(ListOf(a, s).value + [v]))
  {
  }

  ghost predicate SaysOne(lex: Lexicon, a: Args, i: Item, b: Args, s: Setting) {
    && (TextOf(a, s).Some? ==> TextOf(b, s) == Some(LastOr(Given(lex, i, s), TextOf(a, s).value)))
    && (ListOf(a, s).Some? ==> ListOf(b, s) == Some(ListOf(a, s).value + Given(lex, i, s)))
  }

  lemma SaysTaken(lex: Lexicon, a: Args, i: Item, s: Setting)
    requires Taken(lex, a, i).Some?
    ensures SaysOne(lex, a, i, Taken(lex, a, i).value, s)
  {
    assert ListOf(a, s).Some? ==> ListOf(a, s).value + [] == ListOf(a, s).value;
    if i.Pair? && KindOf(lex, i.flag).value.Takes? {
      var s0 := KindOf(lex, i.flag).value.setting;
      if s0 == s {
        HereNew(lex, a, i.value, s);
      } else {
        ElsewhereSame(lex, a, i.value, s0, s);
      }
    }
  }

  lemma SaysCons(lex: Lexicon, a: Args, i: Item, items: seq<Item>, t: Args, b: Args, s: Setting)
    requires SaysOne(lex, a, i, t, s) && Says(lex, t, items, b, s)
    ensures Says(lex, a, [i] + items, b, s)
  {
    if TextOf(a, s).Some? {
      LastCons(lex, i, items, s, TextOf(a, s).value);
    }
    if ListOf(a, s).Some? {
      ValuesCons(lex, i, items, s);
      ConcatAssociates(ListOf(a, s).value, Given(lex, i, s), Values(lex, items, s));
    }
  }

  /** One item's share of the settings that are read. */
  ghost predicate NumbersOne(lex: Lexicon, a: Others, i: Item, b: Others) {
    && (if Given(lex, i, Setting.Reasoning) == [] then b.reasoning == a.reasoning else lex.reasoning(i.value) == Some(b.reasoning))
    && (if Given(lex, i, Temperature) == [] then b.temperature == a.temperature
        else b.temperature.Some? && b.temperature == lex.temperature(i.value))
    && (if Given(lex, i, MaxSteps) == [] then b.maxSteps == a.maxSteps else lex.maxSteps(i.value) == Some(b.maxSteps))
    && b.toolsSet == (a.toolsSet || Given(lex, i, ToolList) != [])
    && b.tools == a.tools + ToolNames(lex, Given(lex, i, ToolList))
  }

  lemma NoTools(lex: Lexicon, v: string)
    ensures ToolNames(lex, [v]) == lex.tools(v) && ToolNames(lex, []) == []
  {
    assert [v][1..] == [] && lex.tools(v) + [] == lex.tools(v);
  }

  /** A value leaves the settings alone that are not its own. */
  lemma NumbersWith(lex: Lexicon, o: Others, s: Setting, v: string)
    requires WithOther(lex, o, s, v).Some?
    ensures var b := WithOther(lex, o, s, v).value;
            && (if s == Setting.Reasoning then lex.reasoning(v) == Some(b.reasoning) else b.reasoning == o.reasoning)
            && (if s == Temperature then b.temperature.Some? && b.temperature == lex.temperature(v) else b.temperature == o.temperature)
            && (if s == MaxSteps then lex.maxSteps(v) == Some(b.maxSteps) else b.maxSteps == o.maxSteps)
            && b.toolsSet == (o.toolsSet || s == ToolList)
            && b.tools == o.tools + if s == ToolList then lex.tools(v) else []
  {
    assert o.tools + [] == o.tools;
  }

  lemma NumbersGiven(lex: Lexicon, a: Args, i: Item)
    requires i.Pair? && KindOf(lex, i.flag).Some? && KindOf(lex, i.flag).value.Takes?
    requires WithValue(lex, a, KindOf(lex, i.flag).value.setting, i.value).Some?
    ensures NumbersOne(lex, a.others, i, WithValue(lex, a, KindOf(lex, i.flag).value.setting, i.value).value.others)
  {
    var s := KindOf(lex, i.flag).value.setting;
    NoTools(lex, i.value);
    if s.Provider? || s.Model? || s.SystemPrompt? || s.AppendSystemPrompt? {
      assert a.others.tools + [] == a.others.tools;
    } else {
      NumbersWith(lex, a.others, s, i.value);
    }
  }

  lemma NumbersTaken(lex: Lexicon, a: Args, i: Item)
    requires Taken(lex, a, i).Some?
    ensures NumbersOne(lex, a.others, i, Taken(lex, a, i).value.others)
  {
    if i.Pair? && KindOf(lex, i.flag).value.Takes? {
      NumbersGiven(lex, a, i);
    } else {
      assert a.others.tools + [] == a.others.tools;
    }
  }

  lemma {:induction false} ToolNamesConcat(lex: Lexicon, xs: seq<string>, ys: seq<string>)
    ensures ToolNames(lex, xs + ys) == ToolNames(lex, xs) + ToolNames(lex, ys)
  {
    if xs == [] {
      assert xs + ys == ys;
    } else {
      assert (xs + ys)[0] == xs[0] && (xs + ys)[1..] == xs[1..] + ys;
      ToolNamesConcat(lex, xs[1..], ys);
      ConcatAssociates(lex.tools(xs[0]), ToolNames(lex, xs[1..]), ToolNames(lex, ys));
    }
  }

  lemma NumbersCons(lex: Lexicon, a: Others, i: Item, items: seq<Item>, t: Others, b: Others)
    requires NumbersOne(lex, a, i, t) && Numbers(lex, t, items, b)
    ensures Numbers(lex, a, [i] + items, b)
  {
    ValuesCons(lex, i, items, Setting.Reasoning);
    ValuesCons(lex, i, items, Temperature);
    ValuesCons(lex, i, items, MaxSteps);
    ValuesCons(lex, i, items, ToolList);
    ToolNamesConcat(lex, Given(lex, i, ToolList), Values(lex, items, ToolList));
    ConcatAssociates(a.tools, ToolNames(lex, Given(lex, i, ToolList)), ToolNames(lex, Values(lex, items, ToolList)));
  }

  ghost predicate TurnedOne(lex: Lexicon, a: Others, i: Item, b: Others) {
    && b.mode == (if SelectsMode(lex, i) then KindOf(lex, i.flag).value.mode else a.mode)
    && (forall s :: s in b.switches <==> s in a.switches || TurnsOn(lex, i, s))
    && b.resume == (a.resume || ResumesAt(lex, i))
    && b.resumeID == (if i.Pair? && ResumesAt(lex, i) then CanonicalID(lex, i.value) else a.resumeID)
  }

  lemma TurnedTaken(lex: Lexicon, a: Args, i: Item)
    requires Taken(lex, a, i).Some?
    ensures TurnedOne(lex, a.others, i, Taken(lex, a, i).value.others)
  {
  }

  lemma TurnedCons(lex: Lexicon, a: Others, i: Item, items: seq<Item>, t: Others, b: Others)
    requires TurnedOne(lex, a, i, t) && Turned(lex, t, items, b)
    ensures Turned(lex, a, [i] + items, b)
  {
    var all := [i] + items;
    assert all[1..] == items && all[0] == i;
    forall k ensures k in all <==> k == i || k in items {
    }
    forall s ensures s in b.switches <==> s in a.switches || exists k :: k in all && TurnsOn(lex, k, s) {
      if TurnsOn(lex, i, s) {
        assert i in all;
      }
    }
    if ResumesAt(lex, i) {
      assert i in all;
    }
  }

  lemma AddsCons(lex: Lexicon, a: Args, i: Item, items: seq<Item>, b: Args)
    requires Taken(lex, a, i).Some? && Adds(lex, Taken(lex, a, i).value, items, b)
    ensures Adds(lex, a, [i] + items, b)
  {
    var t := Taken(lex, a, i).value;
    forall s ensures Says(lex, a, [i] + items, b, s) {
      SaysTaken(lex, a, i, s);
      SaysCons(lex, a, i, items, t, b, s);
    }
    NumbersTaken(lex, a, i);
    NumbersCons(lex, a.others, i, items, t.others, b.others);
    TurnedTaken(lex, a, i);
    TurnedCons(lex, a.others, i, items, t.others, b.others);
  }

  lemma KeepsPrompt(lex: Lexicon, a: Args, i: Item)
    requires Taken(lex, a, i).Some?
    ensures Taken(lex, a, i).value.prompt == a.prompt
  {
  }

  lemma AddsNothing(lex: Lexicon, a: Args)
    ensures Adds(lex, a, [], a)
  {
    forall s ensures Says(lex, a, [], a, s) {
      assert ListOf(a, s).Some? ==> ListOf(a, s).value + [] == ListOf(a, s).value;
    }
  }

  // ------------------------------------------------------------------- the line

  /** What parsing the rest of a line must come to. */
  ghost predicate Scanning(lex: Lexicon, a: Args, words: seq<string>, items: seq<Item>, tail: seq<string>, r: Scanned) {
    if Complete(tail)
    then r.Scans? && Adds(lex, a, items, r.args) && r.args.prompt == a.prompt
         && r.rest == words + Words(items) + (if tail == [] then [] else tail[1..])
    else r.Fails? && Faulty(lex, tail, r.why)
  }

  /** The parser takes a well-formed item as a whole. */
  lemma ScanItem(lex: Lexicon, i: Item, next: seq<string>, a: Args, words: seq<string>)
    requires Proper(lex, i, next)
    ensures Taken(lex, a, i).Some?
    ensures Scan(lex, Render(i) + next, a, words)
         == Scan(lex, next, Taken(lex, a, i).value, words + if i.Word? then [i.text] else [])
  {
    var line := Render(i) + next;
    assert words + [] == words;
    match i {
      case Pair(f, v) => assert line[0] == f && line[1] == v && line[2..] == next;
      case Single(f) => assert line[0] == f && line[1..] == next;
      case Word(t) => assert line[0] == t && line[1..] == next;
    }
  }

  lemma ScanTail(lex: Lexicon, tail: seq<string>, a: Args, words: seq<string>)
    requires Complete(tail) || exists why :: Faulty(lex, tail, why)
    ensures Scanning(lex, a, words, [], tail, Scan(lex, tail, a, words))
  {
    AddsNothing(lex, a);
    assert words + [] == words;
    if !Complete(tail) {
      FaultStops(lex, tail, a, words);
    }
  }

  lemma FaultStops(lex: Lexicon, tail: seq<string>, a: Args, words: seq<string>)
    requires exists why :: Faulty(lex, tail, why)
    ensures Scan(lex, tail, a, words).Fails? && Faulty(lex, tail, Scan(lex, tail, a, words).why)
  {
  }

  lemma {:induction false} SplitScans(lex: Lexicon, line: seq<string>, items: seq<Item>, tail: seq<string>, a: Args, words: seq<string>)
    requires Splits(lex, line, items, tail)
    ensures Scanning(lex, a, words, items, tail, Scan(lex, line, a, words))
    decreases |items|
  {
    if items == [] {
      ScanTail(lex, tail, a, words);
    } else {
      var i := items[0];
      var next := line[|Render(i)|..];
      assert line == Render(i) + next && items == [i] + items[1..];
      ScanItem(lex, i, next, a, words);
      var t := Taken(lex, a, i).value;
      var more := if i.Word? then [i.text] else [];
      SplitScans(lex, next, items[1..], tail, t, words + more);
      var r := Scan(lex, line, a, words);
      if Complete(tail) {
        AddsCons(lex, a, i, items[1..], r.args);
        KeepsPrompt(lex, a, i);
        ConcatAssociates(words, more, Words(items[1..]));
      }
    }
  }

  /** Every line can be read. */
  lemma {:induction false} Reading(lex: Lexicon, line: seq<string>) returns (items: seq<Item>, tail: seq<string>)
    ensures Splits(lex, line, items, tail)
    decreases |line|
  {
    if i: Item :| Render(i) <= line && Proper(lex, i, line[|Render(i)|..]) {
      var rest;
      rest, tail := Reading(lex, line[|Render(i)|..]);
      items := [i] + rest;
      assert items[1..] == rest;
    } else {
      items, tail := [], line;
      Unreadable(lex, line);
    }
  }

  lemma Unreadable(lex: Lexicon, line: seq<string>)
    requires forall i :: Render(i) <= line ==> !Proper(lex, i, line[|Render(i)|..])
    ensures Complete(line) || exists why :: Faulty(lex, line, why)
  {
    if !Complete(line) {
      var f := line[0];
      assert Render(Word(f)) <= line && Render(Single(f)) <= line;
      if |line| > 1 {
        assert Render(Pair(f, line[1])) <= line;
      }
      assert Faulty(lex, line, UnknownFlag) || Faulty(lex, line, MissingValue) || Faulty(lex, line, BadValue);
    }
  }

  /** In one way only. */
  lemma {:induction false} ReadingIsUnique(lex: Lexicon, line: seq<string>, items: seq<Item>, tail: seq<string>,
                                           items': seq<Item>, tail': seq<string>)
    requires Splits(lex, line, items, tail) && Splits(lex, line, items', tail')
    ensures items == items' && tail == tail'
    decreases |items|
  {
    if items != [] && items' != [] {
      FirstIsUnique(lex, line, items[0], items'[0]);
      ReadingIsUnique(lex, line[|Render(items[0])|..], items[1..], tail, items'[1..], tail');
      assert items == [items[0]] + items[1..] && items' == [items'[0]] + items'[1..];
    } else if items != [] {
      FirstIsNoFault(lex, line, items[0]);
    } else if items' != [] {
      FirstIsNoFault(lex, line, items'[0]);
    }
  }

  lemma FirstIsUnique(lex: Lexicon, line: seq<string>, i: Item, j: Item)
    requires Render(i) <= line && Proper(lex, i, line[|Render(i)|..])
    requires Render(j) <= line && Proper(lex, j, line[|Render(j)|..])
    ensures i == j
  {
    assert Render(i)[0] == line[0] == Render(j)[0];
    if i.Pair? {
      assert line[1] == Render(i)[1] && line[1..][0] == line[1];
    }
    if j.Pair? {
      assert line[1] == Render(j)[1] && line[1..][0] == line[1];
    }
  }

  lemma FirstIsNoFault(lex: Lexicon, line: seq<string>, i: Item)
    requires Render(i) <= line && Proper(lex, i, line[|Render(i)|..])
    ensures !Complete(line) && !exists why :: Faulty(lex, line, why)
  {
    assert Render(i)[0] == line[0];
    if i.Pair? {
      assert line[1] == Render(i)[1];
    }
  }

  /** What a line read this way must parse to. */
  ghost predicate Tells(lex: Lexicon, items: seq<Item>, tail: seq<string>, p: Parsed) {
    if !Complete(tail) then p.Refused? && Faulty(lex, tail, p.why)
    else
      var words := Words(items) + if tail == [] then [] else tail[1..];
      var statsFile := LastOr(Values(lex, items, Stats), "");
      var mode := LastOr(Modes(lex, items), Interactive);
      if statsFile != "" && mode != Print then p == Refused(StatsNeedsPrint)
      else p.Ok? && Adds(lex, INITIAL, items, p.args) && p.args.prompt == Join(words)
  }

  lemma StatsAndMode(lex: Lexicon, a: Args, items: seq<Item>, b: Args)
    requires Adds(lex, a, items, b)
    ensures b.others.stats == LastOr(Values(lex, items, Stats), a.others.stats)
    ensures b.others.mode == LastOr(Modes(lex, items), a.others.mode)
  {
    assert Says(lex, a, items, b, Stats);
  }

  lemma PromptIsApart(lex: Lexicon, a: Args, items: seq<Item>, b: Args, prompt: string)
    requires Adds(lex, a, items, b)
    ensures Adds(lex, a, items, b.(prompt := prompt))
  {
    var c := b.(prompt := prompt);
    forall s ensures Says(lex, a, items, c, s) {
      assert Says(lex, a, items, b, s);
      assert TextOf(c, s) == TextOf(b, s) && ListOf(c, s) == ListOf(b, s);
    }
  }

  lemma FinishedTells(lex: Lexicon, items: seq<Item>, tail: seq<string>, r: Scanned)
    requires Scanning(lex, INITIAL, [], items, tail, r)
    ensures Tells(lex, items, tail, Finished(r))
  {
    if Complete(tail) {
      StatsAndMode(lex, INITIAL, items, r.args);
      PromptIsApart(lex, INITIAL, items, r.args, Join(r.rest));
      assert [] + Words(items) == Words(items);
      assert r.rest == [] ==> r.args.(prompt := "") == r.args;
    }
  }

  /** A line means what its one reading says, setting by setting; it is refused exactly if
      the reading stops before the end and the terminator, or statistics are asked for
      outside print mode. */
  lemma LineMeans(lex: Lexicon, line: seq<string>, items: seq<Item>, tail: seq<string>)
    requires Splits(lex, line, items, tail)
    ensures Tells(lex, items, tail, Parse(lex, line))
  {
    SplitScans(lex, line, items, tail, INITIAL, []);
    FinishedTells(lex, items, tail, Scan(lex, line, INITIAL, []));
  }
}
