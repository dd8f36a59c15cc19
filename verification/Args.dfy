/** The command line (packages/agent/args.go:171-384) and the printer that rebuilds one
    for a packaged agent's client session (packages/agent/zutfile.go:204-236): the parser
    as a function and as the index-driven loop it is, the printer likewise, and exactly
    when parsing what was printed gives the settings it was printed for. */
module Args {
  import opened Transcript

  datatype Mode = Interactive | Print | Stream | JSON | RPC

  datatype Switch =
    | Help | Version | Orchestrate | Continue | NoSession | KeepSession | NoTools | NoRepetitionGuard | NoLSP | NoMCP
    | ListModels | NoExt | NoSkill | NoContextFiles | WithSkills | Insecure | NoYolo | Yes

  datatype Setting =
    | Provider | Model | APIKey | BaseURL | SystemPrompt | AppendSystemPrompt | Ext | Reasoning | Temperature | Stats
    | Session | CWD | ToolList | MaxSteps

  datatype Kind = Turns(switch: Switch) | Selects(mode: Mode) | Resumes | Takes(setting: Setting) | Ignored

  /** Settings the printer never touches. */
  datatype Others = Others(
    mode: Mode, switches: set<Switch>, resume: bool, resumeID: string, apiKey: string, baseURL: string,
    exts: seq<string>, reasoning: string, temperature: Option<real>, stats: string, session: string, cwd: string,
    toolsSet: bool, tools: seq<string>, maxSteps: int)

  datatype Args = Args(provider: string, model: string, systemPrompt: string, append: seq<string>, prompt: string, others: Others)

  /** The flag tables, by name without dashes, and the readings of values that other
      packages do. `uuid` gives the canonical form of a session ID. */
  datatype Lexicon = Lexicon(
    short: map<string, Kind>,
    switches: map<string, Kind>,
    values: map<string, Kind>,
    uuid: string -> Option<string>,
    reasoning: string -> Option<string>,
    temperature: string -> Option<real>,
    maxSteps: string -> Option<int>,
    tools: string -> seq<string>)

  /** Flags with one dash, switches with two, and flags with two that take a value: every
      flag there is. */
  const SHORT: map<string, Kind> := map[
    "h" := Turns(Help), "v" := Turns(Version), "p" := Selects(Print), "c" := Turns(Continue), "r" := Resumes,
    "e" := Takes(Ext), "y" := Turns(Yes), "nc" := Turns(NoContextFiles)]

  const SWITCHES: map<string, Kind> := map[
    "help" := Turns(Help), "version" := Turns(Version), "print" := Selects(Print), "stream" := Selects(Stream),
    "json" := Selects(JSON), "orchestrate" := Turns(Orchestrate), "rpc" := Selects(RPC),
    "continue" := Turns(Continue), "resume" := Resumes, "no-session" := Turns(NoSession),
    "keep-session" := Turns(KeepSession), "no-tools" := Turns(NoTools),
    "no-repetition-guard" := Turns(NoRepetitionGuard), "no-lsp" := Turns(NoLSP), "no-mcp" := Turns(NoMCP),
    "list-models" := Turns(ListModels), "experimental-oauth" := Ignored, "no-ext" := Turns(NoExt),
    "no-extensions" := Turns(NoExt), "no-skill" := Turns(NoSkill), "no-skills" := Turns(NoSkill),
    "no-context-files" := Turns(NoContextFiles), "with-skills" := Turns(WithSkills), "with-skill" := Turns(WithSkills),
    "insecure" := Turns(Insecure), "no-yolo" := Turns(NoYolo), "yes" := Turns(Yes)]

  const VALUES: map<string, Kind> := map[
    "provider" := Takes(Provider), "model" := Takes(Model), "api-key" := Takes(APIKey), "base-url" := Takes(BaseURL),
    "system-prompt" := Takes(SystemPrompt), "append-system-prompt" := Takes(AppendSystemPrompt),
    "ext" := Takes(Ext), "reasoning" := Takes(Setting.Reasoning), "temperature" := Takes(Temperature),
    "stats" := Takes(Stats), "session" := Takes(Session), "cwd" := Takes(CWD), "tools" := Takes(ToolList),
    "max-steps" := Takes(MaxSteps)]

  const DASHES := "--"

  /** What an argument is, if it is a flag. */
  function KindOf(lex: Lexicon, arg: string): (k: Option<Kind>)
    ensures k.Some? ==> Dashed(arg)
  {
    if |arg| > 2 && arg[0] == '-' && arg[1] == '-' then
      if arg[2..] in lex.values then Some(lex.values[arg[2..]])
      else if arg[2..] in lex.switches then Some(lex.switches[arg[2..]]) else None
    else if |arg| > 1 && arg[0] == '-' && arg[1..] in lex.short then Some(lex.short[arg[1..]])
    else None
  }

  predicate Dashed(s: string) {
    s != [] && s[0] == '-' && s != "-"
  }

  /** The flags the printer writes. */
  datatype Written = Written(provider: string, model: string, systemPrompt: string, append: string)

  function Flag(name: string): string {
    DASHES + name
  }

  const WRITTEN := Written(Flag("provider"), Flag("model"), Flag("system-prompt"), Flag("append-system-prompt"))

  /** What the round trip needs of a lexicon: the terminator is no flag, the written
      flags are, and neither the terminator nor a flag is a session ID. */
  ghost predicate Sound(lex: Lexicon, w: Written) {
    && KindOf(lex, DASHES) == None
    && NoFlagIsID(lex)
    && Flagged(lex, w.provider, Provider) && Flagged(lex, w.model, Model)
    && Flagged(lex, w.systemPrompt, SystemPrompt) && Flagged(lex, w.append, AppendSystemPrompt)
  }

  ghost predicate NoFlagIsID(lex: Lexicon) {
    && !IsID(lex, DASHES)
    && forall s :: NotBoth(lex, s)
  }

  /** No flag is a session ID. */
  predicate NotBoth(lex: Lexicon, s: string) {
    KindOf(lex, s).Some? ==> !IsID(lex, s)
  }

  predicate Flagged(lex: Lexicon, flag: string, setting: Setting) {
    KindOf(lex, flag) == Some(Takes(setting)) && flag != DASHES
  }

  /** Twelve characters out of a-z and 2-7. */
  predicate IsDaemonID(s: string) {
    |s| == 12 && forall i :: 0 <= i < |s| ==> 'a' <= s[i] <= 'z' || '2' <= s[i] <= '7'
  }

  predicate IsID(lex: Lexicon, s: string) {
    lex.uuid(s).Some? || IsDaemonID(s)
  }

  function CanonicalID(lex: Lexicon, s: string): string {
    var u := lex.uuid(s);
    if u.Some? then u.value else s
  }

  lemma FlaggedBy(lex: Lexicon, name: string, s: Setting)
    requires name in lex.values && lex.values[name] == Takes(s) && name != ""
    ensures Flagged(lex, Flag(name), s)
  {
    assert Flag(name)[2..] == name;
  }

  /** The terminator is no flag with one dash. */
  predicate LacksDash(short: map<string, Kind>) {
    "-" !in short
  }

  /** The flags the printer writes are in the table. */
  predicate HasWritten(values: map<string, Kind>) {
    && "provider" in values && values["provider"] == Takes(Provider)
    && "model" in values && values["model"] == Takes(Model)
    && "system-prompt" in values && values["system-prompt"] == Takes(SystemPrompt)
    && "append-system-prompt" in values && values["append-system-prompt"] == Takes(AppendSystemPrompt)
  }

  lemma SoundBy(lex: Lexicon, short: map<string, Kind>, switches: map<string, Kind>, values: map<string, Kind>)
    requires lex.short == short && lex.switches == switches && lex.values == values
    requires LacksDash(short) && HasWritten(values) && Brief(short) && Brief(switches) && Brief(values)
    requires forall s :: lex.uuid(s).Some? ==> |s| >= SHORTEST_UUID
    ensures Sound(lex, WRITTEN)
  {
    assert DASHES[1..] == "-";
    FlaggedBy(lex, "provider", Provider);
    FlaggedBy(lex, "model", Model);
    FlaggedBy(lex, "system-prompt", SystemPrompt);
    FlaggedBy(lex, "append-system-prompt", AppendSystemPrompt);
    FlagsAreNoIDs(lex);
  }

  /** The shortest spelling of a UUID is 32 hexadecimal digits. */
  const SHORTEST_UUID := 32

  ghost predicate Brief(table: map<string, Kind>) {
    forall name :: name in table ==> |name| <= 20
  }

  /** UUIDs are too long to be flags, and a daemon's session ID begins with no dash. */
  lemma FlagsAreNoIDs(lex: Lexicon)
    requires Brief(lex.short) && Brief(lex.switches) && Brief(lex.values)
    requires forall s :: lex.uuid(s).Some? ==> |s| >= SHORTEST_UUID
    ensures NoFlagIsID(lex)
  {
    assert DASHES[0] == '-' && |DASHES| == 2;
    forall s ensures NotBoth(lex, s) {
      if KindOf(lex, s).Some? {
        assert s[0] == '-' && |s| <= 22;
      }
    }
  }

  /** A lexicon of these tables whose reading of session IDs, like the UUID package's,
      takes no string shorter than a UUID's digits. */
  ghost predicate Reads(lex: Lexicon, short: map<string, Kind>, switches: map<string, Kind>, values: map<string, Kind>) {
    && lex == Lexicon(short, switches, values, lex.uuid, lex.reasoning, lex.temperature, lex.maxSteps, lex.tools)
    && forall s :: lex.uuid(s).Some? ==> |s| >= SHORTEST_UUID
  }

  lemma TablesAreSound(short: map<string, Kind>, switches: map<string, Kind>, values: map<string, Kind>)
    requires LacksDash(short) && HasWritten(values) && Brief(short) && Brief(switches) && Brief(values)
    ensures forall lex :: Reads(lex, short, switches, values) ==> Sound(lex, WRITTEN)
  {
    forall lex | Reads(lex, short, switches, values) ensures Sound(lex, WRITTEN) {
      SoundBy(lex, short, switches, values);
    }
  }

  /** The program's tables are sound. */
  lemma ProgramIsSound()
    ensures forall lex :: Reads(lex, SHORT, SWITCHES, VALUES) ==> Sound(lex, WRITTEN)
  {
    NoShort();
    Values();
    BriefShort();
    BriefSwitches();
    BriefValues();
    TablesAreSound(SHORT, SWITCHES, VALUES);
  }

  lemma BriefShort()
    ensures Brief(SHORT)
  {
  }

  lemma BriefSwitches()
    ensures Brief(SWITCHES)
  {
  }

  lemma BriefValues()
    ensures Brief(VALUES)
  {
  }

  lemma NoShort()
    ensures LacksDash(SHORT)
  {
    assert "-"[0] == '-' && |"nc"| == 2;
    assert "h"[0] == 'h' && "v"[0] == 'v' && "p"[0] == 'p' && "c"[0] == 'c' && "r"[0] == 'r' && "e"[0] == 'e' && "y"[0] == 'y';
  }

  lemma Values()
    ensures HasWritten(VALUES)
  {
    assert forall k :: k in VALUES && |k| == 8 ==> k in {"provider", "base-url"};
  }

  // ---------------------------------------------------------------- the parser

  datatype Failure = MissingValue | BadValue | UnknownFlag | StatsNeedsPrint

  /** `rest` are the positional arguments so far. */
  datatype Scanned = Fails(why: Failure) | Scans(args: Args, rest: seq<string>)

  datatype Parsed = Refused(why: Failure) | Ok(args: Args)

  const INITIAL := Args("", "", "", [], "",
    Others(Interactive, {WithSkills}, false, "", "", "", [], "", None, "", "", "", false, [], 0))

  function WithValue(lex: Lexicon, a: Args, setting: Setting, v: string): Option<Args> {
    match setting
    case Provider => Some(a.(provider := v))
    case Model => Some(a.(model := v))
    case SystemPrompt => Some(a.(systemPrompt := v))
    case AppendSystemPrompt => Some(a.(append := a.append + [v]))
    case _ =>
      var o := WithOther(lex, a.others, setting, v);
      if o.Some? then Some(a.(others := o.value)) else None
  }

  function WithOther(lex: Lexicon, o: Others, setting: Setting, v: string): Option<Others> {
    match setting
    case APIKey => Some(o.(apiKey := v))
    case BaseURL => Some(o.(baseURL := v))
    case Ext => Some(o.(exts := o.exts + [v]))
    case Reasoning => (var r := lex.reasoning(v); if r.Some? then Some(o.(reasoning := r.value)) else None)
    case Temperature => (var t := lex.temperature(v); if t.Some? then Some(o.(temperature := t)) else None)
    case Stats => Some(o.(stats := v))
    case Session => Some(o.(session := v))
    case CWD => Some(o.(cwd := v))
    case ToolList => Some(o.(toolsSet := true, tools := o.tools + lex.tools(v)))
    case MaxSteps => (var n := lex.maxSteps(v); if n.Some? then Some(o.(maxSteps := n.value)) else None)
    case _ => None
  }

  function WithResume(a: Args, id: Option<string>): Args {
    var o := a.others.(resume := true);
    a.(others := if id.Some? then o.(resumeID := id.value) else o)
  }

  function Scan(lex: Lexicon, input: seq<string>, a: Args, rest: seq<string>): Scanned
    decreases |input|
  {
    if input == [] then Scans(a, rest)
    else if input[0] == DASHES then Scans(a, rest + input[1..])
    else if KindOf(lex, input[0]).Some? then
      (match KindOf(lex, input[0]).value
       case Turns(s) => Scan(lex, input[1..], a.(others := a.others.(switches := a.others.switches + {s})), rest)
       case Selects(m) => Scan(lex, input[1..], a.(others := a.others.(mode := m)), rest)
       case Ignored => Scan(lex, input[1..], a, rest)
       case Resumes =>
         if |input| > 1 && IsID(lex, input[1])
         then Scan(lex, input[2..], WithResume(a, Some(CanonicalID(lex, input[1]))), rest)
         else Scan(lex, input[1..], WithResume(a, None), rest)
       case Takes(s) =>
         if |input| < 2 then Fails(MissingValue)
         else
           var b := WithValue(lex, a, s, input[1]);
           if b == None then Fails(BadValue) else Scan(lex, input[2..], b.value, rest))
    else if Dashed(input[0]) then Fails(UnknownFlag)
    else Scan(lex, input[1..], a, rest + [input[0]])
  }

  /** strings.Join with one space. */
  function Join(words: seq<string>): string {
    if words == [] then "" else if |words| == 1 then words[0] else words[0] + " " + Join(words[1..])
  }

  function Finished(s: Scanned): Parsed {
    match s
    case Fails(why) => Refused(why)
    case Scans(a, rest) =>
      var b := if rest == [] then a else a.(prompt := Join(rest));
      if b.others.stats != "" && b.others.mode != Print then Refused(StatsNeedsPrint) else Ok(b)
  }

  function Parse(lex: Lexicon, input: seq<string>): Parsed {
    Finished(Scan(lex, input, INITIAL, []))
  }

  /** Words are joined in order with one space between them. */
  lemma {:induction false} JoinConcat(a: seq<string>, b: seq<string>)
    requires a != [] && b != []
    ensures Join(a + b) == Join(a) + " " + Join(b)
    ensures Join([a[0]]) == a[0] && Join([]) == ""
  {
    if |a| == 1 {
      assert (a + b)[1..] == b;
    } else {
      JoinConcat(a[1..], b);
      assert (a + b)[0] == a[0] && (a + b)[1..] == a[1..] + b;
      assert a[0] + " " + (Join(a[1..]) + " " + Join(b)) == (a[0] + " " + Join(a[1..])) + " " + Join(b);
    }
  }

  method JoinWords(words: seq<string>) returns (s: string)
    ensures s == Join(words)
  {
    if words == [] {
      return "";
    }
    var i := |words| - 1;
    s := words[i];
    assert words[i..] == [words[i]];
    while i > 0
      invariant 0 <= i < |words| && s == Join(words[i..])
    {
      i := i - 1;
      assert words[i..][1..] == words[i + 1..];
      s := words[i] + " " + s;
    }
    assert words[0..] == words;
  }

  method ParseArgs(lex: Lexicon, input: seq<string>) returns (r: Parsed)
    ensures r == Parse(lex, input)
  {
    var a, positional := INITIAL, [];
    var i := 0;
    while i < |input|
      invariant 0 <= i <= |input|
      invariant Scan(lex, input[i..], a, positional) == Scan(lex, input, INITIAL, [])
    {
      var arg := input[i];
      assert input[i..][1..] == input[i + 1..];
      if arg == DASHES {
        positional := positional + input[i + 1..];
        i := |input|;
      } else if KindOf(lex, arg).Some? {
        match KindOf(lex, arg).value {
          case Turns(s) => a := a.(others := a.others.(switches := a.others.switches + {s}));
          case Selects(m) => a := a.(others := a.others.(mode := m));
          case Ignored =>
          case Resumes =>
            if i + 1 < |input| && IsID(lex, input[i + 1]) {
              assert input[i..][2..] == input[i + 2..];
              a := WithResume(a, Some(CanonicalID(lex, input[i + 1])));
              i := i + 1;
            } else {
              a := WithResume(a, None);
            }
          case Takes(s) =>
            i := i + 1;
            if i >= |input| {
              return Refused(MissingValue);
            }
            assert input[i - 1..][2..] == input[i + 1..];
            var b := WithValue(lex, a, s, input[i]);
            if b == None {
              return Refused(BadValue);
            }
            a := b.value;
        }
        i := i + 1;
      } else if Dashed(arg) {
        return Refused(UnknownFlag);
      } else {
        positional := positional + [arg];
        i := i + 1;
      }
    }
    if |positional| > 0 {
      var prompt := JoinWords(positional);
      a := a.(prompt := prompt);
    }
    if a.others.stats != "" && a.others.mode != Print {
      return Refused(StatsNeedsPrint);
    }
    return Ok(a);
  }

  // --------------------------------------------------------------- the printer

  function Changed(flag: string, before: string, after: string): seq<string> {
    if before == after then [] else [flag, after]
  }

  function Appended(flag: string, texts: seq<string>): seq<string> {
    if texts == [] then [] else [flag, texts[0]] + Appended(flag, texts[1..])
  }

  /** Position of the first terminator. */
  function FirstDashes(raw: seq<string>): (i: nat)
    ensures i <= |raw| && (i < |raw| ==> raw[i] == DASHES) && forall k :: 0 <= k < i ==> raw[k] != DASHES
  {
    if raw == [] || raw[0] == DASHES then 0 else 1 + FirstDashes(raw[1..])
  }

  /** The settings that changed, as flags; the program changes none by taking away. */
  function Inserted(w: Written, before: Args, after: Args): seq<string>
    requires |before.append| <= |after.append|
  {
    Changed(w.provider, before.provider, after.provider) + Changed(w.model, before.model, after.model)
    + Changed(w.systemPrompt, before.systemPrompt, after.systemPrompt) + Appended(w.append, after.append[|before.append|..])
  }

  function PromptPart(tail: seq<string>, before: Args, after: Args): seq<string> {
    if before.prompt == "" && after.prompt != "" then (if tail == [] then [DASHES] else []) + [after.prompt] else []
  }

  function Printed(w: Written, raw: seq<string>, before: Args, after: Args): seq<string>
    requires |before.append| <= |after.append|
  {
    var i := FirstDashes(raw);
    raw[..i] + (Inserted(w, before, after) + (raw[i..] + PromptPart(raw[i..], before, after)))
  }

  method AppendedFlags(flag: string, texts: seq<string>) returns (out: seq<string>)
    ensures out == Appended(flag, texts)
  {
    out := [];
    for i := 0 to |texts|
      invariant out + Appended(flag, texts[i..]) == Appended(flag, texts)
    {
      AppendedNext(out, flag, texts, i);
      out := out + [flag, texts[i]];
    }
  }

  lemma AppendedNext(out: seq<string>, flag: string, texts: seq<string>, i: nat)
    requires i < |texts|
    ensures out + Appended(flag, texts[i..]) == (out + [flag, texts[i]]) + Appended(flag, texts[i + 1..])
  {
    assert texts[i..][1..] == texts[i + 1..];
  }

  method WriteChanged(out: seq<string>, flag: string, before: string, after: string) returns (r: seq<string>)
    ensures r == out + Changed(flag, before, after)
  {
    r := out;
    if after != before {
      r := r + [flag, after];
    }
  }

  /** Where the terminator is, if anywhere. */
  method SplitAtDashes(raw: seq<string>) returns (head: seq<string>, tail: seq<string>)
    ensures head == raw[..FirstDashes(raw)] && tail == raw[FirstDashes(raw)..]
  {
    for i := 0 to |raw|
      invariant forall k :: 0 <= k < i ==> raw[k] != DASHES
    {
      if raw[i] == DASHES {
        FirstDashesIs(raw, i);
        return raw[..i], raw[i..];
      }
    }
    FirstDashesIs(raw, |raw|);
    return raw, [];
  }

  method ZutfileClientArgs(w: Written, raw: seq<string>, before: Args, after: Args) returns (out: seq<string>)
    requires |before.append| <= |after.append|
    ensures out == Printed(w, raw, before, after)
  {
    var head, tail := SplitAtDashes(raw);
    out := WriteChanged(head, w.provider, before.provider, after.provider);
    out := WriteChanged(out, w.model, before.model, after.model);
    out := WriteChanged(out, w.systemPrompt, before.systemPrompt, after.systemPrompt);
    var appended := AppendedFlags(w.append, after.append[|before.append|..]);
    var end := [];
    if before.prompt == "" && after.prompt != "" {
      if |tail| == 0 {
        end := [DASHES];
      }
      end := end + [after.prompt];
    }
    out := out + appended + tail + end;
    Assembled(head, Changed(w.provider, before.provider, after.provider), Changed(w.model, before.model, after.model),
              Changed(w.systemPrompt, before.systemPrompt, after.systemPrompt), appended, tail, end);
  }

  lemma Assembled(head: seq<string>, a: seq<string>, b: seq<string>, c: seq<string>, d: seq<string>, tail: seq<string>, end: seq<string>)
    ensures head + a + b + c + d + tail + end == head + ((a + b + c + d) + (tail + end))
  {
  }

  lemma FirstDashesIs(raw: seq<string>, i: nat)
    requires i <= |raw| && (i < |raw| ==> raw[i] == DASHES) && forall k :: 0 <= k < i ==> raw[k] != DASHES
    ensures FirstDashes(raw) == i
  {
  }

  // ------------------------------------------------------------- the round trip

  /** What the printed line should parse to. */
  function Merged(before: Args, after: Args): Args {
    before.(provider := after.provider, model := after.model, systemPrompt := after.systemPrompt,
            append := after.append, prompt := after.prompt)
  }

  /** How the packaged agent's settings may differ: prompts are appended to, and a
      default prompt only fills an empty one. */
  predicate Extends(before: Args, after: Args) {
    before.append <= after.append && (before.prompt == "" || after.prompt == before.prompt)
  }

  /** No flag value in front of the terminator is the terminator itself. */
  predicate ValuesClean(lex: Lexicon, input: seq<string>)
    decreases |input|
  {
    if input == [] || input[0] == DASHES then true
    else if KindOf(lex, input[0]).Some? && KindOf(lex, input[0]).value.Takes? then
      |input| < 2 || (input[1] != DASHES && ValuesClean(lex, input[2..]))
    else if KindOf(lex, input[0]) == Some(Resumes) && |input| > 1 && IsID(lex, input[1]) then
      ValuesClean(lex, input[2..])
    else ValuesClean(lex, input[1..])
  }

  lemma {:induction false} ScanConcat(lex: Lexicon, head: seq<string>, rest: seq<string>, a: Args, pos: seq<string>)
    requires DASHES !in head && Scan(lex, head, a, pos).Scans? && (rest == [] || !IsID(lex, rest[0]))
    ensures var s := Scan(lex, head, a, pos); Scan(lex, head + rest, a, pos) == Scan(lex, rest, s.args, s.rest)
    decreases |head|
  {
    var whole := head + rest;
    if head == [] {
      assert whole == rest;
    } else {
      assert whole[0] == head[0] && whole[1..] == head[1..] + rest;
      assert head[0] in head;
      if |head| > 1 {
        assert whole[1] == head[1] && whole[2..] == head[2..] + rest;
      }
      if KindOf(lex, head[0]) == None {
        ScanConcat(lex, head[1..], rest, a, pos + [head[0]]);
      } else {
        match KindOf(lex, head[0]).value {
          case Turns(s) => ScanConcat(lex, head[1..], rest, a.(others := a.others.(switches := a.others.switches + {s})), pos);
          case Selects(m) => ScanConcat(lex, head[1..], rest, a.(others := a.others.(mode := m)), pos);
          case Ignored => ScanConcat(lex, head[1..], rest, a, pos);
          case Resumes =>
            if |head| > 1 && IsID(lex, head[1]) {
              ScanConcat(lex, head[2..], rest, WithResume(a, Some(CanonicalID(lex, head[1]))), pos);
            } else {
              ScanConcat(lex, head[1..], rest, WithResume(a, None), pos);
            }
          case Takes(s) => ScanConcat(lex, head[2..], rest, WithValue(lex, a, s, head[1]).value, pos);
        }
      }
    }
  }

  /** In front of its terminator a parsed line with clean values parses by itself. */
  lemma {:induction false} HeadScans(lex: Lexicon, raw: seq<string>, a: Args, pos: seq<string>)
    requires ValuesClean(lex, raw) && Scan(lex, raw, a, pos).Scans? && NoFlagIsID(lex)
    ensures Scan(lex, raw[..FirstDashes(raw)], a, pos).Scans?
    decreases |raw|
  {
    var head := raw[..FirstDashes(raw)];
    if raw != [] && raw[0] != DASHES {
      assert head[0] == raw[0] && head[1..] == raw[1..][..FirstDashes(raw[1..])];
      if KindOf(lex, raw[0]) == None {
        HeadScans(lex, raw[1..], a, pos + [raw[0]]);
      } else {
        match KindOf(lex, raw[0]).value {
          case Turns(s) => HeadScans(lex, raw[1..], a.(others := a.others.(switches := a.others.switches + {s})), pos);
          case Selects(m) => HeadScans(lex, raw[1..], a.(others := a.others.(mode := m)), pos);
          case Ignored => HeadScans(lex, raw[1..], a, pos);
          case Resumes =>
            if |raw| > 1 && IsID(lex, raw[1]) {
              HeadSkips(raw);
              HeadScans(lex, raw[2..], WithResume(a, Some(CanonicalID(lex, raw[1]))), pos);
            } else {
              HeadScans(lex, raw[1..], WithResume(a, None), pos);
            }
          case Takes(s) =>
            HeadSkips(raw);
            HeadScans(lex, raw[2..], WithValue(lex, a, s, raw[1]).value, pos);
        }
      }
    }
  }

  lemma HeadSkips(raw: seq<string>)
    requires |raw| > 1 && raw[0] != DASHES && raw[1] != DASHES
    ensures FirstDashes(raw) == 2 + FirstDashes(raw[2..])
    ensures raw[..FirstDashes(raw)][1] == raw[1] && raw[..FirstDashes(raw)][2..] == raw[2..][..FirstDashes(raw[2..])]
  {
    assert raw[1..][1..] == raw[2..];
  }

  lemma ScanTerminated(lex: Lexicon, tail: seq<string>, a: Args, pos: seq<string>)
    requires tail == [] || tail[0] == DASHES
    ensures Scan(lex, tail, a, pos) == Scans(a, if tail == [] then pos else pos + tail[1..])
  {
  }

  /** One written flag and its value. */
  lemma ScanFlag(lex: Lexicon, flag: string, s: Setting, v: string, rest: seq<string>, a: Args, pos: seq<string>)
    requires Flagged(lex, flag, s) && WithValue(lex, a, s, v).Some?
    ensures Scan(lex, [flag, v] + rest, a, pos) == Scan(lex, rest, WithValue(lex, a, s, v).value, pos)
  {
    var whole := [flag, v] + rest;
    assert whole[0] == flag && whole[1] == v && whole[2..] == rest;
  }

  lemma ScanChanged(lex: Lexicon, flag: string, s: Setting, before: string, after: string, rest: seq<string>, a: Args, pos: seq<string>)
    requires Flagged(lex, flag, s) && WithValue(lex, a, s, after).Some?
    ensures Scan(lex, Changed(flag, before, after) + rest, a, pos)
         == Scan(lex, rest, if before == after then a else WithValue(lex, a, s, after).value, pos)
  {
    if before == after {
      assert [] + rest == rest;
    } else {
      ScanFlag(lex, flag, s, after, rest, a, pos);
    }
  }

  lemma {:induction false} ScanAppended(lex: Lexicon, flag: string, texts: seq<string>, rest: seq<string>, a: Args, pos: seq<string>)
    requires Flagged(lex, flag, AppendSystemPrompt)
    ensures Scan(lex, Appended(flag, texts) + rest, a, pos) == Scan(lex, rest, a.(append := a.append + texts), pos)
    decreases |texts|
  {
    if texts == [] {
      assert [] + rest == rest && a.append + [] == a.append;
    } else {
      var b := a.(append := a.append + [texts[0]]);
      assert Appended(flag, texts) + rest == [flag, texts[0]] + (Appended(flag, texts[1..]) + rest);
      ScanFlag(lex, flag, AppendSystemPrompt, texts[0], Appended(flag, texts[1..]) + rest, a, pos);
      ScanAppended(lex, flag, texts[1..], rest, b, pos);
      assert b.append + texts[1..] == a.append + texts;
    }
  }

  /** All written flags together set what changed and nothing else. */
  lemma ScanInserted(lex: Lexicon, w: Written, before: Args, after: Args, rest: seq<string>, a: Args, pos: seq<string>)
    requires Sound(lex, w) && before.append <= after.append
    requires a.provider == before.provider && a.model == before.model && a.systemPrompt == before.systemPrompt && a.append == before.append
    ensures Scan(lex, Inserted(w, before, after) + rest, a, pos)
         == Scan(lex, rest, a.(provider := after.provider, model := after.model, systemPrompt := after.systemPrompt, append := after.append), pos)
  {
    var p := Changed(w.provider, before.provider, after.provider);
    var m := Changed(w.model, before.model, after.model);
    var s := Changed(w.systemPrompt, before.systemPrompt, after.systemPrompt);
    var texts := after.append[|before.append|..];
    var t := Appended(w.append, texts);
    assert Inserted(w, before, after) + rest == p + (m + (s + (t + rest)));
    ScanChanged(lex, w.provider, Provider, before.provider, after.provider, m + (s + (t + rest)), a, pos);
    var a1 := a.(provider := after.provider);
    ScanChanged(lex, w.model, Model, before.model, after.model, s + (t + rest), a1, pos);
    var a2 := a1.(model := after.model);
    ScanChanged(lex, w.systemPrompt, SystemPrompt, before.systemPrompt, after.systemPrompt, t + rest, a2, pos);
    var a3 := a2.(systemPrompt := after.systemPrompt);
    ScanAppended(lex, w.append, texts, rest, a3, pos);
    assert a3.append + texts == after.append;
  }

  /** Parsing flags never sets the prompt. */
  lemma {:induction false} ScanKeepsPrompt(lex: Lexicon, input: seq<string>, a: Args, pos: seq<string>)
    requires Scan(lex, input, a, pos).Scans?
    ensures Scan(lex, input, a, pos).args.prompt == a.prompt
    decreases |input|
  {
    if input != [] && input[0] != DASHES {
      if KindOf(lex, input[0]) == None {
        ScanKeepsPrompt(lex, input[1..], a, pos + [input[0]]);
      } else {
        match KindOf(lex, input[0]).value {
          case Turns(s) => ScanKeepsPrompt(lex, input[1..], a.(others := a.others.(switches := a.others.switches + {s})), pos);
          case Selects(m) => ScanKeepsPrompt(lex, input[1..], a.(others := a.others.(mode := m)), pos);
          case Ignored => ScanKeepsPrompt(lex, input[1..], a, pos);
          case Resumes =>
            if |input| > 1 && IsID(lex, input[1]) {
              ScanKeepsPrompt(lex, input[2..], WithResume(a, Some(CanonicalID(lex, input[1]))), pos);
            } else {
              ScanKeepsPrompt(lex, input[1..], WithResume(a, None), pos);
            }
          case Takes(s) => ScanKeepsPrompt(lex, input[2..], WithValue(lex, a, s, input[1]).value, pos);
        }
      }
    }
  }

  /** The positional arguments of a line that parses. */
  function Positional(lex: Lexicon, raw: seq<string>): seq<string> {
    var s := Scan(lex, raw, INITIAL, []);
    if s.Scans? then s.rest else []
  }

  lemma EmptyJoin(words: seq<string>)
    ensures Join(words) == "" <==> words == [] || words == [""]
  {
  }

  /** A clean line, printed and scanned: the head's settings with the changes, and the
      positional arguments with the prompt behind them. */
  lemma ScanPrinted(lex: Lexicon, w: Written, raw: seq<string>, before: Args, after: Args) returns (a: Args, pos: seq<string>)
    requires Sound(lex, w) && Parse(lex, raw) == Ok(before) && ValuesClean(lex, raw) && before.append <= after.append
    ensures Scan(lex, raw, INITIAL, []) == Scans(a, pos) && a.prompt == ""
    ensures Scan(lex, Printed(w, raw, before, after), INITIAL, [])
         == Scans(a.(provider := after.provider, model := after.model, systemPrompt := after.systemPrompt, append := after.append),
                  pos + if before.prompt == "" && after.prompt != "" then [after.prompt] else [])
  {
    var i := FirstDashes(raw);
    var head, tail := raw[..i], raw[i..];
    assert raw == head + tail;
    HeadScans(lex, raw, INITIAL, []);
    var h := Scan(lex, head, INITIAL, []);
    ScanConcat(lex, head, tail, INITIAL, []);
    ScanTerminated(lex, tail, h.args, h.rest);
    a, pos := h.args, if tail == [] then h.rest else h.rest + tail[1..];
    ScanKeepsPrompt(lex, head, INITIAL, []);

    var end := tail + PromptPart(tail, before, after);
    var middle := Inserted(w, before, after);
    StartsWithNoID(lex, w, before, after, end);
    ScanConcat(lex, head, middle + end, INITIAL, []);
    ScanInserted(lex, w, before, after, end, h.args, h.rest);
    ScanTerminated(lex, end, a.(provider := after.provider, model := after.model, systemPrompt := after.systemPrompt, append := after.append), h.rest);
    PromptBehind(tail, h.rest, before, after);
  }

  /** Nothing the printer writes behind the head is taken for a session ID. */
  lemma StartsWithNoID(lex: Lexicon, w: Written, before: Args, after: Args, end: seq<string>)
    requires Sound(lex, w) && before.append <= after.append && (end == [] || end[0] == DASHES)
    ensures var out := Inserted(w, before, after) + end; out == [] || !IsID(lex, out[0])
  {
    assert NotBoth(lex, w.provider) && NotBoth(lex, w.model) && NotBoth(lex, w.systemPrompt) && NotBoth(lex, w.append);
    if before.provider == after.provider && before.model == after.model && before.systemPrompt == after.systemPrompt {
      var texts := after.append[|before.append|..];
      assert Inserted(w, before, after) == Appended(w.append, texts);
    }
  }

  lemma PromptBehind(tail: seq<string>, pos: seq<string>, before: Args, after: Args)
    requires tail == [] || tail[0] == DASHES
    ensures var end := tail + PromptPart(tail, before, after);
            && (end == [] || end[0] == DASHES)
            && (if end == [] then pos else pos + end[1..])
               == (if tail == [] then pos else pos + tail[1..])
                  + (if before.prompt == "" && after.prompt != "" then [after.prompt] else [])
  {
    var part := PromptPart(tail, before, after);
    if tail != [] {
      assert (tail + part)[1..] == tail[1..] + part;
    }
  }

  predicate RoundTrips(lex: Lexicon, w: Written, raw: seq<string>, before: Args, after: Args)
    requires |before.append| <= |after.append|
  {
    Parse(lex, Printed(w, raw, before, after)) == Ok(Merged(before, after))
  }

  /** With clean values and no lone empty argument, the printed line parses to exactly
      the settings it was printed for. */
  lemma RoundTrip(lex: Lexicon, w: Written, raw: seq<string>, before: Args, after: Args)
    requires Sound(lex, w) && Parse(lex, raw) == Ok(before) && Extends(before, after)
    requires ValuesClean(lex, raw) && Positional(lex, raw) != [""]
    ensures RoundTrips(lex, w, raw, before, after)
  {
    var a, pos := ScanPrinted(lex, w, raw, before, after);
    EmptyJoin(pos);
    if before.prompt == "" {
      assert pos == [];
      assert [] + [after.prompt] == [after.prompt];
    } else {
      assert pos + [] == pos;
    }
  }

  // --------------------------------------------------------- when it does not hold

  lemma HeadFollows(raw: seq<string>)
    requires raw != [] && raw[0] != DASHES && FirstDashes(raw[1..]) > 0
    ensures FirstDashes(raw) == 1 + FirstDashes(raw[1..])
    ensures var head := raw[..FirstDashes(raw) - 1];
            head[0] == raw[0] && head[1..] == raw[1..][..FirstDashes(raw[1..]) - 1]
  {
  }

  lemma HeadFollowsTwo(raw: seq<string>)
    requires |raw| > 1 && raw[0] != DASHES && raw[1] != DASHES && FirstDashes(raw[2..]) > 0
    ensures FirstDashes(raw) == 2 + FirstDashes(raw[2..])
    ensures var head := raw[..FirstDashes(raw) - 1];
            |head| > 1 && head[0] == raw[0] && head[1] == raw[1] && head[2..] == raw[2..][..FirstDashes(raw[2..]) - 1]
  {
    HeadSkips(raw);
  }

  /** A terminator swallowed as a value: a value flag stands in front of it, and the
      line up to that flag parses by itself. */
  lemma {:induction false} SwallowedBy(lex: Lexicon, raw: seq<string>, a: Args, pos: seq<string>)
    requires !ValuesClean(lex, raw) && Scan(lex, raw, a, pos).Scans? && NoFlagIsID(lex)
    ensures var i := FirstDashes(raw);
            && 0 < i < |raw| && KindOf(lex, raw[i - 1]).Some? && KindOf(lex, raw[i - 1]).value.Takes?
            && Scan(lex, raw[..i - 1], a, pos).Scans?
    decreases |raw|, 2
  {
    if KindOf(lex, raw[0]) == None {
      SwallowedBy(lex, raw[1..], a, pos + [raw[0]]);
      HeadFollows(raw);
    } else {
      SwallowedBehind(lex, raw, a, pos, KindOf(lex, raw[0]).value);
    }
  }

  lemma {:induction false} SwallowedByResume(lex: Lexicon, raw: seq<string>, a: Args, pos: seq<string>)
    requires !ValuesClean(lex, raw) && Scan(lex, raw, a, pos).Scans? && NoFlagIsID(lex)
    requires raw != [] && KindOf(lex, raw[0]) == Some(Resumes)
    ensures var i := FirstDashes(raw);
            && 0 < i < |raw| && KindOf(lex, raw[i - 1]).Some? && KindOf(lex, raw[i - 1]).value.Takes?
            && Scan(lex, raw[..i - 1], a, pos).Scans?
    decreases |raw|, 0
  {
    if |raw| > 1 && IsID(lex, raw[1]) {
      SwallowedBy(lex, raw[2..], WithResume(a, Some(CanonicalID(lex, raw[1]))), pos);
      HeadFollowsTwo(raw);
    } else {
      SwallowedBy(lex, raw[1..], WithResume(a, None), pos);
      HeadFollows(raw);
    }
  }

  lemma {:induction false} SwallowedBehind(lex: Lexicon, raw: seq<string>, a: Args, pos: seq<string>, kind: Kind)
    requires !ValuesClean(lex, raw) && Scan(lex, raw, a, pos).Scans? && NoFlagIsID(lex)
    requires raw != [] && KindOf(lex, raw[0]) == Some(kind)
    ensures var i := FirstDashes(raw);
            && 0 < i < |raw| && KindOf(lex, raw[i - 1]).Some? && KindOf(lex, raw[i - 1]).value.Takes?
            && Scan(lex, raw[..i - 1], a, pos).Scans?
    decreases |raw|, 1
  {
    match kind {
      case Turns(s) =>
        SwallowedBy(lex, raw[1..], a.(others := a.others.(switches := a.others.switches + {s})), pos);
        HeadFollows(raw);
      case Selects(m) =>
        SwallowedBy(lex, raw[1..], a.(others := a.others.(mode := m)), pos);
        HeadFollows(raw);
      case Ignored =>
        SwallowedBy(lex, raw[1..], a, pos);
        HeadFollows(raw);
      case Resumes => SwallowedByResume(lex, raw, a, pos);
      case Takes(s) =>
        if raw[1] == DASHES {
          FirstDashesIs(raw, 1);
          assert raw[..0] == [];
        } else {
          SwallowedBy(lex, raw[2..], WithValue(lex, a, s, raw[1]).value, pos);
          HeadFollowsTwo(raw);
        }
    }
  }

  function Repeat(n: nat): (s: string)
    ensures |s| == n && forall i :: 0 <= i < n ==> s[i] == 'x'
  {
    seq(n, i => 'x')
  }

  lemma {:induction false} JoinIsLong(words: seq<string>, i: nat)
    requires i < |words|
    ensures |Join(words)| >= |words[i]|
  {
    if i > 0 {
      JoinIsLong(words[1..], i - 1);
    }
  }

  /** The printed line when only the provider changes, around a swallowed terminator. */
  lemma PrintedAround(w: Written, raw: seq<string>, before: Args, x: string)
    requires 0 < FirstDashes(raw) < |raw| && x != before.provider
    ensures var i := FirstDashes(raw);
            Printed(w, raw, before, before.(provider := x)) == raw[..i - 1] + ([raw[i - 1], w.provider, x, DASHES] + raw[i + 1..])
  {
    var i, after := FirstDashes(raw), before.(provider := x);
    InsertsProvider(w, before, x);
    SplitAround(raw, i);
    var end := PromptPart(raw[i..], before, after);
    assert Printed(w, raw, before, after) == raw[..i] + (Inserted(w, before, after) + (raw[i..] + end));
    Regrouped(raw[..i - 1], raw[i - 1], [w.provider, x], raw[i], raw[i + 1..], end);
  }

  lemma SplitAround(raw: seq<string>, i: nat)
    requires 0 < i < |raw|
    ensures raw[..i] == raw[..i - 1] + [raw[i - 1]] && raw[i..] == [raw[i]] + raw[i + 1..]
  {
  }

  lemma InsertsProvider(w: Written, before: Args, x: string)
    requires x != before.provider
    ensures Inserted(w, before, before.(provider := x)) == [w.provider, x]
  {
    assert Appended(w.append, before.append[|before.append|..]) == [];
    assert [w.provider, x] + [] + [] + [] == [w.provider, x];
  }

  lemma Regrouped(head: seq<string>, flag: string, middle: seq<string>, dashes: string, rest: seq<string>, end: seq<string>)
    requires |middle| == 2 && end == []
    ensures (head + [flag]) + (middle + (([dashes] + rest) + end)) == head + ([flag, middle[0], middle[1], dashes] + rest)
  {
  }

  /** Splitting the swallowed terminator from its flag turns a new value into prompt text. */
  lemma SwallowedFails(lex: Lexicon, w: Written, raw: seq<string>, before: Args) returns (after: Args)
    requires Sound(lex, w) && Parse(lex, raw) == Ok(before) && !ValuesClean(lex, raw)
    ensures Extends(before, after) && !RoundTrips(lex, w, raw, before, after)
  {
    var x := Repeat(|before.prompt| + |before.provider| + 1);
    after := before.(provider := x);
    var i := FirstDashes(raw);
    SwallowedBy(lex, raw, INITIAL, []);
    PrintedAround(w, raw, before, x);
    var flag, rest := raw[i - 1], raw[i + 1..];
    assert NotBoth(lex, flag);
    var t := [flag, w.provider, x, DASHES] + rest;
    ScanConcat(lex, raw[..i - 1], t, INITIAL, []);
    var h := Scan(lex, raw[..i - 1], INITIAL, []);
    TooLong(lex, flag, w.provider, x, rest, h.args, h.rest);
  }

  /** Whatever the flag makes of its new value, the text behind it ends up in the prompt. */
  lemma TooLong(lex: Lexicon, flag: string, v: string, x: string, rest: seq<string>, a: Args, pos: seq<string>)
    requires KindOf(lex, flag).Some? && KindOf(lex, flag).value.Takes? && flag != DASHES && x != "" && x[0] == 'x'
    ensures var r := Finished(Scan(lex, [flag, v, x, DASHES] + rest, a, pos)); r.Ok? ==> |r.args.prompt| >= |x|
  {
    var t := [flag, v, x, DASHES] + rest;
    assert t[0] == flag && t[1] == v && t[2..] == [x, DASHES] + rest;
    var b := WithValue(lex, a, KindOf(lex, flag).value.setting, v);
    if b.Some? {
      ScanText(lex, x, rest, b.value, pos);
      var all := pos + [x] + rest;
      assert all[|pos|] == x;
      JoinIsLong(all, |pos|);
    }
  }

  /** Plain text and a terminator behind it. */
  lemma ScanText(lex: Lexicon, x: string, rest: seq<string>, a: Args, pos: seq<string>)
    requires x != "" && x[0] == 'x'
    ensures Scan(lex, [x, DASHES] + rest, a, pos) == Scans(a, pos + [x] + rest)
  {
    var line := [x, DASHES] + rest;
    assert line[0] == x && line[1..] == [DASHES] + rest && line[1..][1..] == rest;
    assert DASHES[0] == '-';
    assert KindOf(lex, x) == None;
  }

  /** A lone empty argument leaves a space in front of a default prompt. */
  lemma EmptyArgumentFails(lex: Lexicon, w: Written, raw: seq<string>, before: Args) returns (after: Args)
    requires Sound(lex, w) && Parse(lex, raw) == Ok(before) && ValuesClean(lex, raw) && Positional(lex, raw) == [""]
    ensures Extends(before, after) && !RoundTrips(lex, w, raw, before, after)
  {
    after := before.(prompt := "x");
    var a, pos := ScanPrinted(lex, w, raw, before, after);
    assert pos + ["x"] == ["", "x"];
    assert Join(["", "x"]) == "" + " " + "x";
  }

  /** The flags with two dashes that take a value, and what they set. */
  predicate HasSettings(values: map<string, Kind>) {
    && HasWritten(values)
    && "api-key" in values && values["api-key"] == Takes(APIKey)
    && "base-url" in values && values["base-url"] == Takes(BaseURL)
    && "ext" in values && values["ext"] == Takes(Ext)
    && "reasoning" in values && values["reasoning"] == Takes(Setting.Reasoning)
    && "temperature" in values && values["temperature"] == Takes(Temperature)
    && "stats" in values && values["stats"] == Takes(Stats)
    && "session" in values && values["session"] == Takes(Session)
    && "cwd" in values && values["cwd"] == Takes(CWD)
    && "tools" in values && values["tools"] == Takes(ToolList)
    && "max-steps" in values && values["max-steps"] == Takes(MaxSteps)
  }

  lemma ProgramHasSettings()
    ensures HasSettings(VALUES)
  {
    Values();
  }

  /** A line that asks for a model named like the terminator, and what becomes of it
      when only a provider is added: the flag takes the next flag for its value. */
  lemma TerminatorAsModel(lex: Lexicon, w: Written)
    requires Sound(lex, w)
    ensures var raw, before := [w.model, DASHES], INITIAL.(model := DASHES);
            && Parse(lex, raw) == Ok(before)
            && Parse(lex, Printed(w, raw, before, before.(provider := "x"))) == Ok(INITIAL.(model := w.provider, prompt := "x"))
  {
    var raw, before := [w.model, DASHES], INITIAL.(model := DASHES);
    assert raw == [w.model, DASHES] + [];
    ScanFlag(lex, w.model, Model, DASHES, [], INITIAL, []);
    FirstDashesIs(raw, 1);
    PrintedAround(w, raw, before, "x");
    assert raw[2..] == [] && raw[..0] == [];
    var t := [w.provider, "x", DASHES];
    assert Printed(w, raw, before, before.(provider := "x")) == [w.model, w.provider] + ["x", DASHES];
    ScanFlag(lex, w.model, Model, w.provider, ["x", DASHES], INITIAL, []);
    ScanText(lex, "x", [], INITIAL.(model := w.provider), []);
    assert ["x", DASHES] + [] == ["x", DASHES] && [] + ["x"] + [] == ["x"];
    assert Join(["x"]) == "x";
  }

  /** An empty argument alone, and a default prompt behind it: the prompt gets a space. */
  lemma LoneEmptyArgument(lex: Lexicon, w: Written)
    requires Sound(lex, w)
    ensures var after := INITIAL.(prompt := "x");
            && Parse(lex, [""]) == Ok(INITIAL)
            && Parse(lex, Printed(w, [""], INITIAL, after)) == Ok(INITIAL.(prompt := " x"))
  {
    var after := INITIAL.(prompt := "x");
    assert [""][1..] == [] && [] + [""] == [""];
    assert Scan(lex, [""], INITIAL, []) == Scans(INITIAL, [""]);
    FirstDashesIs([""], 1);
    assert Inserted(w, INITIAL, after) == [];
    var line := ["", DASHES, "x"];
    assert Printed(w, [""], INITIAL, after) == line;
    assert line[1..] == [DASHES, "x"] && [DASHES, "x"][1..] == ["x"];
    assert Scan(lex, line, INITIAL, []) == Scan(lex, line[1..], INITIAL, [""]) == Scans(INITIAL, [""] + ["x"]);
    assert [""] + ["x"] == ["", "x"];
    assert Join(["", "x"]) == "" + " " + "x" == " x";
  }

  /** The rebuilt line means what it should for every change the program makes, if and
      only if no flag value in the original is the terminator and its positional
      arguments are not one empty string. */
  ghost predicate ExactlyClean(lex: Lexicon, w: Written, raw: seq<string>, before: Args) {
    (forall after :: Extends(before, after) ==> RoundTrips(lex, w, raw, before, after))
    <==> ValuesClean(lex, raw) && Positional(lex, raw) != [""]
  }

  lemma RoundTripIff(lex: Lexicon, w: Written, raw: seq<string>, before: Args)
    requires Sound(lex, w) && Parse(lex, raw) == Ok(before)
    ensures ExactlyClean(lex, w, raw, before)
  {
    if !ValuesClean(lex, raw) {
      var after := SwallowedFails(lex, w, raw, before);
    } else if Positional(lex, raw) == [""] {
      var after := EmptyArgumentFails(lex, w, raw, before);
    } else {
      forall after | Extends(before, after) ensures RoundTrips(lex, w, raw, before, after) {
        RoundTrip(lex, w, raw, before, after);
      }
    }
  }

  lemma SoundTablesRoundTrip(short: map<string, Kind>, switches: map<string, Kind>, values: map<string, Kind>)
    requires forall lex :: Reads(lex, short, switches, values) ==> Sound(lex, WRITTEN)
    ensures forall lex, raw, before :: Reads(lex, short, switches, values) && Parse(lex, raw) == Ok(before)
              ==> ExactlyClean(lex, WRITTEN, raw, before)
  {
    forall lex, raw, before | Reads(lex, short, switches, values) && Parse(lex, raw) == Ok(before)
      ensures ExactlyClean(lex, WRITTEN, raw, before)
    {
      RoundTripIff(lex, WRITTEN, raw, before);
    }
  }

  /** The same of the program: its own tables, the flags it writes, and whatever the
      UUID package and the readings of other values do. */
  lemma ProgramRoundTripIff()
    ensures forall lex, raw, before :: Reads(lex, SHORT, SWITCHES, VALUES) && Parse(lex, raw) == Ok(before)
              ==> ExactlyClean(lex, WRITTEN, raw, before)
  {
    ProgramIsSound();
    SoundTablesRoundTrip(SHORT, SWITCHES, VALUES);
  }
}
