/** Transcript compaction (packages/core/compact.go:35-205,
    packages/core/dynamic_context.go:95-107):
    the conversation is summarized, and the transcript becomes the newest host context,
    one summary message, and a repaired tail of the conversation. */
module Compaction {
  import opened Transcript
  import Engine
  import Memory
  import Plan
  import PlanBlock
  import Queue
  import opened Repair

  /** The summary model's answer, event by event. */
  datatype StreamEvent = Delta(text: Bytes) | Usage | StreamDone(failed: bool)

  datatype Response = Response(fastModeOk: bool, opens: bool, events: seq<StreamEvent>)

  datatype Refusal = NothingToCompact | TailCoversAll | FastModeRefused | OpenError | StreamError | EmptySummary

  datatype Built = Refused(why: Refusal) | Compacted(next: seq<Message>, summary: Bytes)

  // ------------------------------------------------------------ the new transcript

  /** The conversation: everything but host context. */
  function Talk(ms: seq<Message>): seq<Message> {
    Select(ms, Memory.IsTalk)
  }

  /** keepTail, clamped to the conversation. */
  function TailLength(keepTail: int, n: nat): nat {
    if keepTail < 0 then 0 else if keepTail > n then n else keepTail
  }

  /** Names of the tools a conversation activated, in order of first appearance. */
  function Activated(ms: seq<Message>): seq<string> {
    if ms == [] then [] else Engine.AddNames(Activated(Init(ms)), Last(ms).addedToolNames)
  }

  const SUMMARY_HEADER: Bytes := Ascii("## Context Summary (compacted)")

  function Summary(text: Bytes, names: seq<string>): Message {
    Message(User, [Text(SUMMARY_HEADER + [0x0A, 0x0A] + text)], names, false)
  }

  function Optional(m: Option<Message>): seq<Message> {
    if m.Some? then [m.value] else []
  }

  function Tail(ms: seq<Message>, keepTail: int): seq<Message> {
    var talk := Talk(ms);
    Repaired(talk[|talk| - TailLength(keepTail, |talk|)..], multiset{})
  }

  /** Context if any, summary, repaired tail. */
  function Next(ms: seq<Message>, keepTail: int, summary: Bytes, context: Option<Message>): seq<Message> {
    Optional(context) + [Summary(summary, Activated(Talk(ms)))] + Tail(ms, keepTail)
  }

  function Deltas(events: seq<StreamEvent>): Bytes {
    if events == [] then []
    else Deltas(Init(events)) + if Last(events).Delta? then Last(events).text else []
  }

  ghost predicate Fails(events: seq<StreamEvent>) {
    exists i :: 0 <= i < |events| && events[i].StreamDone? && events[i].failed
  }

  /** Why a compaction is refused, in the order the checks are made. */
  ghost function RefusalOf(ms: seq<Message>, keepTail: int, r: Response): Option<Refusal> {
    if Talk(ms) == [] then Some(NothingToCompact)
    else if TailLength(keepTail, |Talk(ms)|) == |Talk(ms)| then Some(TailCoversAll)
    else if !r.fastModeOk then Some(FastModeRefused)
    else if !r.opens then Some(OpenError)
    else if Fails(r.events) then Some(StreamError)
    else if Queue.Trim(Deltas(r.events)) == [] then Some(EmptySummary)
    else None
  }

  /** The retained context carries the checklist if it is a single text. */
  ghost predicate Carries(latest: Message, plan: seq<Plan.PlanStep>, context: Message) {
    var block := PlanBlock.Render(plan);
    if block == [] || !PlanBlock.SingleText(latest) then context == latest
    else PlanBlock.SingleText(context) && context == latest.(content := context.content)
         && PlanBlock.Merges(latest.content[0].text, block, context.content[0].text)
  }

  ghost predicate Context(ms: seq<Message>, plan: seq<Plan.PlanStep>, context: Option<Message>) {
    var latest := Memory.LatestContext(ms);
    if latest.Some? then context.Some? && Carries(latest.value, plan, context.value) else context == None
  }

  ghost predicate Builds(ms: seq<Message>, keepTail: int, r: Response, plan: seq<Plan.PlanStep>, b: Built) {
    match b
    case Refused(why) => RefusalOf(ms, keepTail, r) == Some(why)
    case Compacted(next, summary) =>
      && RefusalOf(ms, keepTail, r) == None && summary == Queue.Trim(Deltas(r.events))
      && exists context :: Context(ms, plan, context) && next == Next(ms, keepTail, summary, context)
  }

  /** A compaction goes through exactly if there is something in front of the tail, the
      provider takes the request, the stream does not fail, and its text is not blank. */
  lemma CompactsIff(ms: seq<Message>, keepTail: int, r: Response, plan: seq<Plan.PlanStep>, b: Built)
    requires Builds(ms, keepTail, r, plan, b)
    ensures b.Compacted?
            <==> |Talk(ms)| > 0 && keepTail < |Talk(ms)| && r.fastModeOk && r.opens
                 && (forall e :: e in r.events ==> e != StreamDone(true))
                 && Queue.Trim(Deltas(r.events)) != []
  {
    if Fails(r.events) {
      var i :| 0 <= i < |r.events| && r.events[i].StreamDone? && r.events[i].failed;
      assert r.events[i] == StreamDone(true) && r.events[i] in r.events;
    }
  }

  // ------------------------------------------------------------- the computation

  lemma TalkCons(m: Message, rest: seq<Message>)
    ensures Talk([m] + rest) == (if m.role == Developer && m.internal then [] else [m]) + Talk(rest)
  {
    assert ([m] + rest)[0] == m && ([m] + rest)[1..] == rest;
  }

  /** The conversation is looked at message by message and keeps its order. */
  lemma {:induction false} TalkConcat(a: seq<Message>, b: seq<Message>)
    ensures Talk(a + b) == Talk(a) + Talk(b)
  {
    if a == [] {
      assert a + b == b;
    } else {
      var m, rest := a[0], a[1..];
      assert a == [m] + rest && a + b == [m] + (rest + b);
      TalkConcat(rest, b);
      TalkCons(m, rest + b);
      TalkCons(m, rest);
      ConcatAssociates(if m.role == Developer && m.internal then [] else [m], Talk(rest), Talk(b));
    }
  }

  /** Host context does not belong to it, every other message does. */
  lemma TalkOne(m: Message)
    ensures Talk([m]) == (if m.role == Developer && m.internal then [] else [m]) && Talk([]) == []
  {
    TalkCons(m, []);
    assert [m] + [] == [m] && Talk([]) == [];
  }

  lemma SelectSnoc(ms: seq<Message>, keep: Message -> bool)
    requires ms != []
    ensures Select(ms, keep) == Select(Init(ms), keep) + (if keep(Last(ms)) then [Last(ms)] else [])
  {
    if |ms| > 1 {
      SelectSnoc(ms[1..], keep);
      assert Init(ms)[1..] == Init(ms[1..]) && Last(ms[1..]) == Last(ms);
    }
  }

  method LatestInternalContext(ms: seq<Message>) returns (latest: Option<Message>, talk: seq<Message>)
    ensures latest == Memory.LatestContext(ms) && talk == Talk(ms)
  {
    latest, talk := None, [];
    for i := 0 to |ms|
      invariant latest == Memory.LatestContext(ms[..i]) && talk == Talk(ms[..i])
    {
      assert Init(ms[..i + 1]) == ms[..i] && Last(ms[..i + 1]) == ms[i];
      SelectSnoc(ms[..i + 1], Memory.IsTalk);
      if Memory.IsContext(ms[i]) {
        latest := Some(ms[i]);
      } else {
        talk := talk + [ms[i]];
      }
    }
    assert ms[..|ms|] == ms;
  }

  method ReadStream(events: seq<StreamEvent>) returns (text: Bytes, failed: bool)
    ensures failed <==> Fails(events)
    ensures !failed ==> text == Deltas(events)
  {
    text := [];
    for i := 0 to |events|
      invariant text == Deltas(events[..i])
      invariant forall k :: 0 <= k < i ==> !(events[k].StreamDone? && events[k].failed)
    {
      assert Init(events[..i + 1]) == events[..i] && Last(events[..i + 1]) == events[i];
      match events[i] {
        case Delta(delta) => text := text + delta;
        case StreamDone(err) =>
          if err {
            return text, true;
          }
        case Usage =>
      }
    }
    assert events[..|events|] == events;
    return text, false;
  }

  method ActivatedNames(ms: seq<Message>) returns (names: seq<string>)
    ensures names == Activated(ms)
  {
    names := [];
    for i := 0 to |ms|
      invariant names == Activated(ms[..i])
    {
      assert Init(ms[..i + 1]) == ms[..i] && Last(ms[..i + 1]) == ms[i];
      names := Engine.AddNames(names, ms[i].addedToolNames);
    }
    assert ms[..|ms|] == ms;
  }

  method CarryPlan(latest: Message, plan: seq<Plan.PlanStep>) returns (context: Message)
    ensures Carries(latest, plan, context)
  {
    var block := PlanBlock.PlanContextBlock(plan);
    context := PlanBlock.MergePlanContextBlock(latest, block);
  }

  /** Everything up to the replacement itself; it changes nothing. */
  method Build(ms: seq<Message>, keepTail: int, r: Response, plan: seq<Plan.PlanStep>) returns (b: Built)
    ensures Builds(ms, keepTail, r, plan, b)
    ensures b.Compacted? ==> Front(ms) < |b.next| && Tells(b.next[Front(ms)], b.summary)
  {
    var latest, talk := LatestInternalContext(ms);
    if |talk| == 0 {
      return Refused(NothingToCompact);
    }
    var keep := keepTail;
    if keep < 0 {
      keep := 0;
    }
    if keep > |talk| {
      keep := |talk|;
    }
    if |talk| - keep == 0 {
      return Refused(TailCoversAll);
    }
    if !r.fastModeOk {
      return Refused(FastModeRefused);
    }
    if !r.opens {
      return Refused(OpenError);
    }
    var text, failed := ReadStream(r.events);
    if failed {
      return Refused(StreamError);
    }
    var summary := Queue.Trim(text);
    if summary == [] {
      return Refused(EmptySummary);
    }
    b := Assemble(ms, keepTail, keep, latest, talk, summary, plan);
    SummaryStands(ms, keepTail, r, plan, b);
  }

  /** The new transcript once the summary is there. */
  method Assemble(ms: seq<Message>, ghost keepTail: int, keep: nat, latest: Option<Message>, talk: seq<Message>, summary: Bytes,
                  plan: seq<Plan.PlanStep>) returns (b: Built)
    requires latest == Memory.LatestContext(ms) && talk == Talk(ms) && keep == TailLength(keepTail, |talk|) <= |talk|
    ensures b.Compacted? && b.summary == summary
    ensures exists context :: Context(ms, plan, context) && b.next == Next(ms, keepTail, summary, context)
  {
    var names := ActivatedNames(talk);
    var tail := RepairOrphanedToolResults(talk[|talk| - keep..]);
    var context := None;
    if latest.Some? {
      var carried := CarryPlan(latest.value, plan);
      context := Some(carried);
    }
    b := Compacted(Optional(context) + [Summary(summary, names)] + tail, summary);
    assert Context(ms, plan, context) && b.next == Next(ms, keepTail, summary, context);
  }

  // --------------------------------------------------------------------- pairing

  ghost predicate ContextsAreInert(ms: seq<Message>) {
    forall m :: m in ms && Memory.IsContext(m) ==> Inert(m)
  }

  lemma LatestIsContext(ms: seq<Message>)
    ensures Memory.LatestContext(ms).Some? ==>
              Memory.LatestContext(ms).value in ms && Memory.IsContext(Memory.LatestContext(ms).value)
  {
    if ms != [] && !Memory.IsContext(Last(ms)) {
      LatestIsContext(Init(ms));
    }
  }

  /** Text neither asks nor answers. */
  lemma CarriedIsInert(latest: Message, plan: seq<Plan.PlanStep>, context: Message)
    requires Carries(latest, plan, context) && Inert(latest)
    ensures Inert(context) && context.role == latest.role
  {
    if context != latest {
      assert context.content == [context.content[0]];
    }
  }

  lemma ContextIsInert(ms: seq<Message>, plan: seq<Plan.PlanStep>, context: Option<Message>)
    requires Context(ms, plan, context) && ContextsAreInert(ms)
    ensures context.Some? ==> Inert(context.value)
  {
    if context.Some? {
      LatestIsContext(ms);
      CarriedIsInert(Memory.LatestContext(ms).value, plan, context.value);
    }
  }

  lemma PairedInFront(m: Message, ms: seq<Message>)
    requires Inert(m) && Paired(ms, [])
    ensures Paired([m] + ms, [])
  {
    assert ([m] + ms)[1..] == ms;
  }

  lemma TailStaysPaired(ms: seq<Message>, keepTail: int)
    requires Paired(ms, []) && ContextsAreInert(ms)
    ensures Paired(Tail(ms, keepTail), [])
  {
    var talk := Talk(ms);
    SelectPaired(ms, Memory.IsTalk, []);
    TailIsPaired(talk, |talk| - TailLength(keepTail, |talk|));
  }

  lemma FrontIsPaired(context: Option<Message>, summary: Message, tail: seq<Message>)
    requires (context.Some? ==> Inert(context.value)) && Inert(summary) && Paired(tail, [])
    ensures Paired(Optional(context) + [summary] + tail, [])
  {
    PairedInFront(summary, tail);
    if context.Some? {
      PairedInFront(context.value, [summary] + tail);
      assert Optional(context) + [summary] + tail == [context.value] + ([summary] + tail);
    } else {
      assert Optional(context) + [summary] + tail == [summary] + tail;
    }
  }

  /** From a transcript whose calls and results pair up, every successful compaction
      leaves one: no orphaned result, no unanswered call. */
  lemma CompactionKeepsPairs(ms: seq<Message>, keepTail: int, r: Response, plan: seq<Plan.PlanStep>, b: Built)
    requires Builds(ms, keepTail, r, plan, b) && b.Compacted?
    requires Paired(ms, []) && ContextsAreInert(ms)
    ensures Paired(b.next, [])
  {
    var context :| Context(ms, plan, context) && b.next == Next(ms, keepTail, b.summary, context);
    TailStaysPaired(ms, keepTail);
    ContextIsInert(ms, plan, context);
    FrontIsPaired(context, Summary(b.summary, Activated(Talk(ms))), Tail(ms, keepTail));
  }

  // ------------------------------------------------------------------------ shape

  lemma TalkHasNoContext(ms: seq<Message>)
    ensures forall m :: m in Talk(ms) ==> m in ms && Memory.IsTalk(m)
  {
    if ms != [] {
      TalkHasNoContext(ms[1..]);
    }
  }

  /** Repair keeps role, marker and names of what it keeps. */
  lemma {:induction false} RepairedFrom(ms: seq<Message>, open: multiset<string>, i: nat) returns (j: nat)
    requires i < |Repaired(ms, open)|
    ensures j < |ms| && Repaired(ms, open)[i] == ms[j].(content := Repaired(ms, open)[i].content)
    decreases |ms|
  {
    RepairedCons(ms, open);
    var kept, next := Filtered(ms[0].content, open), OpenAfter(ms[0].content, open);
    if kept != [] && i == 0 {
      j := 0;
    } else {
      var k := RepairedFrom(ms[1..], next, if kept == [] then i else i - 1);
      j := k + 1;
    }
  }

  /** A user's message of one text: the header, an empty line, the summary. */
  ghost predicate Tells(m: Message, summary: Bytes) {
    && m.role == User && !m.internal
    && m.content == [Text(Ascii("## Context Summary (compacted)") + [0x0A, 0x0A] + summary)]
  }

  /** Where the summary stands. */
  function Front(ms: seq<Message>): nat {
    if Memory.HasContext(ms) then 1 else 0
  }

  /** The newest host context of `ms`, with the checklist, is m. */
  ghost predicate CarriesNewest(ms: seq<Message>, plan: seq<Plan.PlanStep>, m: Message) {
    exists i :: Memory.NewestContext(ms, i) && Carries(ms[i], plan, m)
  }

  /** The summary's place and text. */
  lemma SummaryStands(ms: seq<Message>, keepTail: int, r: Response, plan: seq<Plan.PlanStep>, b: Built)
    requires Builds(ms, keepTail, r, plan, b) && b.Compacted?
    ensures Front(ms) < |b.next| && Tells(b.next[Front(ms)], b.summary)
    ensures forall name :: name in b.next[Front(ms)].addedToolNames <==> Activates(Talk(ms), name)
    ensures Engine.NoRepeats(b.next[Front(ms)].addedToolNames)
  {
    var context :| Context(ms, plan, context) && b.next == Next(ms, keepTail, b.summary, context);
    Memory.LatestIffAny(ms);
    assert b.next[Front(ms)] == Summary(b.summary, Activated(Talk(ms)));
    forall name ensures name in Activated(Talk(ms)) <==> Activates(Talk(ms), name) {
      ActivatedExactly(Talk(ms), name);
    }
    ActivatedExactly(Talk(ms), "");
  }

  lemma NewestCarried(ms: seq<Message>, plan: seq<Plan.PlanStep>, m: Message)
    requires Context(ms, plan, Some(m))
    ensures CarriesNewest(ms, plan, m)
  {
    var at := Memory.LatestIsNewest(ms);
    assert Carries(ms[at], plan, m);
  }

  /** At most one host context, in front, the newest one with the checklist; then the
      summary; then, repaired, the last `keepTail` messages of the conversation. */
  lemma CompactionShape(ms: seq<Message>, keepTail: int, r: Response, plan: seq<Plan.PlanStep>, b: Built)
    requires Builds(ms, keepTail, r, plan, b) && b.Compacted?
    ensures var front := Front(ms);
            && |b.next| > front
            && (forall i :: 0 <= i < |b.next| ==> (Memory.IsContext(b.next[i]) <==> i < front))
            && (front == 1 ==> CarriesNewest(ms, plan, b.next[0]))
            && Tells(b.next[front], b.summary)
            && Queue.TrimmedTo(Deltas(r.events), b.summary)
    ensures var talk := Talk(ms);
            var from := if keepTail <= 0 then |talk| else if keepTail >= |talk| then 0 else |talk| - keepTail;
            b.next[Front(ms) + 1..] == Repaired(talk[from..], multiset{})
  {
    var context :| Context(ms, plan, context) && b.next == Next(ms, keepTail, b.summary, context);
    Queue.TrimIs(Deltas(r.events));
    SummaryStands(ms, keepTail, r, plan, b);
    PartsStand(ms, keepTail, plan, b.summary, context);
    if context.Some? {
      NewestCarried(ms, plan, b.next[0]);
    }
    TailIsLast(ms, keepTail);
    ContextsInFront(ms, keepTail, b.next, Front(ms));
  }

  lemma PartsStand(ms: seq<Message>, keepTail: int, plan: seq<Plan.PlanStep>, summary: Bytes, context: Option<Message>)
    requires Context(ms, plan, context)
    ensures var next, front := Next(ms, keepTail, summary, context), Front(ms);
            && (context.Some? <==> front == 1) && |next| > front && next[front + 1..] == Tail(ms, keepTail)
            && (front == 1 ==> next[0] == context.value && Memory.IsContext(next[0]))
  {
    Memory.LatestIffAny(ms);
    LatestIsContext(ms);
  }

  lemma TailIsLast(ms: seq<Message>, keepTail: int)
    ensures var talk := Talk(ms);
            var from := if keepTail <= 0 then |talk| else if keepTail >= |talk| then 0 else |talk| - keepTail;
            Tail(ms, keepTail) == Repaired(talk[from..], multiset{})
  {
  }

  lemma ContextsInFront(ms: seq<Message>, keepTail: int, next: seq<Message>, front: nat)
    requires front < |next| && next[front + 1..] == Tail(ms, keepTail) && !Memory.IsContext(next[front])
    requires front <= 1 && (front == 1 ==> Memory.IsContext(next[0]))
    ensures forall i :: 0 <= i < |next| ==> (Memory.IsContext(next[i]) <==> i < front)
  {
    var tail := Tail(ms, keepTail);
    forall i | 0 <= i < |next| ensures Memory.IsContext(next[i]) <==> i < front {
      if i > front {
        TailFromTalk(ms, keepTail, i - front - 1);
        assert next[i] == tail[i - front - 1];
      }
    }
  }

  /** The text of a stream is that of its parts, in order. */
  lemma {:induction false} DeltasConcat(a: seq<StreamEvent>, b: seq<StreamEvent>)
    ensures Deltas(a + b) == Deltas(a) + Deltas(b)
  {
    if b == [] {
      assert a + b == a;
    } else {
      assert Init(a + b) == a + Init(b) && Last(a + b) == Last(b);
      DeltasConcat(a, Init(b));
      ConcatAssociates(Deltas(a), Deltas(Init(b)), if Last(b).Delta? then Last(b).text else []);
    }
  }

  /** A delta adds its text and nothing else adds any; with the one before: all text,
      in order. */
  lemma DeltasOne(e: StreamEvent)
    ensures Deltas([]) == []
    ensures Deltas([e]) == if e.Delta? then e.text else []
  {
    assert Init([e]) == [] && Last([e]) == e;
    assert Deltas([]) == [];
  }

  lemma TailFromTalk(ms: seq<Message>, keepTail: int, i: nat)
    requires i < |Tail(ms, keepTail)|
    ensures exists m :: m in Talk(ms) && Tail(ms, keepTail)[i] == m.(content := Tail(ms, keepTail)[i].content)
    ensures !Memory.IsContext(Tail(ms, keepTail)[i])
  {
    var talk := Talk(ms);
    var cut := talk[|talk| - TailLength(keepTail, |talk|)..];
    var j := RepairedFrom(cut, multiset{}, i);
    assert cut[j] in talk;
    TalkHasNoContext(ms);
  }

  // ------------------------------------------------------------- activated tools

  ghost predicate Activates(ms: seq<Message>, name: string) {
    exists i :: 0 <= i < |ms| && name in ms[i].addedToolNames
  }

  lemma ActivatesSnoc(ms: seq<Message>, name: string)
    requires ms != []
    ensures Activates(ms, name) <==> Activates(Init(ms), name) || name in Last(ms).addedToolNames
  {
    if Activates(Init(ms), name) {
      var i :| 0 <= i < |Init(ms)| && name in Init(ms)[i].addedToolNames;
      assert name in ms[i].addedToolNames;
    }
    if Activates(ms, name) {
      var i :| 0 <= i < |ms| && name in ms[i].addedToolNames;
      assert i < |ms| - 1 ==> Init(ms)[i] == ms[i];
    }
  }

  /** Every activated name, once. */
  lemma {:induction false} ActivatedExactly(ms: seq<Message>, name: string)
    ensures name in Activated(ms) <==> Activates(ms, name)
    ensures Engine.NoRepeats(Activated(ms))
  {
    if ms != [] {
      ActivatedExactly(Init(ms), name);
      ActivatesSnoc(ms, name);
      Engine.AddNamesAdds(Activated(Init(ms)), Last(ms).addedToolNames);
    }
  }

  lemma TailActivates(ms: seq<Message>, keepTail: int, name: string)
    requires Activates(Tail(ms, keepTail), name)
    ensures Activates(Talk(ms), name)
  {
    var tail := Tail(ms, keepTail);
    var i :| 0 <= i < |tail| && name in tail[i].addedToolNames;
    TailFromTalk(ms, keepTail, i);
    var m :| m in Talk(ms) && tail[i] == m.(content := tail[i].content);
    var j :| 0 <= j < |Talk(ms)| && Talk(ms)[j] == m;
    assert name in Talk(ms)[j].addedToolNames;
  }

  /** After a compaction a tool is active exactly if the conversation activated it, or
      the retained context itself did. */
  lemma CompactionKeepsTools(ms: seq<Message>, keepTail: int, r: Response, plan: seq<Plan.PlanStep>, b: Built, name: string)
    requires Builds(ms, keepTail, r, plan, b) && b.Compacted?
    ensures Activates(b.next, name) <==> Activates(Talk(ms), name) || Retains(ms, name)
  {
    var context :| Context(ms, plan, context) && b.next == Next(ms, keepTail, b.summary, context);
    var summary := Summary(b.summary, Activated(Talk(ms)));
    var front := |Optional(context)|;
    ActivatedExactly(Talk(ms), name);
    if name in summary.addedToolNames {
      assert b.next[front] == summary;
    }
    if context.Some? && name in context.value.addedToolNames {
      assert b.next[0] == context.value;
    }
    if Activates(b.next, name) {
      var i :| 0 <= i < |b.next| && name in b.next[i].addedToolNames;
      if i > front {
        assert b.next[i] == Tail(ms, keepTail)[i - front - 1];
        assert Activates(Tail(ms, keepTail), name);
        TailActivates(ms, keepTail, name);
      }
    }
  }

  /** The newest host context activates the tool itself. */
  ghost predicate Retains(ms: seq<Message>, name: string) {
    Memory.LatestContext(ms).Some? && name in Memory.LatestContext(ms).value.addedToolNames
  }

  lemma TalkActivates(ms: seq<Message>, name: string)
    ensures Activates(Talk(ms), name) || Retains(ms, name) ==> Activates(ms, name)
  {
    if Activates(Talk(ms), name) {
      var i :| 0 <= i < |Talk(ms)| && name in Talk(ms)[i].addedToolNames;
      TalkHasNoContext(ms);
      assert Talk(ms)[i] in Talk(ms);
      var j :| 0 <= j < |ms| && ms[j] == Talk(ms)[i];
    }
    if Retains(ms, name) {
      LatestIsContext(ms);
      var j :| 0 <= j < |ms| && ms[j] == Memory.LatestContext(ms).value;
    }
  }

  /** The set of active tools is unchanged exactly when no superseded host context had
      activated a tool nothing else did. */
  lemma ToolsUnchangedIff(ms: seq<Message>, keepTail: int, r: Response, plan: seq<Plan.PlanStep>, b: Built, name: string)
    requires Builds(ms, keepTail, r, plan, b) && b.Compacted?
    ensures (Activates(b.next, name) <==> Activates(ms, name)) <==>
            !(Superseded(ms, name) && !Activates(Talk(ms), name) && !Retains(ms, name))
  {
    CompactionKeepsTools(ms, keepTail, r, plan, b, name);
    TalkActivates(ms, name);
    if Activates(ms, name) && !Activates(Talk(ms), name) {
      var i :| 0 <= i < |ms| && name in ms[i].addedToolNames;
      if !Memory.IsContext(ms[i]) {
        InTalk(ms, i, name);
      }
      assert Superseded(ms, name);
    }
  }

  /** A host context that activates a tool, a newer one, and a user's message. */
  function TwoContexts(name: string): seq<Message> {
    [Message(Developer, [], [name], true), Message(Developer, [], [], true), Message(User, [], [], false)]
  }

  lemma TwoContextsParts(name: string)
    ensures Talk(TwoContexts(name)) == [Message(User, [], [], false)]
    ensures Memory.LatestContext(TwoContexts(name)) == Some(Message(Developer, [], [], true))
  {
    var ms := TwoContexts(name);
    SelectCons(ms, Memory.IsTalk);
    SelectCons(ms[1..], Memory.IsTalk);
    SelectCons(ms[2..], Memory.IsTalk);
    assert ms[1..] == [ms[1], ms[2]] && ms[1..][1..] == [ms[2]] == ms[2..] && [ms[2]][1..] == [];
    assert Init(ms) == [ms[0], ms[1]];
  }

  lemma OneDelta(letter: Byte)
    requires !Queue.Blank(letter)
    ensures var events := [Delta([letter])]; !Fails(events) && Queue.Trim(Deltas(events)) == [letter]
  {
    var events := [Delta([letter])];
    assert Init(events) == [] && Deltas(events) == [] + [letter] == [letter];
  }

  lemma BuildsSummary(name: string, letter: Byte) returns (b: Built)
    requires !Queue.Blank(letter)
    ensures Builds(TwoContexts(name), 0, Response(true, true, [Delta([letter])]), [], b) && b.Compacted?
  {
    var ms := TwoContexts(name);
    TwoContextsParts(name);
    OneDelta(letter);
    var context := Memory.LatestContext(ms);
    assert Context(ms, [], context);
    b := Compacted(Next(ms, 0, [letter], context), [letter]);
  }

  /** A tool lost: only the older context had activated it. The agent's own context
      messages carry no tool names; a session resumed from a shortened transcript puts
      the names of the part it cut off on whatever message comes first
      (packages/agent/cli.go:159-167), a host context included. */
  lemma SupersededToolIsLost(name: string, letter: Byte) returns (b: Built)
    requires !Queue.Blank(letter)
    ensures var ms := TwoContexts(name);
            && Builds(ms, 0, Response(true, true, [Delta([letter])]), [], b) && b.Compacted?
            && Activates(ms, name) && !Activates(b.next, name)
  {
    var ms := TwoContexts(name);
    TwoContextsParts(name);
    b := BuildsSummary(name, letter);
    CompactionKeepsTools(ms, 0, Response(true, true, [Delta([letter])]), [], b, name);
    assert name in ms[0].addedToolNames;
  }

  ghost predicate Superseded(ms: seq<Message>, name: string) {
    exists i :: 0 <= i < |ms| && Memory.IsContext(ms[i]) && name in ms[i].addedToolNames
  }

  lemma {:induction false} InTalk(ms: seq<Message>, i: nat, name: string)
    requires i < |ms| && !Memory.IsContext(ms[i]) && name in ms[i].addedToolNames
    ensures Activates(Talk(ms), name)
  {
    SelectCons(ms, Memory.IsTalk);
    if i > 0 {
      InTalk(ms[1..], i - 1, name);
      var j :| 0 <= j < |Talk(ms[1..])| && name in Talk(ms[1..])[j].addedToolNames;
      assert name in Talk(ms)[if Memory.IsContext(ms[0]) then j else j + 1].addedToolNames;
    } else {
      assert Talk(ms)[0] == ms[0];
    }
  }
}
