/** The provider's view of a transcript (packages/core/context_budget.go:17-50 and
    136-218): stale results become a marker, the others are capped in bytes.

    `Project` says what the view is; `ProjectToolResultMessages` builds it the way
    the code does, by copying the block arrays and overwriting the copy. */
module Projection {
  import opened Transcript
  import StaleIndex
  import StaleTranscript
  import ContextBudget
  import Utf8

  const MAX_TOOL_RESULT_TEXT_BYTES := 32 * 1024
  const OMISSION_MARKER: Bytes := Ascii("[tool result content omitted]")
  const STALE_MARKER: Bytes := Ascii("[stale tool result omitted; a newer workspace view supersedes it]")

  // ------------------------------------------------------ one result's content

  /** The text of a result, block after block. */
  function TextOf(content: seq<Content>): Bytes {
    if content == [] then []
    else if content[0].Text? then content[0].text + TextOf(content[1..])
    else TextOf(content[1..])
  }

  function NonText(content: seq<Content>): seq<Content> {
    if content == [] then []
    else if content[0].Text? then NonText(content[1..])
    else [content[0]] + NonText(content[1..])
  }

  /** The content kept when the text does not fit: whole blocks while they fit, a
      character-safe prefix of the first that does not, then no more text. */
  function Truncated(content: seq<Content>, budget: nat): seq<Content> {
    if content == [] then []
    else if !content[0].Text? then [content[0]] + Truncated(content[1..], budget)
    else if |content[0].text| <= budget then [content[0]] + Truncated(content[1..], budget - |content[0].text|)
    else
      var p := Utf8.Prefix(content[0].text, budget);
      (if p == [] then [] else [Text(p)]) + NonText(content[1..])
  }

  /** How many bytes of text that keeps. */
  function Used(content: seq<Content>, budget: nat): nat {
    if content == [] then 0
    else if !content[0].Text? then Used(content[1..], budget)
    else if |content[0].text| <= budget then |content[0].text| + Used(content[1..], budget - |content[0].text|)
    else |Utf8.Prefix(content[0].text, budget)|
  }

  function ProjectContent(content: seq<Content>, limit: nat): seq<Content> {
    if |TextOf(content)| <= limit then content
    else Truncated(content, limit) + [Text(OMISSION_MARKER)]
  }

  lemma {:induction false} NonTextFacts(content: seq<Content>)
    ensures TextOf(NonText(content)) == [] && NonText(NonText(content)) == NonText(content)
  {
    if content != [] {
      NonTextFacts(content[1..]);
      if !content[0].Text? {
        var out := NonText(content);
        assert out[0] == content[0] && out[1..] == NonText(content[1..]);
      }
    }
  }

  ghost predicate ValidTexts(content: seq<Content>) {
    forall c :: c in content && c.Text? ==> Utf8.Valid(c.text)
  }

  /** Truncation keeps every non-text block in order and a prefix of the text,
      within budget; on well-formed text it gives up at most three bytes. */
  lemma {:induction false} TruncationKeeps(content: seq<Content>, budget: nat)
    ensures NonText(Truncated(content, budget)) == NonText(content)
    ensures TextOf(Truncated(content, budget)) <= TextOf(content)
    ensures |TextOf(Truncated(content, budget))| == Used(content, budget) <= budget
    ensures ValidTexts(content) && |TextOf(content)| > budget ==> Used(content, budget) >= budget - 3
    ensures ValidTexts(content) ==> ValidTexts(Truncated(content, budget))
  {
    if content != [] {
      var c, rest := content[0], content[1..];
      var out := Truncated(content, budget);
      if !c.Text? || |c.text| <= budget {
        var left := if c.Text? then budget - |c.text| else budget;
        TruncationKeeps(rest, left);
        assert out[0] == c && out[1..] == Truncated(rest, left);
      } else {
        NonTextFacts(rest);
        var p := Utf8.Prefix(c.text, budget);
        if ValidTexts(content) && 0 < budget {
          Utf8.CutKeepsCharacters(c.text, budget);
        }
        NonTextSubset(rest);
        assert p <= c.text;
        if p == [] {
          assert out == NonText(rest);
        } else {
          assert out[0] == Text(p) && out[1..] == NonText(rest);
          assert TextOf(out) == p + [];
        }
      }
    }
  }

  lemma {:induction false} NonTextSubset(content: seq<Content>)
    ensures forall c :: c in NonText(content) ==> c in content && !c.Text?
  {
    if content != [] {
      NonTextSubset(content[1..]);
    }
  }

  lemma {:induction false} TextOfConcat(a: seq<Content>, b: seq<Content>)
    ensures TextOf(a + b) == TextOf(a) + TextOf(b)
  {
    if a == [] {
      assert a + b == b;
    } else {
      TextOfConcat(a[1..], b);
      assert (a + b)[0] == a[0] && (a + b)[1..] == a[1..] + b;
    }
  }

  lemma TextOfOne(c: Content)
    ensures TextOf([c]) == if c.Text? then c.text else []
  {
    assert [c][1..] == [];
  }

  lemma NonTextCons(c: Content, rest: seq<Content>)
    ensures NonText([c] + rest) == (if c.Text? then [] else [c]) + NonText(rest)
  {
    assert ([c] + rest)[0] == c && ([c] + rest)[1..] == rest;
  }

  /** The blocks other than text, in order: of two contents, first those of the one and
      then those of the other; of a block, itself unless it is text. */
  lemma {:induction false} NonTextConcat(a: seq<Content>, b: seq<Content>)
    ensures NonText(a + b) == NonText(a) + NonText(b)
  {
    if a == [] {
      assert a + b == b;
    } else {
      var c, rest := a[0], a[1..];
      assert a == [c] + rest && a + b == [c] + (rest + b);
      NonTextConcat(rest, b);
      NonTextCons(c, rest + b);
      NonTextCons(c, rest);
      ConcatAssociates(if c.Text? then [] else [c], NonText(rest), NonText(b));
    }
  }

  lemma NonTextOne(c: Content)
    ensures NonText([c]) == (if c.Text? then [] else [c]) && NonText([]) == []
  {
    assert [c][1..] == [];
  }

  method ToolResultTextBytes(content: seq<Content>) returns (total: nat)
    ensures total == |TextOf(content)|
  {
    total := 0;
    for i := 0 to |content|
      invariant total == |TextOf(content[..i])|
    {
      TextOfConcat(content[..i], [content[i]]);
      TextOfOne(content[i]);
      assert content[..i + 1] == content[..i] + [content[i]];
      if content[i].Text? {
        total := total + |content[i].text|;
      }
    }
    assert content[..|content|] == content;
  }

  /** Appends the next block of what is still to come. */
  method Shift(out: seq<Content>, ghost tail: seq<Content>, block: Content, ghost whole: seq<Content>)
    returns (out': seq<Content>, ghost tail': seq<Content>)
    requires out + tail == whole && tail != [] && tail[0] == block
    ensures out' == out + [block] && tail' == tail[1..] && out' + tail' == whole
  {
    out', tail' := out + [block], tail[1..];
  }

  /** `used` counts the tool output kept, not the notice. */
  method ProjectToolResultContent(content: seq<Content>, limit: nat) returns (out: seq<Content>, used: nat)
    ensures out == ProjectContent(content, limit)
    ensures used == if |TextOf(content)| <= limit then |TextOf(content)| else Used(content, limit)
  {
    var textBytes := ToolResultTextBytes(content);
    if textBytes <= limit {
      return content, textBytes;
    }
    out := [];
    var remaining: nat := limit;
    var truncated := false;
    used := 0;
    ghost var tail := Truncated(content, limit);
    for i := 0 to |content|
      invariant tail == if truncated then NonText(content[i..]) else Truncated(content[i..], remaining)
      invariant out + tail == Truncated(content, limit)
      invariant used + (if truncated then 0 else Used(content[i..], remaining)) == Used(content, limit)
    {
      var block := content[i];
      ghost var rest := content[i..];
      assert rest[0] == block && rest[1..] == content[i + 1..];
      if !block.Text? {
        out, tail := Shift(out, tail, block, Truncated(content, limit));
        continue;
      }
      if truncated {
        continue;
      }
      if |block.text| <= remaining {
        out, tail := Shift(out, tail, block, Truncated(content, limit));
        remaining := remaining - |block.text|;
        used := used + |block.text|;
        continue;
      }
      var p := Utf8.Utf8Prefix(block.text, remaining);
      if p != [] {
        out, tail := Shift(out, tail, Text(p), Truncated(content, limit));
      }
      used := used + |p|;
      truncated := true;
    }
    assert tail == [];
    assert out == Truncated(content, limit);
    out := out + [Text(OMISSION_MARKER)];
  }

  // ----------------------------------------------------------- the whole view

  function ProjectBlock(c: Content, stale: set<string>): Content {
    if !c.ToolResult? then c
    else if c.callID in stale then c.(content := [Text(STALE_MARKER)])
    else
      c.(content := ProjectContent(c.content, MAX_TOOL_RESULT_TEXT_BYTES)
                    + if c.timing.Some? then [Text(c.timing.value)] else [])
  }

  function ProjectBlocks(blocks: seq<Content>, stale: set<string>): seq<Content> {
    seq(|blocks|, j requires 0 <= j < |blocks| => ProjectBlock(blocks[j], stale))
  }

  function StaleOf(msgs: seq<Message>): set<string> {
    StaleIndex.Run(StaleIndex.Touches(StaleIndex.Blocks(msgs))).stale
  }

  function Project(msgs: seq<Message>): seq<Message> {
    seq(|msgs|, i requires 0 <= i < |msgs| => msgs[i].(content := ProjectBlocks(msgs[i].content, StaleOf(msgs))))
  }

  /** A message as stored: its blocks live in an array the projection must not touch. */
  datatype Stored = Stored(role: Role, blocks: array<Content>, addedToolNames: seq<string>, internal: bool)

  function Value(m: Stored): Message
    reads m.blocks
  {
    Message(m.role, m.blocks[..], m.addedToolNames, m.internal)
  }

  function Arrays(msgs: seq<Stored>): set<array<Content>> {
    set m | m in msgs :: m.blocks
  }

  function Values(msgs: seq<Stored>): (r: seq<Message>)
    reads Arrays(msgs)
  {
    seq(|msgs|, i requires 0 <= i < |msgs| reads Arrays(msgs) => Value(msgs[i]))
  }

  ghost predicate Separate(msgs: seq<Stored>) {
    forall i, j :: 0 <= i < j < |msgs| ==> msgs[i].blocks != msgs[j].blocks
  }

  /** Every block array of the result is new, so writing to it leaves `msgs` alone. */
  method CopyToolResultMessages(msgs: seq<Stored>) returns (out: seq<Stored>)
    ensures |out| == |msgs| && Separate(out)
    ensures forall k :: 0 <= k < |out| ==> fresh(out[k].blocks)
    ensures forall k :: 0 <= k < |out| ==> Value(out[k]) == old(Value(msgs[k]))
  {
    out := [];
    for i := 0 to |msgs|
      invariant |out| == i && Separate(out)
      invariant forall k :: 0 <= k < i ==> fresh(out[k].blocks)
      invariant forall k :: 0 <= k < i ==> Value(out[k]) == old(Value(msgs[k]))
    {
      var blocks := new Content[msgs[i].blocks.Length](j requires 0 <= j < msgs[i].blocks.Length reads msgs[i].blocks
                                                       => msgs[i].blocks[j]);
      assert blocks[..] == msgs[i].blocks[..];
      out := out + [msgs[i].(blocks := blocks)];
    }
  }

  method ProjectResult(c: Content, stale: set<string>) returns (result: Content)
    requires c.ToolResult?
    ensures result == ProjectBlock(c, stale)
  {
    result := c;
    if c.callID in stale {
      return c.(content := [Text(STALE_MARKER)]);
    }
    var textBytes := ToolResultTextBytes(c.content);
    if textBytes > 0 {
      var content, _ := ProjectToolResultContent(c.content, MAX_TOOL_RESULT_TEXT_BYTES);
      result := result.(content := content);
    }
    if c.timing.Some? {
      result := result.(content := result.content + [Text(c.timing.value)]);
    }
  }

  method ProjectBlocksInPlace(blocks: array<Content>, stale: set<string>)
    modifies blocks
    ensures blocks[..] == ProjectBlocks(old(blocks[..]), stale)
  {
    for j := 0 to blocks.Length
      invariant forall k :: 0 <= k < j ==> blocks[k] == ProjectBlock(old(blocks[k]), stale)
      invariant forall k :: j <= k < blocks.Length ==> blocks[k] == old(blocks[k])
    {
      if blocks[j].ToolResult? {
        blocks[j] := ProjectResult(blocks[j], stale);
      }
    }
  }

  method ProjectEach(msgs: seq<Stored>, stale: set<string>)
    requires Separate(msgs)
    modifies Arrays(msgs)
    ensures forall k :: 0 <= k < |msgs| ==>
              Value(msgs[k]) == old(Value(msgs[k])).(content := ProjectBlocks(old(Value(msgs[k])).content, stale))
  {
    for i := 0 to |msgs|
      invariant forall k :: 0 <= k < i ==>
                  Value(msgs[k]) == old(Value(msgs[k])).(content := ProjectBlocks(old(Value(msgs[k])).content, stale))
      invariant forall k :: i <= k < |msgs| ==> Value(msgs[k]) == old(Value(msgs[k]))
    {
      ProjectBlocksInPlace(msgs[i].blocks, stale);
    }
  }

  /** The input transcript is read only: nothing but new arrays is written. */
  method ProjectToolResultMessages(msgs: seq<Stored>) returns (projected: seq<Stored>)
    ensures forall k :: 0 <= k < |projected| ==> fresh(projected[k].blocks)
    ensures Values(projected) == Project(old(Values(msgs)))
    ensures Displays(old(Values(msgs)), Values(projected))
  {
    Displayed(Values(msgs));
    projected := CopyToolResultMessages(msgs);
    assert Values(projected) == old(Values(msgs));
    var stale := ContextBudget.StaleToolResultIDs(Values(projected));
    ProjectEach(projected, stale);
    assert Values(projected) == Project(old(Values(msgs)));
  }

  // --------------------------------------------------------------- what it keeps

  /** Shape, identity and provenance of every block survive the projection; a
      result that is not stale keeps its other blocks and a bounded prefix of its text. */
  lemma ProjectionFaithful(msgs: seq<Message>, i: nat, j: nat)
    requires i < |msgs| && j < |msgs[i].content|
    ensures var p := Project(msgs);
            && |p| == |msgs| && p[i].role == msgs[i].role && p[i].addedToolNames == msgs[i].addedToolNames
            && |p[i].content| == |msgs[i].content|
    ensures var c, d := msgs[i].content[j], Project(msgs)[i].content[j];
            && (!c.ToolResult? ==> d == c)
            && (c.ToolResult? ==> d.ToolResult? && d == c.(content := d.content))
            && (c.ToolResult? && c.callID in StaleOf(msgs) ==>
                  d.content == [Text(Ascii("[stale tool result omitted; a newer workspace view supersedes it]"))])
            && (c.ToolResult? && c.callID !in StaleOf(msgs) ==> KeepsResult(c, d.content))
  {
    var c := msgs[i].content[j];
    if c.ToolResult? && c.callID !in StaleOf(msgs) {
      ResultKept(c);
    }
  }

  /** What the view of a live result shows: everything if its text fits, else the other
      blocks, a prefix of the text and the notice; and in the end its timing, if any. */
  ghost predicate KeepsResult(c: Content, shown: seq<Content>)
    requires c.ToolResult?
  {
    exists kept: seq<Content> ::
      && shown == kept + Notes(c)
      && NonText(kept) == NonText(c.content)
      && TextOf(kept) <= TextOf(c.content)
      && |TextOf(kept)| <= 32768
      && (|TextOf(c.content)| <= 32768 ==> kept == c.content)
      && (|TextOf(c.content)| > 32768 && ValidTexts(c.content) ==> ValidTexts(kept) && |TextOf(kept)| >= 32765)
  }

  function Notes(c: Content): seq<Content>
    requires c.ToolResult?
  {
    (if |TextOf(c.content)| > 32768 then [Text(Ascii("[tool result content omitted]"))] else [])
    + (if c.timing.Some? then [Text(c.timing.value)] else [])
  }

  lemma ResultKept(c: Content)
    requires c.ToolResult?
    ensures KeepsResult(c, ProjectContent(c.content, MAX_TOOL_RESULT_TEXT_BYTES)
                           + if c.timing.Some? then [Text(c.timing.value)] else [])
  {
    var timing := if c.timing.Some? then [Text(c.timing.value)] else [];
    var whole := |TextOf(c.content)| <= MAX_TOOL_RESULT_TEXT_BYTES;
    var kept := if whole then c.content else Truncated(c.content, MAX_TOOL_RESULT_TEXT_BYTES);
    TruncationKeeps(c.content, MAX_TOOL_RESULT_TEXT_BYTES);
    assert Notes(c) == (if whole then [] else [Text(OMISSION_MARKER)]) + timing;
    assert ProjectContent(c.content, MAX_TOOL_RESULT_TEXT_BYTES) + timing == kept + Notes(c);
  }

  /** The result at (i, j) is shown as stale if its place and those of the others make it
      so; else what it says is kept. */
  ghost predicate DisplayedAt(msgs: seq<Message>, p: seq<Message>, i: int, j: int)
    requires StaleTranscript.CountsAt(msgs, i, j)
  {
    var c := msgs[i].content[j];
    && i < |p| && j < |p[i].content| && p[i].content[j].ToolResult?
    && p[i].content[j] == c.(content := p[i].content[j].content)
    && if StaleTranscript.StaleAt(msgs, i, j)
       then p[i].content[j].content == [Text(Ascii("[stale tool result omitted; a newer workspace view supersedes it]"))]
       else KeepsResult(c, p[i].content[j].content)
  }

  ghost predicate Displays(msgs: seq<Message>, p: seq<Message>) {
    StaleTranscript.UniqueIDs(msgs) ==> forall i, j :: StaleTranscript.CountsAt(msgs, i, j) ==> DisplayedAt(msgs, p, i, j)
  }

  /** With distinct call IDs a successful result is shown as stale if and only if later
      results make it so, told by its place and theirs. */
  lemma StaleShownIff(msgs: seq<Message>, i: nat, j: nat)
    requires StaleTranscript.UniqueIDs(msgs) && StaleTranscript.CountsAt(msgs, i, j)
    ensures DisplayedAt(msgs, Project(msgs), i, j)
  {
    StaleTranscript.TranscriptIndexIsDefinition(msgs, i, j);
    ProjectionFaithful(msgs, i, j);
  }

  lemma Displayed(msgs: seq<Message>)
    ensures Displays(msgs, Project(msgs))
  {
    if StaleTranscript.UniqueIDs(msgs) {
      forall i, j | StaleTranscript.CountsAt(msgs, i, j) ensures DisplayedAt(msgs, Project(msgs), i, j) {
        StaleShownIff(msgs, i, j);
      }
    }
  }

  lemma {:induction false} BlocksConcat(a: seq<Message>, b: seq<Message>)
    ensures StaleIndex.Blocks(a + b) == StaleIndex.Blocks(a) + StaleIndex.Blocks(b)
  {
    if b == [] {
      assert a + b == a;
    } else {
      BlocksConcat(a, Init(b));
      assert Init(a + b) == a + Init(b);
    }
  }

  lemma TouchesStep(a: seq<Content>, front: seq<Content>, c: Content)
    requires StaleIndex.Touches(a + front) == StaleIndex.Touches(a) + StaleIndex.Touches(front)
    ensures StaleIndex.Touches(a + (front + [c])) == StaleIndex.Touches(a) + StaleIndex.Touches(front + [c])
  {
    ConcatAssociates(a, front, [c]);
    ContextBudget.TouchesSnoc(a + front, c);
    ContextBudget.TouchesSnoc(front, c);
    ConcatAssociates(StaleIndex.Touches(a), StaleIndex.Touches(front), StaleIndex.TouchesOf(c));
  }

  lemma {:induction false} TouchesConcat(a: seq<Content>, b: seq<Content>)
    ensures StaleIndex.Touches(a + b) == StaleIndex.Touches(a) + StaleIndex.Touches(b)
  {
    if b == [] {
      assert a + b == a;
    } else {
      TouchesConcat(a, Init(b));
      TouchesStep(a, Init(b), Last(b));
      assert Init(b) + [Last(b)] == b;
    }
  }

  /** A result shown as stale stays stale however the conversation goes on. */
  lemma StaleForever(msgs: seq<Message>, more: seq<Message>)
    ensures StaleOf(msgs) <= StaleOf(msgs + more)
  {
    BlocksConcat(msgs, more);
    TouchesConcat(StaleIndex.Blocks(msgs), StaleIndex.Blocks(more));
    StaleIndex.StaleGrows(StaleIndex.Touches(StaleIndex.Blocks(msgs)), StaleIndex.Touches(StaleIndex.Blocks(more)));
  }
}
