/** The checklist carried over a compaction inside the retained context message
    (packages/core/compact.go:207-269): rendered, merged behind the context's own
    text, and found again by the last occurrence of its header. */
module PlanBlock {
  import opened Transcript
  import Plan

  const STEP_LIMIT := 12

  /** "## Current plan" and the line break that precedes every step line. */
  const HEADER: Bytes := Ascii("## Current plan")
  const NEWLINE: Byte := 0x0A
  const HASH: Byte := 0x23

  // ------------------------------------------------------------------ rendering

  function Decimal(n: nat): (digits: Bytes)
    ensures forall i :: 0 <= i < |digits| ==> 0x30 <= digits[i] <= 0x39
  {
    if n < 10 then [0x30 + n] else Decimal(n / 10) + [0x30 + n % 10]
  }

  function Marker(status: Plan.Status): Byte {
    match status
    case Completed => 0x78
    case InProgress => 0x7E
    case _ => 0x20
  }

  /** "1. [x] " */
  function Prefix(number: nat, status: Plan.Status): Bytes {
    Decimal(number) + [0x2E, 0x20, 0x5B, Marker(status), 0x5D, 0x20]
  }

  /** One line per step, each behind a line break; `first` numbers the first. */
  function Lines(steps: seq<Plan.PlanStep>, first: nat): Bytes {
    if steps == [] then []
    else [NEWLINE] + Prefix(first, steps[0].status) + steps[0].text + Lines(steps[1..], first + 1)
  }

  /** "…and 3 more (call action:\"show\")" */
  function More(remaining: nat): Bytes {
    if remaining == 0 then []
    else [NEWLINE, 0xE2, 0x80, 0xA6] + Ascii("and ") + Decimal(remaining) + Ascii(" more (call action:\"show\")")
  }

  function Shown(steps: seq<Plan.PlanStep>): seq<Plan.PlanStep> {
    if |steps| > STEP_LIMIT then steps[..STEP_LIMIT] else steps
  }

  function Render(steps: seq<Plan.PlanStep>): Bytes {
    if steps == [] then [] else HEADER + Lines(Shown(steps), 1) + More(|steps| - |Shown(steps)|)
  }

  lemma LinesNext(block: Bytes, steps: seq<Plan.PlanStep>, i: nat)
    requires i < |steps|
    ensures block + Lines(steps[i..], i + 1)
         == (block + [NEWLINE] + Prefix(i + 1, steps[i].status) + steps[i].text) + Lines(steps[i + 1..], i + 2)
  {
    assert steps[i..][1..] == steps[i + 1..];
    var line := [NEWLINE] + Prefix(i + 1, steps[i].status) + steps[i].text;
    assert Lines(steps[i..], i + 1) == line + Lines(steps[i + 1..], i + 2);
    assert block + line == block + [NEWLINE] + Prefix(i + 1, steps[i].status) + steps[i].text;
  }

  method RenderLines(steps: seq<Plan.PlanStep>) returns (lines: Bytes)
    ensures lines == Lines(steps, 1)
  {
    lines := [];
    for i := 0 to |steps|
      invariant lines + Lines(steps[i..], i + 1) == Lines(steps, 1)
    {
      LinesNext(lines, steps, i);
      lines := lines + [NEWLINE] + Prefix(i + 1, steps[i].status) + steps[i].text;
    }
  }

  method PlanContextBlock(steps: seq<Plan.PlanStep>) returns (block: Bytes)
    ensures block == Render(steps)
  {
    if steps == [] {
      return [];
    }
    var shown := steps;
    if |shown| > STEP_LIMIT {
      shown := shown[..STEP_LIMIT];
    }
    var lines := RenderLines(shown);
    block := HEADER + lines + More(|steps| - |shown|);
  }

  /** The number the digits spell. */
  function Spelled(digits: Bytes): nat
    requires forall i :: 0 <= i < |digits| ==> 0x30 <= digits[i] <= 0x39
  {
    if digits == [] then 0 else 10 * Spelled(Init(digits)) + (Last(digits) - 0x30)
  }

  lemma {:induction false} DecimalSpells(n: nat)
    ensures Spelled(Decimal(n)) == n && Decimal(n) != [] && (Decimal(n)[0] == 0x30 ==> n == 0)
  {
    var d := Decimal(n);
    if n < 10 {
      assert Init(d) == [];
    } else {
      DecimalSpells(n / 10);
      assert Init(d) == Decimal(n / 10);
    }
  }

  /** Step k's line: its number, a mark for its status, its text. */
  function LineOf(steps: seq<Plan.PlanStep>, k: nat): Bytes
    requires k < |steps|
  {
    var mark := match steps[k].status
                case Completed => Ascii("x")
                case InProgress => Ascii("~")
                case _ => Ascii(" ");
    [0x0A] + Decimal(k + 1) + Ascii(". [") + mark + Ascii("] ") + steps[k].text
  }

  lemma LineIs(steps: seq<Plan.PlanStep>, k: nat)
    requires k < |steps|
    ensures [NEWLINE] + Prefix(k + 1, steps[k].status) + steps[k].text == LineOf(steps, k)
  {
    var mark := match steps[k].status
                case Completed => Ascii("x")
                case InProgress => Ascii("~")
                case _ => Ascii(" ");
    assert mark == [Marker(steps[k].status)];
    assert Ascii(". [") == [0x2E, 0x20, 0x5B] && Ascii("] ") == [0x5D, 0x20];
    assert Prefix(k + 1, steps[k].status) == Decimal(k + 1) + Ascii(". [") + mark + Ascii("] ");
  }

  /** The lines of the first n steps, one behind the other. */
  lemma {:induction false} LinesGrow(steps: seq<Plan.PlanStep>, n: nat)
    requires n < |steps|
    ensures Lines(steps[..n + 1], 1) == Lines(steps[..n], 1) + LineOf(steps, n)
    ensures Lines([], 1) == []
  {
    assert steps[..n + 1] == steps[..n] + [steps[n]];
    LinesSnoc(steps[..n], steps[n], 1);
    LineIs(steps, n);
  }

  lemma {:induction false} LinesSnoc(steps: seq<Plan.PlanStep>, step: Plan.PlanStep, first: nat)
    ensures Lines(steps + [step], first)
         == Lines(steps, first) + ([NEWLINE] + Prefix(first + |steps|, step.status) + step.text)
    decreases |steps|
  {
    if steps == [] {
      assert [] + [step] == [step] && [step][1..] == [];
    } else {
      assert (steps + [step])[0] == steps[0] && (steps + [step])[1..] == steps[1..] + [step];
      LinesSnoc(steps[1..], step, first + 1);
      ConcatAssociates([NEWLINE] + Prefix(first, steps[0].status) + steps[0].text, Lines(steps[1..], first + 1),
                       [NEWLINE] + Prefix(first + |steps|, step.status) + step.text);
    }
  }

  /** The block: a header, a line for each of the first twelve steps, and how many more
      there are, if any. */
  lemma RenderIs(steps: seq<Plan.PlanStep>)
    ensures Render([]) == []
    ensures 0 < |steps| <= 12 ==> Render(steps) == Ascii("## Current plan") + Lines(steps, 1)
    ensures |steps| > 12 ==>
              Render(steps) == Ascii("## Current plan") + Lines(steps[..12], 1)
                               + ([0x0A, 0xE2, 0x80, 0xA6] + Ascii("and ") + Decimal(|steps| - 12) + Ascii(" more (call action:\"show\")"))
  {
    if 0 < |steps| <= 12 {
      assert Render(steps) == HEADER + Lines(steps, 1) + [];
    }
  }

  // -------------------------------------------------------------- occurrences

  predicate OccursAt(text: Bytes, i: int) {
    0 <= i <= |text| - |HEADER| && text[i..i + |HEADER|] == HEADER
  }

  /** The last occurrence of the header, -1 if there is none. */
  ghost predicate IsLast(text: Bytes, i: int) {
    && -1 <= i
    && (i >= 0 ==> OccursAt(text, i))
    && forall k :: i < k ==> !OccursAt(text, k)
  }

  method LastIndex(text: Bytes) returns (i: int)
    ensures IsLast(text, i)
  {
    i := |text| - |HEADER|;
    while i >= 0
      invariant -1 <= i || i == |text| - |HEADER|
      invariant forall k :: i < k ==> !OccursAt(text, k)
      decreases i + |HEADER|
    {
      if text[i..i + |HEADER|] == HEADER {
        return i;
      }
      i := i - 1;
    }
    return -1;
  }

  /** Spaces, tabs and line breaks at the end. */
  function TrimRight(text: Bytes): (t: Bytes)
    ensures t <= text && (t == [] || !Trimmed(Last(t)))
  {
    if text != [] && Trimmed(Last(text)) then TrimRight(Init(text)) else text
  }

  predicate Trimmed(b: Byte) {
    b == 0x20 || b == 0x09 || b == 0x0A
  }

  ghost predicate Tight(text: Bytes) {
    text == [] || !Trimmed(Last(text))
  }

  /** The text in front of the last header, or all of it. */
  ghost predicate Strips(text: Bytes, base: Bytes) {
    exists i :: IsLast(text, i) && base == if i < 0 then text else TrimRight(text[..i])
  }

  lemma LastIsUnique(text: Bytes, i: int, j: int)
    requires IsLast(text, i) && IsLast(text, j)
    ensures i == j
  {
  }

  method StripPlanContextBlock(text: Bytes) returns (base: Bytes)
    ensures Strips(text, base)
  {
    var i := LastIndex(text);
    base := if i < 0 then text else TrimRight(text[..i]);
  }

  /** The separator is an empty line. */
  function Joined(base: Bytes, block: Bytes): Bytes {
    if base == [] then block else base + [NEWLINE, NEWLINE] + block
  }

  /** `merged` is what a merge of `block` makes of a message's text. */
  ghost predicate Merges(text: Bytes, block: Bytes, merged: Bytes) {
    exists base :: Strips(text, base) && merged == Joined(base, block)
  }

  predicate SingleText(m: Message) {
    |m.content| == 1 && m.content[0].Text?
  }

  method MergePlanContextBlock(m: Message, block: Bytes) returns (r: Message)
    ensures block == [] || !SingleText(m) ==> r == m
    ensures block != [] && SingleText(m) ==> SingleText(r) && r == m.(content := r.content)
                                              && Merges(m.content[0].text, block, r.content[0].text)
  {
    if block == [] || |m.content| != 1 || !m.content[0].Text? {
      return m;
    }
    var base := StripPlanContextBlock(m.content[0].text);
    return m.(content := [Text(Joined(base, block))]);
  }

  // ------------------------------------------------- when the block is replaced

  /** The header is found at the block's own start and nowhere behind it. */
  ghost predicate Findable(block: Bytes) {
    IsLast(block, 0)
  }

  lemma StripsUnique(text: Bytes, a: Bytes, b: Bytes)
    requires Strips(text, a) && Strips(text, b)
    ensures a == b
  {
    var i :| IsLast(text, i) && a == if i < 0 then text else TrimRight(text[..i]);
    var j :| IsLast(text, j) && b == if j < 0 then text else TrimRight(text[..j]);
    LastIsUnique(text, i, j);
  }

  lemma OccursAfter(front: Bytes, text: Bytes, k: int)
    requires k >= |front|
    ensures OccursAt(front + text, k) <==> OccursAt(text, k - |front|)
  {
    var whole := front + text;
    if k <= |whole| - |HEADER| {
      assert whole[k..k + |HEADER|] == text[k - |front|..k - |front| + |HEADER|];
    }
  }

  /** In base, separator, block, the last header is the block's last header. */
  lemma LastInJoined(base: Bytes, block: Bytes, j: int)
    requires j >= 0 && IsLast(block, j)
    ensures IsLast(Joined(base, block), |Joined(base, block)| - |block| + j)
  {
    if base != [] {
      var front := base + [NEWLINE, NEWLINE];
      assert Joined(base, block) == front + block;
      forall k | |front| + j <= k
        ensures OccursAt(front + block, k) <==> k == |front| + j
      {
        OccursAfter(front, block, k);
      }
    }
  }

  lemma TrimSeparator(base: Bytes)
    ensures TrimRight(base + [NEWLINE, NEWLINE]) == TrimRight(base)
  {
    var once := base + [NEWLINE];
    assert Init(once) == base;
    assert Init(base + [NEWLINE, NEWLINE]) == once;
  }

  lemma TrimTight(text: Bytes)
    ensures TrimRight(text) == text <==> Tight(text)
  {
  }

  /** A header inside the block leaves part of the block behind. */
  lemma InnerHeaderStays(base: Bytes, block: Bytes, j: int)
    requires j > 0 && IsLast(block, j) && OccursAt(block, 0)
    ensures exists stripped :: Strips(Joined(base, block), stripped) && |stripped| > |base|
  {
    var whole := Joined(base, block);
    var front := |whole| - |block|;
    LastInJoined(base, block, j);
    NoSelfOverlap(block, j);
    var cut := whole[..front + j];
    var stripped := TrimRight(cut);
    assert Strips(whole, stripped);
    HeaderKept(cut, front);
  }

  /** The header's first byte is found nowhere in its last thirteen. */
  lemma HeaderBytes()
    ensures |HEADER| == 15 && HEADER[0] == HASH && HEADER[1] == HASH
    ensures forall i :: 2 <= i < |HEADER| ==> HEADER[i] != HASH
    ensures forall i :: 0 <= i < |HEADER| ==> HEADER[i] != NEWLINE
    ensures HEADER[2] == 0x20 && !Trimmed(HEADER[14])
  {
    assert HEADER[14] == 0x6E;
  }

  lemma OccursByte(text: Bytes, i: int, k: int)
    requires OccursAt(text, i) && 0 <= k < |HEADER|
    ensures text[i + k] == HEADER[k]
  {
    assert text[i..i + |HEADER|][k] == text[i + k];
  }

  lemma NoSelfOverlap(text: Bytes, j: int)
    requires OccursAt(text, 0) && OccursAt(text, j) && j > 0
    ensures j >= |HEADER|
  {
    HeaderBytes();
    OccursByte(text, j, 0);
    OccursByte(text, j, 1);
    OccursByte(text, 0, 2);
    if 2 <= j < |HEADER| {
      OccursByte(text, 0, j);
    }
  }

  lemma HeaderKept(text: Bytes, at: int)
    requires OccursAt(text, at)
    ensures |TrimRight(text)| >= at + |HEADER|
    decreases |text|
  {
    HeaderBytes();
    OccursByte(text, at, 14);
    if Trimmed(Last(text)) {
      assert Init(text)[at..at + |HEADER|] == text[at..at + |HEADER|];
      HeaderKept(Init(text), at);
    }
  }

  /** What a second merge strips the text down to: the same base if and only if the
      base carries no trailing blanks and the first block no second header. */
  lemma StripsBackIff(base: Bytes, block: Bytes)
    requires OccursAt(block, 0)
    ensures Strips(Joined(base, block), base) <==> Tight(base) && Findable(block)
  {
    var j := LastHeader(block);
    if j == 0 {
      LastInJoined(base, block, 0);
      var whole := Joined(base, block);
      var front := whole[..|whole| - |block|];
      if base == [] {
        assert front == [];
      } else {
        assert front == base + [NEWLINE, NEWLINE];
      }
      TrimSeparator(base);
      TrimTight(base);
      assert Strips(whole, TrimRight(front));
      if Strips(whole, base) {
        StripsUnique(whole, base, TrimRight(front));
      }
    } else {
      InnerHeaderStays(base, block, j);
      var stripped :| Strips(Joined(base, block), stripped) && |stripped| > |base|;
      if Strips(Joined(base, block), base) {
        StripsUnique(Joined(base, block), base, stripped);
      }
      if Findable(block) {
        LastIsUnique(block, 0, j);
      }
    }
  }

  /** The last header of a block that starts with one. */
  lemma LastHeader(block: Bytes) returns (j: int)
    requires OccursAt(block, 0)
    ensures j >= 0 && IsLast(block, j)
  {
    j := |block| - |HEADER|;
    while !OccursAt(block, j)
      invariant 0 <= j <= |block| - |HEADER| && forall k :: j < k ==> !OccursAt(block, k)
      decreases j
    {
      j := j - 1;
    }
  }

  lemma JoinedInjective(a: Bytes, b: Bytes, block: Bytes)
    requires Joined(a, block) == Joined(b, block) && OccursAt(block, 0)
    ensures a == b
  {
    if a != [] && b != [] {
      var x, y := a + [NEWLINE, NEWLINE], b + [NEWLINE, NEWLINE];
      assert (x + block)[..|x|] == x && (y + block)[..|y|] == y;
      assert x[..|a|] == a && y[..|b|] == b;
    }
  }

  /** Compacting twice replaces the first block by the second, exactly when the base
      ends in no blank and no header hides inside the first block. */
  lemma SecondMergeReplacesIff(text: Bytes, base: Bytes, first: Bytes, second: Bytes)
    requires Strips(text, base) && OccursAt(first, 0) && OccursAt(second, 0)
    ensures Merges(Joined(base, first), second, Joined(base, second)) <==> Tight(base) && Findable(first)
  {
    StripsBackIff(base, first);
    if Merges(Joined(base, first), second, Joined(base, second)) {
      var b :| Strips(Joined(base, first), b) && Joined(base, second) == Joined(b, second);
      JoinedInjective(base, b, second);
    }
  }

  // ------------------------------------------- when a rendered block is findable

  ghost predicate Has(text: Bytes) {
    exists k :: OccursAt(text, k)
  }

  /** Nothing straddles a byte the header does not contain. */
  lemma HasAcross(a: Bytes, mid: Byte, b: Bytes)
    requires mid !in HEADER
    ensures Has(a + [mid] + b) <==> Has(a) || Has(b)
  {
    var whole := a + [mid] + b;
    if Has(a) {
      var k :| OccursAt(a, k);
      assert whole[k..k + |HEADER|] == a[k..k + |HEADER|];
      assert OccursAt(whole, k);
    }
    if Has(b) {
      var k :| OccursAt(b, k);
      OccursAfter(a + [mid], b, |a| + 1 + k);
      assert OccursAt(whole, |a| + 1 + k);
    }
    if Has(whole) {
      var k :| OccursAt(whole, k);
      if k > |a| {
        OccursAfter(a + [mid], b, k);
        assert OccursAt(b, k - |a| - 1);
      } else if k + |HEADER| <= |a| {
        assert whole[k..k + |HEADER|] == a[k..k + |HEADER|];
        assert OccursAt(a, k);
      } else {
        OccursByte(whole, k, |a| - k);
      }
    }
  }

  /** Text without a hash in front changes nothing. */
  lemma HasBehind(front: Bytes, text: Bytes)
    requires forall i :: 0 <= i < |front| ==> front[i] != HASH
    ensures Has(front + text) <==> Has(text)
  {
    HeaderBytes();
    var whole := front + text;
    if Has(text) {
      var k :| OccursAt(text, k);
      OccursAfter(front, text, |front| + k);
      assert OccursAt(whole, |front| + k);
    }
    if Has(whole) {
      var k :| OccursAt(whole, k);
      OccursByte(whole, k, 0);
      OccursAfter(front, text, k);
      assert OccursAt(text, k - |front|);
    }
  }

  ghost predicate HeaderInSteps(steps: seq<Plan.PlanStep>) {
    exists i :: 0 <= i < |steps| && Has(steps[i].text)
  }

  /** One step's line in front of what follows. */
  lemma LineHas(front: Bytes, text: Bytes, tail: Bytes)
    requires forall i :: 0 <= i < |front| ==> front[i] != HASH
    requires tail == [] || tail[0] == NEWLINE
    ensures Has(front + (text + tail)) <==> Has(text) || Has(tail)
  {
    HeaderBytes();
    HasBehind(front, text + tail);
    if tail == [] {
      assert text + tail == text && !Has(tail);
    } else {
      HasAcross(text, NEWLINE, tail[1..]);
      assert text + [NEWLINE] + tail[1..] == text + tail;
      HasBehind([NEWLINE], tail[1..]);
      assert [NEWLINE] + tail[1..] == tail;
    }
  }

  lemma PrefixHasNoHash(number: nat, status: Plan.Status)
    ensures forall i :: 0 <= i < |Prefix(number, status)| ==> Prefix(number, status)[i] != HASH
  {
  }

  lemma LinesSplit(steps: seq<Plan.PlanStep>, first: nat, rest: Bytes)
    requires steps != []
    ensures var prefix := [NEWLINE] + Prefix(first, steps[0].status);
            Lines(steps, first) + rest == prefix + (steps[0].text + (Lines(steps[1..], first + 1) + rest))
  {
  }

  lemma {:induction false} LinesHave(steps: seq<Plan.PlanStep>, first: nat, rest: Bytes)
    requires rest == [] || rest[0] == NEWLINE
    requires !Has(rest)
    ensures Has(Lines(steps, first) + rest) <==> HeaderInSteps(steps)
  {
    if steps == [] {
      assert Lines(steps, first) + rest == rest;
    } else {
      LinesHave(steps[1..], first + 1, rest);
      var prefix := [NEWLINE] + Prefix(first, steps[0].status);
      var tail := Lines(steps[1..], first + 1) + rest;
      PrefixHasNoHash(first, steps[0].status);
      TailStarts(steps[1..], first + 1, rest);
      LineHas(prefix, steps[0].text, tail);
      LinesSplit(steps, first, rest);
      StepsHave(steps);
    }
  }

  lemma TailStarts(steps: seq<Plan.PlanStep>, first: nat, rest: Bytes)
    requires rest == [] || rest[0] == NEWLINE
    ensures var tail := Lines(steps, first) + rest; tail == [] || tail[0] == NEWLINE
  {
  }

  lemma StepsHave(steps: seq<Plan.PlanStep>)
    requires steps != []
    ensures HeaderInSteps(steps) <==> Has(steps[0].text) || HeaderInSteps(steps[1..])
  {
    if HeaderInSteps(steps[1..]) {
      var i :| 0 <= i < |steps[1..]| && Has(steps[1..][i].text);
      assert Has(steps[i + 1].text);
    }
    if HeaderInSteps(steps) {
      var i :| 0 <= i < |steps| && Has(steps[i].text);
      assert i > 0 ==> steps[1..][i - 1] == steps[i];
    }
  }

  lemma MoreHasNone(remaining: nat)
    ensures !Has(More(remaining))
    ensures More(remaining) == [] || More(remaining)[0] == NEWLINE
  {
    HeaderBytes();
    var m := More(remaining);
    if remaining != 0 {
      NoHash(Ascii("and "));
      NoHash(Ascii(" more (call action:\"show\")"));
      assert m + [] == m;
      HasBehind(m, []);
    }
  }

  lemma NoHash(b: Bytes)
    requires b == Ascii("and ") || b == Ascii(" more (call action:\"show\")")
    ensures forall i :: 0 <= i < |b| ==> b[i] != HASH
  {
  }

  lemma FindableIff(rest: Bytes)
    ensures OccursAt(HEADER + rest, 0)
    ensures Findable(HEADER + rest) <==> !Has(rest)
  {
    HeaderBytes();
    var block := HEADER + rest;
    assert block[0..0 + |HEADER|] == HEADER;
    if Has(rest) {
      var k :| OccursAt(rest, k);
      OccursAfter(HEADER, rest, |HEADER| + k);
      assert OccursAt(block, |HEADER| + k);
    } else {
      forall k | 0 < k ensures !OccursAt(block, k) {
        if OccursAt(block, k) {
          NoSelfOverlap(block, k);
          OccursAfter(HEADER, rest, k);
        }
      }
    }
  }

  /** A rendered checklist can be found again exactly when no step shown in it contains
      the header text. */
  lemma RenderedFindableIff(steps: seq<Plan.PlanStep>)
    requires steps != []
    ensures OccursAt(Render(steps), 0)
    ensures Findable(Render(steps)) <==> !HeaderInSteps(Shown(steps))
  {
    var more := More(|steps| - |Shown(steps)|);
    var rest := Lines(Shown(steps), 1) + more;
    assert Render(steps) == HEADER + rest;
    MoreHasNone(|steps| - |Shown(steps)|);
    LinesHave(Shown(steps), 1, more);
    FindableIff(rest);
  }

  /** A step that quotes the header: the next compaction leaves this block behind. */
  lemma QuotedHeaderDuplicates(base: Bytes, text: Bytes, second: Bytes)
    requires Strips(text, base) && OccursAt(second, 0)
    ensures var first := Render([Plan.PlanStep(HEADER, Plan.Pending)]);
            !Merges(Joined(base, first), second, Joined(base, second))
  {
    var steps := [Plan.PlanStep(HEADER, Plan.Pending)];
    assert HEADER[0..0 + |HEADER|] == HEADER;
    assert OccursAt(HEADER, 0);
    assert Has(steps[0].text);
    RenderedFindableIff(steps);
    SecondMergeReplacesIff(text, base, Render(steps), second);
  }
}
