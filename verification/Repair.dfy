/** Repair of a transcript tail (packages/provider/provider.go:142-166) and what it does
    to a transcript whose calls and results pair up: results whose call is missing are
    dropped, messages left empty disappear, everything else stays. */
module Repair {
  import opened Transcript
  import Pairs = EnginePairs

  // --------------------------------------------------------- repair of a tail

  /** A result is kept if some call with its ID is still open. */
  predicate Keeps(c: Content, open: multiset<string>) {
    c.ToolResult? ==> c.callID in open
  }

  function Opened(c: Content, open: multiset<string>): multiset<string> {
    if c.ToolCall? then open + multiset{c.id}
    else if c.ToolResult? && c.callID in open then open - multiset{c.callID}
    else open
  }

  function Filtered(content: seq<Content>, open: multiset<string>): seq<Content>
    decreases |content|
  {
    if content == [] then []
    else (if Keeps(content[0], open) then [content[0]] else []) + Filtered(content[1..], Opened(content[0], open))
  }

  function OpenAfter(content: seq<Content>, open: multiset<string>): multiset<string>
    decreases |content|
  {
    if content == [] then open else OpenAfter(content[1..], Opened(content[0], open))
  }

  /** Messages left without content disappear. */
  function Repaired(ms: seq<Message>, open: multiset<string>): seq<Message>
    decreases |ms|
  {
    if ms == [] then []
    else
      var kept := Filtered(ms[0].content, open);
      (if kept == [] then [] else [ms[0].(content := kept)]) + Repaired(ms[1..], OpenAfter(ms[0].content, open))
  }

  lemma FilteredCons(content: seq<Content>, open: multiset<string>)
    requires content != []
    ensures var c, next := content[0], Opened(content[0], open);
            && Filtered(content, open) == (if Keeps(c, open) then [c] + Filtered(content[1..], next) else Filtered(content[1..], next))
            && OpenAfter(content, open) == OpenAfter(content[1..], next)
            && (!Keeps(c, open) ==> next == open)
  {
  }

  lemma {:induction false} OpenConcat(a: seq<Content>, b: seq<Content>, open: multiset<string>)
    ensures OpenAfter(a + b, open) == OpenAfter(b, OpenAfter(a, open))
    decreases |a|
  {
    if a == [] {
      assert a + b == b;
    } else {
      assert (a + b)[0] == a[0] && (a + b)[1..] == a[1..] + b;
      OpenConcat(a[1..], b, Opened(a[0], open));
    }
  }

  lemma {:induction false} FilteredConcat(a: seq<Content>, b: seq<Content>, open: multiset<string>)
    ensures Filtered(a + b, open) == Filtered(a, open) + Filtered(b, OpenAfter(a, open))
    decreases |a|
  {
    if a == [] {
      assert a + b == b;
    } else {
      var whole, next := a + b, Opened(a[0], open);
      assert whole[0] == a[0] && whole[1..] == a[1..] + b;
      FilteredCons(whole, open);
      FilteredCons(a, open);
      FilteredConcat(a[1..], b, next);
      ConcatAssociates(if Keeps(a[0], open) then [a[0]] else [], Filtered(a[1..], next), Filtered(b, OpenAfter(a, open)));
    }
  }

  lemma FilteredSnoc(content: seq<Content>, i: nat, open: multiset<string>)
    requires i < |content|
    ensures var now := OpenAfter(content[..i], open);
            && Filtered(content[..i + 1], open) == Filtered(content[..i], open) + (if Keeps(content[i], now) then [content[i]] else [])
            && OpenAfter(content[..i + 1], open) == Opened(content[i], now)
  {
    assert content[..i + 1] == content[..i] + [content[i]];
    OpenConcat(content[..i], [content[i]], open);
    FilteredConcat(content[..i], [content[i]], open);
    FilteredOne(content[i], OpenAfter(content[..i], open));
  }

  lemma FilteredNone(open: multiset<string>)
    ensures Filtered([], open) == [] && OpenAfter([], open) == open
  {
  }

  /** One block: a result whose call is not open goes, anything else stays; a call opens
      its ID, a result that stays closes it. */
  lemma FilteredOne(c: Content, open: multiset<string>)
    ensures Filtered([c], open) == if c.ToolResult? && c.callID !in open then [] else [c]
    ensures OpenAfter([c], open)
         == if c.ToolCall? then open + multiset{c.id}
            else if c.ToolResult? && c.callID in open then open - multiset{c.callID} else open
  {
    assert [c][0] == c && [c][1..] == [];
    FilteredCons([c], open);
    FilteredNone(Opened(c, open));
  }

  /** The counters hold the open calls. */
  ghost predicate Counts(counts: map<string, nat>, open: multiset<string>) {
    forall id :: open[id] == if id in counts then counts[id] else 0
  }

  /** One block against the counters. */
  method CountBlock(c: Content, counts: map<string, nat>, ghost open: multiset<string>)
    returns (keep: bool, left: map<string, nat>)
    requires Counts(counts, open)
    ensures keep == Keeps(c, open) && Counts(left, Opened(c, open))
  {
    keep, left := true, counts;
    match c {
      case ToolCall(id, _) => left := left[id := (if id in left then left[id] else 0) + 1];
      case ToolResult(id, _, _, _, _) =>
        keep := id in left && left[id] > 0;
        if keep {
          left := left[id := left[id] - 1];
        }
      case _ =>
    }
  }

  method RepairContent(content: seq<Content>, counts: map<string, nat>, ghost open: multiset<string>)
    returns (kept: seq<Content>, left: map<string, nat>)
    requires Counts(counts, open)
    ensures kept == Filtered(content, open) && Counts(left, OpenAfter(content, open))
  {
    kept, left := [], counts;
    for i := 0 to |content|
      invariant kept == Filtered(content[..i], open) && Counts(left, OpenAfter(content[..i], open))
    {
      FilteredSnoc(content, i, open);
      var keep;
      keep, left := CountBlock(content[i], left, OpenAfter(content[..i], open));
      if keep {
        kept := kept + [content[i]];
      }
    }
    assert content[..|content|] == content;
  }

  lemma RepairedCons(ms: seq<Message>, open: multiset<string>)
    requires ms != []
    ensures var kept, rest := Filtered(ms[0].content, open), Repaired(ms[1..], OpenAfter(ms[0].content, open));
            Repaired(ms, open) == if kept == [] then rest else [ms[0].(content := kept)] + rest
  {
  }

  lemma {:induction false} OpenAllConcat(a: seq<Message>, b: seq<Message>, open: multiset<string>)
    ensures OpenAfterAll(a + b, open) == OpenAfterAll(b, OpenAfterAll(a, open))
    decreases |a|
  {
    if a == [] {
      assert a + b == b;
    } else {
      assert (a + b)[0] == a[0] && (a + b)[1..] == a[1..] + b;
      OpenAllConcat(a[1..], b, OpenAfter(a[0].content, open));
    }
  }

  lemma {:induction false} RepairedConcat(a: seq<Message>, b: seq<Message>, open: multiset<string>)
    ensures Repaired(a + b, open) == Repaired(a, open) + Repaired(b, OpenAfterAll(a, open))
    decreases |a|
  {
    if a == [] {
      assert a + b == b;
    } else {
      var whole, next := a + b, OpenAfter(a[0].content, open);
      assert whole[0] == a[0] && whole[1..] == a[1..] + b;
      RepairedCons(whole, open);
      RepairedCons(a, open);
      RepairedConcat(a[1..], b, next);
      var kept := Filtered(a[0].content, open);
      ConcatAssociates(if kept == [] then [] else [a[0].(content := kept)], Repaired(a[1..], next), Repaired(b, OpenAfterAll(a, open)));
    }
  }

  function OpenAfterAll(ms: seq<Message>, open: multiset<string>): multiset<string>
    decreases |ms|
  {
    if ms == [] then open else OpenAfterAll(ms[1..], OpenAfter(ms[0].content, open))
  }

  lemma RepairedSnoc(ms: seq<Message>, i: nat, open: multiset<string>)
    requires i < |ms|
    ensures var now := OpenAfterAll(ms[..i], open);
            var kept := Filtered(ms[i].content, now);
            && Repaired(ms[..i + 1], open) == Repaired(ms[..i], open) + (if kept == [] then [] else [ms[i].(content := kept)])
            && OpenAfterAll(ms[..i + 1], open) == OpenAfter(ms[i].content, now)
  {
    assert ms[..i + 1] == ms[..i] + [ms[i]];
    OpenAllConcat(ms[..i], [ms[i]], open);
    RepairedConcat(ms[..i], [ms[i]], open);
    RepairedOne(ms[i], OpenAfterAll(ms[..i], open));
  }

  lemma RepairedOne(m: Message, open: multiset<string>)
    ensures Repaired([m], open) == (if Filtered(m.content, open) == [] then [] else [m.(content := Filtered(m.content, open))])
    ensures OpenAfterAll([m], open) == OpenAfter(m.content, open)
  {
    assert [m][1..] == [];
  }

  method RepairOrphanedToolResults(ms: seq<Message>) returns (out: seq<Message>)
    ensures out == Repaired(ms, multiset{})
  {
    out := [];
    var counts: map<string, nat> := map[];
    for i := 0 to |ms|
      invariant out == Repaired(ms[..i], multiset{}) && Counts(counts, OpenAfterAll(ms[..i], multiset{}))
    {
      RepairedSnoc(ms, i, multiset{});
      var kept;
      kept, counts := RepairContent(ms[i].content, counts, OpenAfterAll(ms[..i], multiset{}));
      if |kept| > 0 {
        out := out + [ms[i].(content := kept)];
      }
    }
    assert ms[..|ms|] == ms;
  }

  lemma {:induction false} FilteredTwice(content: seq<Content>, open: multiset<string>)
    ensures Filtered(Filtered(content, open), open) == Filtered(content, open)
    ensures OpenAfter(Filtered(content, open), open) == OpenAfter(content, open)
    decreases |content|
  {
    if content != [] {
      var next := Opened(content[0], open);
      FilteredTwice(content[1..], next);
      FilteredCons(content, open);
      var kept := Filtered(content[1..], next);
      if Keeps(content[0], open) {
        FilteredCons([content[0]] + kept, open);
        assert ([content[0]] + kept)[1..] == kept;
      }
    }
  }

  /** Repairing again changes nothing. */
  lemma {:induction false} RepairIsIdempotent(ms: seq<Message>, open: multiset<string>)
    ensures Repaired(Repaired(ms, open), open) == Repaired(ms, open)
    decreases |ms|
  {
    if ms != [] {
      var next := OpenAfter(ms[0].content, open);
      RepairIsIdempotent(ms[1..], next);
      FilteredTwice(ms[0].content, open);
      RepairedCons(ms, open);
      var kept := Filtered(ms[0].content, open);
      if kept == [] {
        assert next == open;
      } else {
        var out := [ms[0].(content := kept)] + Repaired(ms[1..], next);
        RepairedCons(out, open);
        assert out[1..] == Repaired(ms[1..], next);
      }
    }
  }

  // ------------------------------------------------------------------- pairing

  /** Read from the left: `owed` are the calls the first message must answer. */
  ghost predicate Paired(ms: seq<Message>, owed: seq<string>)
    decreases |ms|
  {
    if ms == [] then owed == []
    else
      && ResultIDs(ms[0].content) == owed
      && (ms[0].role == Tool ==> CallIDs(ms[0].content) == [])
      && (ms[0].role != Tool ==> owed == [])
      && Paired(ms[1..], CallIDs(ms[0].content))
  }

  /** Calls and results where they belong. */
  ghost predicate Sober(ms: seq<Message>) {
    forall i :: 0 <= i < |ms| ==>
      if ms[i].role == Tool then CallIDs(ms[i].content) == [] else ResultIDs(ms[i].content) == []
  }

  /** What the i-th message must answer: what the one before it asked. */
  function Due(ms: seq<Message>, owed: seq<string>, i: nat): seq<string>
    requires i <= |ms|
  {
    if i == 0 then owed else CallIDs(ms[i - 1].content)
  }

  /** One message fits what came before it. */
  ghost predicate Fits(ms: seq<Message>, owed: seq<string>, i: nat)
    requires i < |ms|
  {
    && ResultIDs(ms[i].content) == Due(ms, owed, i)
    && (if ms[i].role == Tool then CallIDs(ms[i].content) == [] else Due(ms, owed, i) == [])
  }

  ghost predicate AllFit(ms: seq<Message>, owed: seq<string>) {
    && Due(ms, owed, |ms|) == []
    && forall i :: 0 <= i < |ms| ==> Fits(ms, owed, i)
  }

  /** A message behind the first fits among the rest exactly if it fits in the whole. */
  lemma FitsBehind(ms: seq<Message>, owed: seq<string>, i: nat)
    requires 0 < i <= |ms|
    ensures Due(ms[1..], CallIDs(ms[0].content), i - 1) == Due(ms, owed, i)
    ensures i < |ms| ==> (Fits(ms[1..], CallIDs(ms[0].content), i - 1) <==> Fits(ms, owed, i))
  {
  }

  lemma FitsCons(ms: seq<Message>, owed: seq<string>)
    requires ms != []
    ensures AllFit(ms, owed) <==> Fits(ms, owed, 0) && AllFit(ms[1..], CallIDs(ms[0].content))
  {
    var rest, asked := ms[1..], CallIDs(ms[0].content);
    FitsBehind(ms, owed, |ms|);
    forall i | 0 < i < |ms| ensures Fits(rest, asked, i - 1) <==> Fits(ms, owed, i) {
      FitsBehind(ms, owed, i);
    }
    if AllFit(ms, owed) {
      forall i | 0 <= i < |rest| ensures Fits(rest, asked, i) {
        assert Fits(ms, owed, i + 1);
      }
    }
    if Fits(ms, owed, 0) && AllFit(rest, asked) {
      forall i | 0 <= i < |ms| ensures Fits(ms, owed, i) {
        assert i > 0 ==> Fits(rest, asked, i - 1);
      }
    }
  }

  lemma {:induction false} PairedFits(ms: seq<Message>, owed: seq<string>)
    requires Paired(ms, owed)
    ensures AllFit(ms, owed)
    decreases |ms|
  {
    if ms != [] {
      PairedFits(ms[1..], CallIDs(ms[0].content));
      FitsCons(ms, owed);
    }
  }

  lemma {:induction false} FitsPaired(ms: seq<Message>, owed: seq<string>)
    requires AllFit(ms, owed)
    ensures Paired(ms, owed)
    decreases |ms|
  {
    if ms != [] {
      FitsCons(ms, owed);
      FitsPaired(ms[1..], CallIDs(ms[0].content));
    }
  }

  /** The same as every call being answered by the next message and no result being
      an orphan, the form in which the run loop keeps pairing. */
  lemma PairedIff(ms: seq<Message>)
    ensures Paired(ms, []) <==> Sober(ms) && Pairs.AllAnswered(ms) && Pairs.NoOrphans(ms)
  {
    if Paired(ms, []) {
      PairedFits(ms, []);
      FitsPair(ms);
    }
    if Sober(ms) && Pairs.AllAnswered(ms) && Pairs.NoOrphans(ms) {
      PairsFit(ms);
      FitsPaired(ms, []);
    }
  }

  lemma FitsPair(ms: seq<Message>)
    requires AllFit(ms, [])
    ensures Sober(ms) && Pairs.AllAnswered(ms) && Pairs.NoOrphans(ms)
  {
    forall k | 0 <= k < |ms|
      ensures Pairs.Answered(ms, k) && Pairs.Wanted(ms, k)
      ensures if ms[k].role == Tool then CallIDs(ms[k].content) == [] else ResultIDs(ms[k].content) == []
    {
      assert Fits(ms, [], k);
      if k + 1 < |ms| {
        assert Fits(ms, [], k + 1);
        assert Due(ms, [], k + 1) == CallIDs(ms[k].content);
      }
    }
  }

  lemma PairsFit(ms: seq<Message>)
    requires Sober(ms) && Pairs.AllAnswered(ms) && Pairs.NoOrphans(ms)
    ensures AllFit(ms, [])
  {
    if ms != [] {
      assert Pairs.Answered(ms, |ms| - 1);
    }
    forall k | 0 <= k < |ms| ensures Fits(ms, [], k) {
      assert Pairs.Wanted(ms, k);
      if k > 0 {
        assert Pairs.Answered(ms, k - 1);
      }
    }
  }

  /** A suffix of a paired transcript owes what the message before it asked. */
  lemma {:induction false} SuffixPaired(ms: seq<Message>, owed: seq<string>, i: nat)
    requires Paired(ms, owed) && i <= |ms|
    ensures Paired(ms[i..], Due(ms, owed, i))
    decreases i
  {
    if i == 0 {
      assert ms[0..] == ms;
    } else {
      SuffixPaired(ms[1..], CallIDs(ms[0].content), i - 1);
      assert ms[1..][i - 1..] == ms[i..];
    }
  }

  /** A message that neither asks nor answers. */
  predicate Inert(m: Message) {
    CallIDs(m.content) == [] && ResultIDs(m.content) == []
  }

  function Select(ms: seq<Message>, keep: Message -> bool): seq<Message> {
    if ms == [] then [] else (if keep(ms[0]) then [ms[0]] else []) + Select(ms[1..], keep)
  }

  lemma SelectCons(ms: seq<Message>, keep: Message -> bool)
    requires ms != []
    ensures Select(ms, keep) == if keep(ms[0]) then [ms[0]] + Select(ms[1..], keep) else Select(ms[1..], keep)
  {
  }

  lemma {:induction false} SelectPaired(ms: seq<Message>, keep: Message -> bool, owed: seq<string>)
    requires Paired(ms, owed) && forall m :: m in ms && !keep(m) ==> Inert(m)
    ensures Paired(Select(ms, keep), owed)
    decreases |ms|
  {
    if ms != [] {
      SelectPaired(ms[1..], keep, CallIDs(ms[0].content));
      SelectCons(ms, keep);
      if keep(ms[0]) {
        assert ([ms[0]] + Select(ms[1..], keep))[1..] == Select(ms[1..], keep);
      } else {
        assert Inert(ms[0]);
      }
    }
  }

  predicate HasContent(m: Message) {
    m.content != []
  }

  // ----------------------------------------------------- repair of a paired tail

  lemma IDsCons(content: seq<Content>)
    requires content != []
    ensures var c, rest := content[0], content[1..];
            && CallIDs(content) == (if c.ToolCall? then [c.id] + CallIDs(rest) else CallIDs(rest))
            && ResultIDs(content) == (if c.ToolResult? then [c.callID] + ResultIDs(rest) else ResultIDs(rest))
            && content == [c] + rest
  {
  }

  lemma {:induction false} FilterAnswers(content: seq<Content>)
    requires CallIDs(content) == []
    ensures Filtered(content, multiset(ResultIDs(content))) == content
    ensures OpenAfter(content, multiset(ResultIDs(content))) == multiset{}
    decreases |content|
  {
    if content != [] {
      var c, open := content[0], multiset(ResultIDs(content));
      IDsCons(content);
      FilteredCons(content, open);
      FilterAnswers(content[1..]);
      assert Opened(c, open) == multiset(ResultIDs(content[1..]));
    }
  }

  lemma {:induction false} FilterAsks(content: seq<Content>, open: multiset<string>)
    requires ResultIDs(content) == []
    ensures Filtered(content, open) == content
    ensures OpenAfter(content, open) == open + multiset(CallIDs(content))
    decreases |content|
  {
    if content != [] {
      var c := content[0];
      IDsCons(content);
      FilteredCons(content, open);
      FilterAsks(content[1..], Opened(c, open));
    }
  }

  lemma {:induction false} FilterOrphans(content: seq<Content>)
    requires CallIDs(content) == []
    ensures ResultIDs(Filtered(content, multiset{})) == [] && CallIDs(Filtered(content, multiset{})) == []
    ensures OpenAfter(content, multiset{}) == multiset{}
    decreases |content|
  {
    if content != [] {
      IDsCons(content);
      FilteredCons(content, multiset{});
      FilterOrphans(content[1..]);
      var rest := Filtered(content[1..], multiset{});
      IDsCons([content[0]] + rest);
      assert ([content[0]] + rest)[1..] == rest;
    }
  }

  /** One message whose results are the ones owed passes the filter whole. */
  lemma FilterFitting(m: Message, owed: seq<string>)
    requires ResultIDs(m.content) == owed
    requires if m.role == Tool then CallIDs(m.content) == [] else owed == []
    ensures Filtered(m.content, multiset(owed)) == m.content
    ensures OpenAfter(m.content, multiset(owed)) == multiset(CallIDs(m.content))
  {
    if m.role == Tool {
      FilterAnswers(m.content);
    } else {
      FilterAsks(m.content, multiset(owed));
      assert multiset(owed) + multiset(CallIDs(m.content)) == multiset(CallIDs(m.content));
    }
  }

  /** Once nothing is owed wrongly, repair only drops empty messages. */
  lemma {:induction false} RepairPaired(ms: seq<Message>, owed: seq<string>)
    requires Paired(ms, owed)
    ensures Repaired(ms, multiset(owed)) == Select(ms, HasContent)
    decreases |ms|
  {
    if ms != [] {
      FilterFitting(ms[0], owed);
      RepairPaired(ms[1..], CallIDs(ms[0].content));
      RepairedCons(ms, multiset(owed));
      SelectCons(ms, HasContent);
      assert ms[0].(content := ms[0].content) == ms[0];
    }
  }

  lemma EmptyIsInert(ms: seq<Message>)
    ensures forall m :: m in ms && !HasContent(m) ==> Inert(m)
  {
  }

  /** An orphaned tool message in front: its results go, the rest is as without it. */
  lemma RepairOrphaned(ms: seq<Message>, owed: seq<string>)
    requires Paired(ms, owed) && owed != []
    ensures Paired(Repaired(ms, multiset{}), [])
  {
    var m, rest := ms[0], ms[1..];
    FilterOrphans(m.content);
    RepairPaired(rest, []);
    EmptyIsInert(rest);
    SelectPaired(rest, HasContent, []);
    RepairedCons(ms, multiset{});
    assert multiset(CallIDs(m.content)) == multiset{};
    var kept := Filtered(m.content, multiset{});
    var out := [m.(content := kept)] + Repaired(rest, multiset{});
    assert out[1..] == Repaired(rest, multiset{});
  }

  /** A tail cut anywhere out of a paired conversation is paired after repair: the only
      thing missing can be the calls its first message answers. */
  lemma TailIsPaired(ms: seq<Message>, i: nat)
    requires Paired(ms, []) && i <= |ms|
    ensures Paired(Repaired(ms[i..], multiset{}), [])
  {
    var tail, owed := ms[i..], Due(ms, [], i);
    SuffixPaired(ms, [], i);
    if owed == [] {
      RepairPaired(tail, []);
      assert multiset(owed) == multiset{};
      EmptyIsInert(tail);
      SelectPaired(tail, HasContent, []);
    } else {
      RepairOrphaned(tail, owed);
    }
  }
}
