/** The stale index over a transcript (packages/core/context_budget.go:52-109): which of
    its results are stale, told by their places in its messages. Results stand at places
    (i, j), block j of message i, in reading order. */
module StaleTranscript {
  import opened Transcript
  import opened StaleIndex
  import opened StaleResults

  predicate At(msgs: seq<Message>, i: int, j: int) {
    0 <= i < |msgs| && 0 <= j < |msgs[i].content|
  }

  /** A successful result with a call ID stands here. */
  predicate CountsAt(msgs: seq<Message>, i: int, j: int) {
    At(msgs, i, j) && msgs[i].content[j].ToolResult? && !msgs[i].content[j].isError && msgs[i].content[j].callID != ""
  }

  predicate Precedes(i: int, j: int, i2: int, j2: int) {
    i < i2 || (i == i2 && j < j2)
  }

  ghost predicate UniqueIDs(msgs: seq<Message>) {
    forall i, j, i2, j2 {:trigger At(msgs, i, j), At(msgs, i2, j2)} ::
      At(msgs, i, j) && At(msgs, i2, j2) && SameID(msgs, i, j, i2, j2) ==> i == i2 && j == j2
  }

  predicate SameID(msgs: seq<Message>, i: int, j: int, i2: int, j2: int) {
    CountsAt(msgs, i, j) && CountsAt(msgs, i2, j2) && msgs[i].content[j].callID == msgs[i2].content[j2].callID
  }

  /** A later successful result reads this very view, or mutates its resource. */
  ghost predicate UsedBehind(msgs: seq<Message>, i: int, j: int, ref: ResourceRef) {
    exists i2, j2 :: Precedes(i, j, i2, j2) && UsesAt(msgs, i2, j2, ref)
  }

  predicate UsesAt(msgs: seq<Message>, i: int, j: int, ref: ResourceRef) {
    && CountsAt(msgs, i, j)
    && (ref in msgs[i].content[j].context.views || ref.key in msgs[i].content[j].context.mutates)
  }

  /** A later successful result reads any view of the resource, or mutates it. */
  ghost predicate ReachedBehind(msgs: seq<Message>, i: int, j: int, key: string) {
    exists i2, j2 :: Precedes(i, j, i2, j2) && ReachesAt(msgs, i2, j2, key)
  }

  predicate ReachesAt(msgs: seq<Message>, i: int, j: int, key: string) {
    && CountsAt(msgs, i, j)
    && (key in msgs[i].content[j].context.mutates || exists v :: v in msgs[i].content[j].context.views && v.key == key)
  }

  /** What makes the result at (i, j) stale: a later result replaced one of its views,
      which it did not mutate itself; or it was a search and later results followed up
      every find; or it lists one view twice. */
  ghost predicate StaleAt(msgs: seq<Message>, i: int, j: int)
    requires CountsAt(msgs, i, j)
  {
    var c := msgs[i].content[j].context;
    || (exists x :: 0 <= x < |c.views| && c.views[x].key !in c.mutates && UsedBehind(msgs, i, j, c.views[x]))
    || (c.discovers != [] && forall x :: 0 <= x < |c.discovers| ==> ReachedBehind(msgs, i, j, c.discovers[x]))
    || (exists x, y :: 0 <= x < y < |c.views| && c.views[x] == c.views[y])
  }

  // ------------------------------------------------------- places in reading order

  function Offset(msgs: seq<Message>, i: nat): nat
    requires i <= |msgs|
  {
    |Blocks(msgs[..i])|
  }

  lemma OffsetStep(msgs: seq<Message>, i: nat)
    requires i < |msgs|
    ensures Offset(msgs, i + 1) == Offset(msgs, i) + |msgs[i].content|
    ensures Offset(msgs, |msgs|) == |Blocks(msgs)|
  {
    assert Init(msgs[..i + 1]) == msgs[..i];
    assert msgs[..|msgs|] == msgs;
  }

  lemma {:induction false} OffsetMonotone(msgs: seq<Message>, i: nat, k: nat)
    requires i <= k <= |msgs|
    ensures Offset(msgs, i) <= Offset(msgs, k)
    decreases k - i
  {
    if i < k {
      OffsetMonotone(msgs, i, k - 1);
      OffsetStep(msgs, k - 1);
    }
  }

  lemma {:induction false} BlocksPrefix(msgs: seq<Message>, i: nat)
    requires i <= |msgs|
    ensures Offset(msgs, i) <= |Blocks(msgs)| && Blocks(msgs)[..Offset(msgs, i)] == Blocks(msgs[..i])
  {
    if i == |msgs| {
      assert msgs[..i] == msgs;
    } else {
      BlocksPrefix(Init(msgs), i);
      assert Init(msgs)[..i] == msgs[..i];
    }
  }

  lemma BlockAt(msgs: seq<Message>, i: nat, j: nat)
    requires At(msgs, i, j)
    ensures Offset(msgs, i) + j < Offset(msgs, i + 1) <= |Blocks(msgs)|
    ensures Blocks(msgs)[Offset(msgs, i) + j] == msgs[i].content[j]
  {
    OffsetStep(msgs, i);
    BlocksPrefix(msgs, i + 1);
    assert Init(msgs[..i + 1]) == msgs[..i] && Last(msgs[..i + 1]) == msgs[i];
    assert Blocks(msgs)[Offset(msgs, i) + j] == Blocks(msgs)[..Offset(msgs, i + 1)][Offset(msgs, i) + j];
  }

  lemma {:induction false} PlaceOf(msgs: seq<Message>, p: nat) returns (i: nat, j: nat)
    requires p < |Blocks(msgs)|
    ensures At(msgs, i, j) && p == Offset(msgs, i) + j && Blocks(msgs)[p] == msgs[i].content[j]
  {
    var head := Init(msgs);
    if p < |Blocks(head)| {
      i, j := PlaceOf(head, p);
      assert head[..i] == msgs[..i];
    } else {
      i, j := |msgs| - 1, p - |Blocks(head)|;
      assert msgs[..i] == head;
    }
    BlockAt(msgs, i, j);
  }

  lemma ReadingOrder(msgs: seq<Message>, i: nat, j: nat, i2: nat, j2: nat)
    requires At(msgs, i, j) && At(msgs, i2, j2)
    ensures Precedes(i, j, i2, j2) <==> Offset(msgs, i) + j < Offset(msgs, i2) + j2
  {
    BlockAt(msgs, i, j);
    BlockAt(msgs, i2, j2);
    if i < i2 {
      OffsetMonotone(msgs, i + 1, i2);
    } else if i2 < i {
      OffsetMonotone(msgs, i2 + 1, i);
    }
  }

  // ---------------------------------------------------------- the definition carries over

  lemma UniqueIsDistinct(msgs: seq<Message>)
    requires UniqueIDs(msgs)
    ensures DistinctIDs(Blocks(msgs))
  {
    var b := Blocks(msgs);
    forall p, q ensures !Clash(b, p, q) {
      if Clash(b, p, q) {
        var i, j := PlaceOf(msgs, p);
        var i2, j2 := PlaceOf(msgs, q);
        assert CountsAt(msgs, i, j) && CountsAt(msgs, i2, j2);
      }
    }
  }

  lemma UsedBehindIff(msgs: seq<Message>, i: nat, j: nat, ref: ResourceRef)
    requires At(msgs, i, j)
    ensures UsedBehind(msgs, i, j, ref) <==> LaterUse(Blocks(msgs), Offset(msgs, i) + j, ref)
  {
    var b, p := Blocks(msgs), Offset(msgs, i) + j;
    if i2, j2 :| Precedes(i, j, i2, j2) && UsesAt(msgs, i2, j2, ref) {
      ReadingOrder(msgs, i, j, i2, j2);
      BlockAt(msgs, i2, j2);
      assert UsesView(b[Offset(msgs, i2) + j2], ref);
    }
    if LaterUse(b, p, ref) {
      var q :| p < q < |b| && UsesView(b[q], ref);
      var i2, j2 := PlaceOf(msgs, q);
      ReadingOrder(msgs, i, j, i2, j2);
      assert Precedes(i, j, i2, j2) && UsesAt(msgs, i2, j2, ref);
    }
  }

  lemma ReachedBehindIff(msgs: seq<Message>, i: nat, j: nat, key: string)
    requires At(msgs, i, j)
    ensures ReachedBehind(msgs, i, j, key) <==> LaterReach(Blocks(msgs), Offset(msgs, i) + j, key)
  {
    var b, p := Blocks(msgs), Offset(msgs, i) + j;
    if i2, j2 :| Precedes(i, j, i2, j2) && ReachesAt(msgs, i2, j2, key) {
      ReadingOrder(msgs, i, j, i2, j2);
      BlockAt(msgs, i2, j2);
      assert Reaches(b[Offset(msgs, i2) + j2], key);
    }
    if LaterReach(b, p, key) {
      var q :| p < q < |b| && Reaches(b[q], key);
      var i2, j2 := PlaceOf(msgs, q);
      ReadingOrder(msgs, i, j, i2, j2);
      assert Precedes(i, j, i2, j2) && ReachesAt(msgs, i2, j2, key);
    }
  }

  lemma ReplacedIff(msgs: seq<Message>, i: nat, j: nat)
    requires CountsAt(msgs, i, j) && Offset(msgs, i) + j < |Blocks(msgs)| && Blocks(msgs)[Offset(msgs, i) + j] == msgs[i].content[j]
    ensures var c := msgs[i].content[j].context;
            ViewReplaced(Blocks(msgs), Offset(msgs, i) + j)
            <==> exists x :: 0 <= x < |c.views| && c.views[x].key !in c.mutates && UsedBehind(msgs, i, j, c.views[x])
  {
    var b, p, c := Blocks(msgs), Offset(msgs, i) + j, msgs[i].content[j].context;
    forall x | 0 <= x < |c.views|
      ensures ReplacedAt(b, p, x) <==> c.views[x].key !in c.mutates && UsedBehind(msgs, i, j, c.views[x])
    {
      UsedBehindIff(msgs, i, j, c.views[x]);
    }
  }

  lemma SpentIff(msgs: seq<Message>, i: nat, j: nat)
    requires CountsAt(msgs, i, j) && Offset(msgs, i) + j < |Blocks(msgs)| && Blocks(msgs)[Offset(msgs, i) + j] == msgs[i].content[j]
    ensures var c := msgs[i].content[j].context;
            DiscoveriesSpent(Blocks(msgs), Offset(msgs, i) + j)
            <==> c.discovers != [] && forall x :: 0 <= x < |c.discovers| ==> ReachedBehind(msgs, i, j, c.discovers[x])
  {
    var b, p, c := Blocks(msgs), Offset(msgs, i) + j, msgs[i].content[j].context;
    forall x | 0 <= x < |c.discovers|
      ensures ReachedBehind(msgs, i, j, c.discovers[x]) <==> LaterReach(b, p, c.discovers[x])
    {
      ReachedBehindIff(msgs, i, j, c.discovers[x]);
    }
  }

  /** Of every transcript with distinct call IDs: the result at (i, j) is stale if and
      only if later results replaced a view of it or followed up all it found, or it
      lists one view twice. */
  lemma TranscriptIndexIsDefinition(msgs: seq<Message>, i: nat, j: nat)
    requires UniqueIDs(msgs) && CountsAt(msgs, i, j)
    ensures msgs[i].content[j].callID in Run(Touches(Blocks(msgs))).stale <==> StaleAt(msgs, i, j)
  {
    var b, p := Blocks(msgs), Offset(msgs, i) + j;
    BlockAt(msgs, i, j);
    UniqueIsDistinct(msgs);
    StaleIndexIsDefinition(b, p);
    ReplacedIff(msgs, i, j);
    SpentIff(msgs, i, j);
    var c := msgs[i].content[j];
    assert RepeatsView(c) <==> exists x, y :: 0 <= x < y < |c.context.views| && c.context.views[x] == c.context.views[y] by {
      if x: nat, y: nat :| SameView(c, x, y) {
        assert c.context.views[x] == c.context.views[y];
      }
      if x, y :| 0 <= x < y < |c.context.views| && c.context.views[x] == c.context.views[y] {
        assert SameView(c, x, y);
      }
    }
  }

  /** What is marked as stale is the ID of some successful result. */
  lemma StaleIsAResult(msgs: seq<Message>, id: string)
    requires id in Run(Touches(Blocks(msgs))).stale
    ensures exists i, j :: CountsAt(msgs, i, j) && msgs[i].content[j].callID == id
  {
    var b := Blocks(msgs);
    var ts := Touches(b);
    StaleMeaning(ts, id);
    var p: nat;
    if Superseded(ts, id) {
      var p0, q :| 0 <= p0 < q < |ts| && SupersededAt(ts, id, p0, q);
      p := p0;
    } else {
      var q :| 0 <= q < |ts| && ExhaustedAt(ts, id, q);
      var p0 :| 0 <= p0 < q && ts[..q][p0] == Discover(id, TouchedKey(ts[q]));
      p := p0;
    }
    var k, o := BlockOfTouch(b, p);
    var i, j := PlaceOf(msgs, k);
    assert CountsAt(msgs, i, j);
  }

  /** `stale` is what the places of the transcript's results make it. */
  ghost predicate Explains(msgs: seq<Message>, stale: set<string>) {
    && (UniqueIDs(msgs) ==>
          forall i, j :: CountsAt(msgs, i, j) ==> (msgs[i].content[j].callID in stale <==> StaleAt(msgs, i, j)))
    && forall id :: id in stale ==> exists i, j :: CountsAt(msgs, i, j) && msgs[i].content[j].callID == id
  }

  lemma Explained(msgs: seq<Message>)
    ensures Explains(msgs, Run(Touches(Blocks(msgs))).stale)
  {
    var stale := Run(Touches(Blocks(msgs))).stale;
    if UniqueIDs(msgs) {
      forall i, j | CountsAt(msgs, i, j) ensures msgs[i].content[j].callID in stale <==> StaleAt(msgs, i, j) {
        TranscriptIndexIsDefinition(msgs, i, j);
      }
    }
    forall id | id in stale ensures exists i, j :: CountsAt(msgs, i, j) && msgs[i].content[j].callID == id {
      StaleIsAResult(msgs, id);
    }
  }
}
