/** The stale index in a reader's terms: which result is stale, given the other
    results of the transcript (packages/core/context_budget.go:52-109).

    `StaleIndexIsDefinition` is the main result; the lemmas before it carry
    positions in the flat touch list over to positions in the block list. */
module StaleResults {
  import opened Transcript
  import opened StaleIndex

  predicate Clash(b: seq<Content>, i: nat, j: nat) {
    i < |b| && j < |b| && i != j && Counts(b[i]) && Counts(b[j]) && b[i].callID == b[j].callID
  }

  ghost predicate DistinctIDs(b: seq<Content>) {
    forall i, j :: !Clash(b, i, j)
  }

  predicate SameView(c: Content, x: nat, y: nat)
    requires c.ToolResult?
  {
    x < y < |c.context.views| && c.context.views[x] == c.context.views[y]
  }

  ghost predicate RepeatsView(c: Content)
    requires c.ToolResult?
  {
    exists x, y :: SameView(c, x, y)
  }

  /** Successful result c re-reads this very view, or mutates its resource. */
  predicate UsesView(c: Content, ref: ResourceRef) {
    Counts(c) && (ref in c.context.views || ref.key in c.context.mutates)
  }

  ghost predicate LaterUse(b: seq<Content>, i: nat, ref: ResourceRef) {
    exists j {:trigger UsesView(b[j], ref)} :: i < j < |b| && UsesView(b[j], ref)
  }

  /** Successful result c reads any view of the resource, or mutates it. */
  predicate Reaches(c: Content, key: string) {
    Counts(c) && (key in c.context.mutates || exists v :: v in c.context.views && v.key == key)
  }

  ghost predicate LaterReach(b: seq<Content>, i: nat, key: string) {
    exists j {:trigger Reaches(b[j], key)} :: i < j < |b| && Reaches(b[j], key)
  }

  /** View number x of result i was replaced, and not by result i itself. */
  ghost predicate ReplacedAt(b: seq<Content>, i: nat, x: nat)
    requires i < |b| && Counts(b[i])
  {
    && x < |b[i].context.views|
    && b[i].context.views[x].key !in b[i].context.mutates
    && LaterUse(b, i, b[i].context.views[x])
  }

  ghost predicate ViewReplaced(b: seq<Content>, i: nat)
    requires i < |b| && Counts(b[i])
  {
    exists x :: ReplacedAt(b, i, x)
  }

  ghost predicate DiscoveriesSpent(b: seq<Content>, i: nat)
    requires i < |b| && Counts(b[i])
  {
    b[i].context.discovers != [] && forall k :: k in b[i].context.discovers ==> LaterReach(b, i, k)
  }

  /** One of its views was replaced by somebody else, or it was a search all of
      whose finds have been followed up. */
  ghost predicate IsStale(b: seq<Content>, i: nat)
    requires i < |b| && Counts(b[i])
  {
    ViewReplaced(b, i) || DiscoveriesSpent(b, i)
  }

  // Positions of a block's touches in the flat list.

  function Start(b: seq<Content>, i: nat): nat
    requires i <= |b|
  {
    |Touches(b[..i])|
  }

  lemma {:induction false} StartStep(b: seq<Content>, i: nat)
    requires i < |b|
    ensures Start(b, i + 1) == Start(b, i) + TouchCount(b[i])
    ensures Start(b, |b|) == |Touches(b)|
  {
    assert Init(b[..i + 1]) == b[..i];
    assert b[..|b|] == b;
  }

  lemma {:induction false} StartMonotone(b: seq<Content>, i: nat, j: nat)
    requires i <= j <= |b|
    ensures Start(b, i) <= Start(b, j)
    decreases j - i
  {
    if i < j {
      StartMonotone(b, i, j - 1);
      StartStep(b, j - 1);
    }
  }

  lemma {:induction false} TouchesPrefix(b: seq<Content>, i: nat)
    requires i <= |b|
    ensures Start(b, i) <= |Touches(b)| && Touches(b)[..Start(b, i)] == Touches(b[..i])
  {
    if i == |b| {
      assert b[..i] == b;
    } else {
      TouchesPrefix(Init(b), i);
      assert Init(b)[..i] == b[..i];
    }
  }

  /** The o-th touch of block i sits at Start(b, i) + o. */
  lemma TouchOfBlock(b: seq<Content>, i: nat, o: nat)
    requires i < |b| && o < TouchCount(b[i])
    ensures Start(b, i) + o < Start(b, i + 1) <= |Touches(b)|
    ensures Touches(b)[Start(b, i) + o] == TouchAt(b[i], o)
  {
    StartStep(b, i);
    TouchesPrefix(b, i + 1);
    assert Init(b[..i + 1]) == b[..i] && Last(b[..i + 1]) == b[i];
    assert Touches(b)[Start(b, i) + o] == Touches(b)[..Start(b, i + 1)][Start(b, i) + o];
  }

  /** Every touch belongs to exactly one block, which counts. */
  lemma {:induction false} BlockOfTouch(b: seq<Content>, p: nat) returns (i: nat, o: nat)
    requires p < |Touches(b)|
    ensures i < |b| && o < TouchCount(b[i]) && p == Start(b, i) + o && p < Start(b, i + 1)
    ensures Counts(b[i]) && Touches(b)[p] == TouchAt(b[i], o) && Touches(b)[p].id == b[i].callID
  {
    var head := Init(b);
    if p < |Touches(head)| {
      i, o := BlockOfTouch(head, p);
      assert head[..i] == b[..i];
    } else {
      i, o := |b| - 1, p - |Touches(head)|;
      assert b[..i] == head;
    }
    TouchOfBlock(b, i, o);
    StartStep(b, i);
  }

  lemma BlockOrder(b: seq<Content>, i: nat, oi: nat, j: nat, oj: nat)
    requires i < |b| && oi < TouchCount(b[i]) && j < |b| && oj < TouchCount(b[j])
    requires Start(b, i) + oi < Start(b, j) + oj
    ensures i < j || (i == j && oi < oj)
  {
    StartStep(b, j);
    if j < i {
      StartMonotone(b, j + 1, i);
    }
  }

  lemma LaterBlock(b: seq<Content>, i: nat, oi: nat, j: nat, oj: nat)
    requires i < j < |b| && oi < TouchCount(b[i]) && oj < TouchCount(b[j])
    ensures Start(b, i) + oi < Start(b, j) + oj
  {
    StartStep(b, i);
    StartMonotone(b, i + 1, j);
  }

  lemma FirstUse(ts: seq<Touch>, p: nat, ref: ResourceRef, bound: nat) returns (q: nat)
    requires p < bound < |ts| && Uses(ts[bound], ref)
    ensures p < q <= bound && Uses(ts[q], ref) && forall m {:trigger Uses(ts[m], ref)} :: p < m < q ==> !Uses(ts[m], ref)
  {
    q := p + 1;
    while !Uses(ts[q], ref)
      invariant p < q <= bound
      invariant forall m {:trigger Uses(ts[m], ref)} :: p < m < q ==> !Uses(ts[m], ref)
      decreases bound - q
    {
      q := q + 1;
    }
  }

  lemma OwnMutation(b: seq<Content>, i: nat, op: nat, q: nat) returns (m: nat)
    requires i < |b| && Counts(b[i]) && op < |b[i].context.views| && Start(b, i + 1) <= q
    requires b[i].context.views[op].key in b[i].context.mutates
    ensures Start(b, i) + op < m < q && m < |Touches(b)| && Uses(Touches(b)[m], b[i].context.views[op])
  {
    var c := b[i];
    var x: nat :| x < |c.context.mutates| && c.context.mutates[x] == c.context.views[op].key;
    var o := |c.context.views| + x;
    TouchOfBlock(b, i, o);
    m := Start(b, i) + o;
  }

  /** A view first used by a later block was replaced there. */
  lemma UsedLater(b: seq<Content>, i: nat, op: nat, j: nat, oq: nat)
    requires i < j < |b| && Counts(b[i]) && op < |b[i].context.views| && oq < TouchCount(b[j])
    requires Uses(TouchAt(b[j], oq), b[i].context.views[op])
    requires forall m {:trigger Uses(Touches(b)[m], b[i].context.views[op])} ::
               Start(b, i) + op < m < Start(b, j) + oq && m < |Touches(b)| ==> !Uses(Touches(b)[m], b[i].context.views[op])
    ensures ViewReplaced(b, i)
  {
    var ref := b[i].context.views[op];
    StartMonotone(b, i + 1, j);
    if ref.key in b[i].context.mutates {
      var m := OwnMutation(b, i, op, Start(b, j) + oq);
      assert false;
    }
    assert UsesView(b[j], ref);
    assert ReplacedAt(b, i, op);
  }

  lemma SupersededImpliesReplaced(b: seq<Content>, i: nat)
    requires i < |b| && Counts(b[i]) && DistinctIDs(b)
    requires Superseded(Touches(b), b[i].callID)
    ensures ViewReplaced(b, i) || RepeatsView(b[i])
  {
    var ts, c := Touches(b), b[i];
    var p, q :| 0 <= p < q < |ts| && SupersededAt(ts, c.callID, p, q);
    var ip, op := BlockOfTouch(b, p);
    assert !Clash(b, i, ip);
    var j, oq := BlockOfTouch(b, q);
    assert !Clash(b, i, j);
    BlockOrder(b, i, op, j, oq);
    if j == i {
      assert SameView(c, op, oq);
    } else {
      UsedLater(b, i, op, j, oq);
    }
  }

  lemma UseTouch(c: Content, ref: ResourceRef) returns (o: nat)
    requires UsesView(c, ref)
    ensures o < TouchCount(c) && Uses(TouchAt(c, o), ref)
  {
    if ref in c.context.views {
      o :| 0 <= o < |c.context.views| && c.context.views[o] == ref;
    } else {
      var x: nat :| x < |c.context.mutates| && c.context.mutates[x] == ref.key;
      o := |c.context.views| + x;
    }
  }

  /** A view whose first later use is not the result's own mutation is superseded. */
  lemma UsedViewSuperseded(b: seq<Content>, i: nat, x: nat, bound: nat)
    requires i < |b| && Counts(b[i]) && DistinctIDs(b) && x < |b[i].context.views|
    requires Start(b, i) + x < bound < |Touches(b)| && Uses(Touches(b)[bound], b[i].context.views[x])
    requires bound < Start(b, i) + |b[i].context.views| || b[i].context.views[x].key !in b[i].context.mutates
    ensures Superseded(Touches(b), b[i].callID)
  {
    var ts, c := Touches(b), b[i];
    TouchOfBlock(b, i, x);
    var p := Start(b, i) + x;
    var q := FirstUse(ts, p, c.context.views[x], bound);
    UseCounts(b, i, x, q);
    assert SupersededAt(ts, c.callID, p, q);
  }

  /** Such a use is another result's, or one of the result's own reads. */
  lemma UseCounts(b: seq<Content>, i: nat, x: nat, q: nat)
    requires i < |b| && Counts(b[i]) && DistinctIDs(b) && x < |b[i].context.views|
    requires Start(b, i) + x < q < |Touches(b)| && Uses(Touches(b)[q], b[i].context.views[x])
    requires q < Start(b, i) + |b[i].context.views| || b[i].context.views[x].key !in b[i].context.mutates
    ensures Touches(b)[q].Mutate? ==> Touches(b)[q].id != b[i].callID
  {
    var j, o := BlockOfTouch(b, q);
    assert !Clash(b, i, j);
  }

  lemma RepeatedViewSuperseded(b: seq<Content>, i: nat)
    requires i < |b| && Counts(b[i]) && DistinctIDs(b) && RepeatsView(b[i])
    ensures Superseded(Touches(b), b[i].callID)
  {
    var x: nat, y: nat :| SameView(b[i], x, y);
    TouchOfBlock(b, i, y);
    UsedViewSuperseded(b, i, x, Start(b, i) + y);
  }

  lemma LaterUseTouch(b: seq<Content>, i: nat, ref: ResourceRef) returns (m: nat)
    requires i < |b| && LaterUse(b, i, ref)
    ensures Start(b, i + 1) <= m < |Touches(b)| && Uses(Touches(b)[m], ref)
  {
    var j :| i < j < |b| && UsesView(b[j], ref);
    var o := UseTouch(b[j], ref);
    TouchOfBlock(b, j, o);
    StartMonotone(b, i + 1, j);
    m := Start(b, j) + o;
  }

  lemma ReplacedViewSuperseded(b: seq<Content>, i: nat)
    requires i < |b| && Counts(b[i]) && DistinctIDs(b) && ViewReplaced(b, i)
    ensures Superseded(Touches(b), b[i].callID)
  {
    var x: nat :| ReplacedAt(b, i, x);
    var m := LaterUseTouch(b, i, b[i].context.views[x]);
    StartStep(b, i);
    UsedViewSuperseded(b, i, x, m);
  }

  lemma ReachTouch(c: Content, key: string) returns (o: nat)
    requires Reaches(c, key)
    ensures o < TouchCount(c) && Consumes(TouchAt(c, o), key)
  {
    if key in c.context.mutates {
      var x: nat :| x < |c.context.mutates| && c.context.mutates[x] == key;
      o := |c.context.views| + x;
    } else {
      var v :| v in c.context.views && v.key == key;
      o :| 0 <= o < |c.context.views| && c.context.views[o] == v;
    }
  }

  lemma ConsumeIsReach(c: Content, o: nat, key: string)
    requires Counts(c) && o < TouchCount(c) && Consumes(TouchAt(c, o), key)
    ensures Reaches(c, key) && o < |c.context.views| + |c.context.mutates|
  {
    if o < |c.context.views| {
      assert c.context.views[o] in c.context.views;
    }
  }

  /** After its own finds, only later results consume them. */
  lemma ConsumedLater(b: seq<Content>, i: nat, x: nat, m: nat)
    requires i < |b| && Counts(b[i]) && x < |b[i].context.discovers|
    requires var o := |b[i].context.views| + |b[i].context.mutates| + x; o < TouchCount(b[i]) && Start(b, i) + o < m < |Touches(b)|
    requires Consumes(Touches(b)[m], b[i].context.discovers[x])
    ensures LaterReach(b, i, b[i].context.discovers[x])
  {
    var o := |b[i].context.views| + |b[i].context.mutates| + x;
    var j, oj := BlockOfTouch(b, m);
    BlockOrder(b, i, o, j, oj);
    ConsumeIsReach(b[j], oj, b[i].context.discovers[x]);
  }

  lemma TouchOfFind(b: seq<Content>, i: nat, x: nat) returns (p: nat)
    requires i < |b| && Counts(b[i]) && x < |b[i].context.discovers|
    ensures p == Start(b, i) + |b[i].context.views| + |b[i].context.mutates| + x
    ensures p < Start(b, i + 1) <= |Touches(b)| && Touches(b)[p] == Discover(b[i].callID, b[i].context.discovers[x])
  {
    var o := |b[i].context.views| + |b[i].context.mutates| + x;
    TouchOfBlock(b, i, o);
    p := Start(b, i) + o;
  }

  /** A find that no longer waits after q, with q in a later result, was followed up. */
  lemma GoneIsReached(b: seq<Content>, i: nat, x: nat, q: nat)
    requires i < |b| && Counts(b[i]) && x < |b[i].context.discovers| && Start(b, i + 1) <= q < |Touches(b)|
    requires !Waiting(Touches(b)[..q + 1], b[i].callID, b[i].context.discovers[x])
    ensures LaterReach(b, i, b[i].context.discovers[x])
  {
    var k, past := b[i].context.discovers[x], Touches(b)[..q + 1];
    var p := TouchOfFind(b, i, x);
    assert past[p] == Discover(b[i].callID, k);
    var m :| p < m < |past| && Consumes(past[m], k);
    ConsumedLater(b, i, x, m);
  }

  /** Nothing but finds follows a find inside its own block. */
  lemma AfterFind(b: seq<Content>, i: nat, p: nat, q: nat)
    requires i < |b| && Counts(b[i]) && DistinctIDs(b) && p < q < |Touches(b)|
    requires Touches(b)[p].Discover? && Touches(b)[p].id == b[i].callID && !Touches(b)[q].Discover?
    ensures Start(b, i + 1) <= q && b[i].context.discovers != []
  {
    var ip, op := BlockOfTouch(b, p);
    assert !Clash(b, i, ip);
    var jq, oq := BlockOfTouch(b, q);
    BlockOrder(b, i, op, jq, oq);
    StartMonotone(b, i + 1, jq);
  }

  /** The touch that used up the last find belongs to a later result. */
  lemma LastFindTaken(b: seq<Content>, i: nat) returns (q: nat)
    requires i < |b| && Counts(b[i]) && DistinctIDs(b)
    requires Exhausted(Touches(b), b[i].callID)
    ensures Start(b, i + 1) <= q < |Touches(b)| && NoneWaiting(Touches(b)[..q + 1], b[i].callID)
    ensures b[i].context.discovers != []
  {
    var ts, id := Touches(b), b[i].callID;
    q :| 0 <= q < |ts| && ExhaustedAt(ts, id, q);
    var p :| 0 <= p < q && ts[..q][p] == Discover(id, TouchedKey(ts[q]));
    AfterFind(b, i, p, q);
  }

  lemma ExhaustedImpliesSpent(b: seq<Content>, i: nat)
    requires i < |b| && Counts(b[i]) && DistinctIDs(b)
    requires Exhausted(Touches(b), b[i].callID)
    ensures DiscoveriesSpent(b, i)
  {
    var c := b[i];
    var q := LastFindTaken(b, i);
    forall k | k in c.context.discovers ensures LaterReach(b, i, k) {
      var x: nat :| x < |c.context.discovers| && c.context.discovers[x] == k;
      GoneIsReached(b, i, x, q);
    }
  }

  /** Once something was waiting and at the end nothing is, some touch took the last. */
  lemma {:induction false} RunsOut(ts: seq<Touch>, m: nat, id: string, key: string)
    requires m <= |ts| && Waiting(ts[..m], id, key) && NoneWaiting(ts, id)
    ensures Exhausted(ts, id)
  {
    if ts[..m] != ts {
      var prev, t := Init(ts), Last(ts);
      assert prev + [t] == ts;
      ExhaustedSnoc(prev, t, id);
      assert prev[..m] == ts[..m];
      if NoneWaiting(prev, id) {
        RunsOut(prev, m, id, key);
      } else {
        var k :| Waiting(prev, id, k);
        forall k' ensures Waiting(ts, id, k') <==> t == Discover(id, k') || (Waiting(prev, id, k') && !Consumes(t, k')) {
          WaitingSnoc(prev, t, id, k');
        }
        assert Consumes(t, k);
        forall k' | Waiting(prev, id, k') ensures k' == TouchedKey(t) {
          assert !Waiting(ts, id, k');
        }
      }
    }
  }

  lemma ReachedNotWaiting(b: seq<Content>, i: nat, k: string)
    requires i < |b| && Counts(b[i]) && DistinctIDs(b)
    requires k in b[i].context.discovers ==> LaterReach(b, i, k)
    ensures !Waiting(Touches(b), b[i].callID, k)
  {
    var ts, c := Touches(b), b[i];
    forall p | 0 <= p < |ts| && ts[p] == Discover(c.callID, k)
      ensures exists m :: p < m < |ts| && Consumes(ts[m], k)
    {
      var ip, op := BlockOfTouch(b, p);
      assert !Clash(b, i, ip);
      var j :| i < j < |b| && Reaches(b[j], k);
      var oj := ReachTouch(b[j], k);
      TouchOfBlock(b, j, oj);
      LaterBlock(b, i, op, j, oj);
      assert Consumes(ts[Start(b, j) + oj], k);
    }
  }

  /** Right after its own touches, the last find of a result is still waiting. */
  lemma LastFindWaits(b: seq<Content>, i: nat) returns (m: nat, key: string)
    requires i < |b| && Counts(b[i]) && b[i].context.discovers != []
    ensures m <= |Touches(b)| && Waiting(Touches(b)[..m], b[i].callID, key)
  {
    var c := b[i];
    var o := TouchCount(c) - 1;
    TouchOfBlock(b, i, o);
    m, key := Start(b, i) + o + 1, Last(c.context.discovers);
    assert Touches(b)[..m][m - 1] == Discover(c.callID, key);
  }

  lemma SpentImpliesExhausted(b: seq<Content>, i: nat)
    requires i < |b| && Counts(b[i]) && DistinctIDs(b)
    requires DiscoveriesSpent(b, i)
    ensures Exhausted(Touches(b), b[i].callID)
  {
    var m, key := LastFindWaits(b, i);
    forall k ensures !Waiting(Touches(b), b[i].callID, k) {
      ReachedNotWaiting(b, i, k);
    }
    RunsOut(Touches(b), m, b[i].callID, key);
  }

  /** With distinct call IDs a successful result is stale exactly when a view of
      it was replaced, its finds were all followed up, or it lists one view
      twice: the last clause is how a repeated read marks its own result. */
  lemma StaleIndexIsDefinition(b: seq<Content>, i: nat)
    requires i < |b| && Counts(b[i]) && DistinctIDs(b)
    ensures b[i].callID in Run(Touches(b)).stale <==> IsStale(b, i) || RepeatsView(b[i])
  {
    StaleMeaning(Touches(b), b[i].callID);
    if Superseded(Touches(b), b[i].callID) {
      SupersededImpliesReplaced(b, i);
    }
    if ViewReplaced(b, i) {
      ReplacedViewSuperseded(b, i);
    }
    if RepeatsView(b[i]) {
      RepeatedViewSuperseded(b, i);
    }
    if Exhausted(Touches(b), b[i].callID) {
      ExhaustedImpliesSpent(b, i);
    }
    if DiscoveriesSpent(b, i) {
      SpentImpliesExhausted(b, i);
    }
  }

  lemma NothingReachesLast(b: seq<Content>, i: nat)
    requires i < |b| && Counts(b[i]) && i == |b| - 1
    ensures !DiscoveriesSpent(b, i)
  {
    if b[i].context.discovers != [] {
      var key := b[i].context.discovers[0];
      assert key in b[i].context.discovers && !LaterReach(b, i, key);
    }
  }

  /** A lone result that lists one view twice is stale, though nothing came after it. */
  lemma LoneRepeatedViewIsStale(c: Content)
    requires Counts(c) && RepeatsView(c)
    ensures c.callID in Run(Touches([c])).stale && !ViewReplaced([c], 0) && !DiscoveriesSpent([c], 0)
  {
    StaleIndexIsDefinition([c], 0);
    NothingReachesLast([c], 0);
  }
}
