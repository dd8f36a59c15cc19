/** Which old tool results a newer workspace view supersedes
    (packages/core/context_budget.go, staleToolResultIDs).

    The code makes one pass over the transcript with four mutable maps. Here the
    pass is the method `ContextBudget.StaleToolResultIDs`, its effect per touch is
    `Apply`, and
    the meaning of the answer is given without any of the maps: `Superseded` and
    `Exhausted` quantify over positions in the list of touches. Module
    StaleResults restates it over the results themselves. */
module StaleIndex {
  import opened Transcript

  /** One recorded contact of a result with a resource, in scan order. */
  datatype Touch =
    | Read(id: string, ref: ResourceRef)
    | Mutate(id: string, key: string)
    | Discover(id: string, key: string)

  // ---------------------------------------------------------------- the scan

  /** Only successful results with a call ID take part. */
  predicate Counts(c: Content) {
    c.ToolResult? && !c.isError && c.callID != ""
  }

  function TouchCount(c: Content): nat {
    if Counts(c) then |c.context.views| + |c.context.mutates| + |c.context.discovers| else 0
  }

  /** A result's touches in scan order: views, then mutations, then finds. */
  function TouchAt(c: Content, o: nat): Touch
    requires o < TouchCount(c)
  {
    var v, m := |c.context.views|, |c.context.mutates|;
    if o < v then Read(c.callID, c.context.views[o])
    else if o < v + m then Mutate(c.callID, c.context.mutates[o - v])
    else Discover(c.callID, c.context.discovers[o - v - m])
  }

  function TouchesOf(c: Content): seq<Touch> {
    seq(TouchCount(c), o requires 0 <= o < TouchCount(c) => TouchAt(c, o))
  }

  /** Every content block of the transcript in scan order. */
  function Blocks(msgs: seq<Message>): seq<Content> {
    if msgs == [] then [] else Blocks(Init(msgs)) + Last(msgs).content
  }

  function Touches(blocks: seq<Content>): seq<Touch> {
    if blocks == [] then [] else Touches(Init(blocks)) + TouchesOf(Last(blocks))
  }

  // ------------------------------------------------- the four maps, one touch

  datatype Index = Index(
    stale: set<string>,
    views: map<ResourceRef, string>,
    discoveries: map<string, set<string>>,
    remaining: map<string, int>)

  const EMPTY := Index({}, map[], map[], map[])

  function Discoverers(ix: Index, key: string): set<string> {
    if key in ix.discoveries then ix.discoveries[key] else {}
  }

  function Remaining(remaining: map<string, int>, id: string): int {
    if id in remaining then remaining[id] else 0
  }

  function Decrement(remaining: map<string, int>, ds: set<string>): map<string, int> {
    map d | d in remaining.Keys + ds :: Remaining(remaining, d) - if d in ds then 1 else 0
  }

  function LastOnes(remaining: map<string, int>, ds: set<string>): set<string> {
    set d | d in ds && Remaining(remaining, d) == 1
  }

  /** A read or mutation of `key` uses up every discovery still waiting on it. */
  function Consume(ix: Index, key: string): Index {
    var ds := Discoverers(ix, key);
    ix.(stale := ix.stale + LastOnes(ix.remaining, ds),
        discoveries := ix.discoveries - {key},
        remaining := Decrement(ix.remaining, ds))
  }

  /** A read replaces the view recorded under the same reference. */
  function Observe(ix: Index, id: string, ref: ResourceRef): Index {
    ix.(stale := if ref in ix.views then ix.stale + {ix.views[ref]} else ix.stale,
        views := ix.views[ref := id])
  }

  /** A mutation drops every view of the resource, sparing the marker of its own result. */
  function Invalidate(ix: Index, id: string, key: string): Index {
    ix.(stale := ix.stale + set v | v in ix.views && v.key == key && ix.views[v] != id :: ix.views[v],
        views := ix.views - set v | v in ix.views && v.key == key)
  }

  function Announce(ix: Index, id: string, key: string): Index {
    if id in Discoverers(ix, key) then ix
    else ix.(discoveries := ix.discoveries[key := Discoverers(ix, key) + {id}],
             remaining := ix.remaining[id := Remaining(ix.remaining, id) + 1])
  }

  function Apply(ix: Index, t: Touch): Index {
    match t
    case Read(id, ref) => Consume(Observe(ix, id, ref), ref.key)
    case Mutate(id, key) => Consume(Invalidate(ix, id, key), key)
    case Discover(id, key) => Announce(ix, id, key)
  }

  function Run(ts: seq<Touch>): Index {
    if ts == [] then EMPTY else Apply(Run(Init(ts)), Last(ts))
  }

  // ------------------------------------------- the meaning, without the maps

  /** Touch t replaces or invalidates an earlier view `ref`. */
  predicate Uses(t: Touch, ref: ResourceRef) {
    (t.Read? && t.ref == ref) || (t.Mutate? && t.key == ref.key)
  }

  predicate Consumes(t: Touch, key: string) {
    (t.Read? && t.ref.key == key) || (t.Mutate? && t.key == key)
  }

  function TouchedKey(t: Touch): string {
    if t.Read? then t.ref.key else t.key
  }

  /** The newest view of `ref` is the one result `id` took, and nothing used it since. */
  ghost predicate Current(ts: seq<Touch>, ref: ResourceRef, id: string) {
    exists p :: 0 <= p < |ts| && ts[p] == Read(id, ref) && forall m {:trigger Uses(ts[m], ref)} :: p < m < |ts| ==> !Uses(ts[m], ref)
  }

  /** Result `id` discovered `key` and nobody has come for it since. */
  ghost predicate Waiting(ts: seq<Touch>, id: string, key: string) {
    exists p :: 0 <= p < |ts| && ts[p] == Discover(id, key) && forall m {:trigger Consumes(ts[m], key)} :: p < m < |ts| ==> !Consumes(ts[m], key)
  }

  /** Some view of `id` was used by a later touch q, the first to do so; a
      mutation by the very result that took the view does not count. */
  ghost predicate Superseded(ts: seq<Touch>, id: string) {
    exists p, q :: 0 <= p < q < |ts| && SupersededAt(ts, id, p, q)
  }

  ghost predicate SupersededAt(ts: seq<Touch>, id: string, p: nat, q: nat)
    requires p < q < |ts|
  {
    && ts[p].Read? && ts[p].id == id
    && Uses(ts[q], ts[p].ref)
    && (forall m {:trigger Uses(ts[m], ts[p].ref)} :: p < m < q ==> !Uses(ts[m], ts[p].ref))
    && (ts[q].Mutate? ==> ts[q].id != id)
  }

  /** At some touch q the last discovery of `id` still waiting was consumed. */
  ghost predicate Exhausted(ts: seq<Touch>, id: string) {
    exists q :: 0 <= q < |ts| && ExhaustedAt(ts, id, q)
  }

  ghost predicate ExhaustedAt(ts: seq<Touch>, id: string, q: nat)
    requires q < |ts|
  {
    && !ts[q].Discover?
    && Waiting(ts[..q], id, TouchedKey(ts[q]))
    && NoneWaiting(ts[..q + 1], id)
  }

  ghost predicate NoneWaiting(ts: seq<Touch>, id: string) {
    forall k :: !Waiting(ts, id, k)
  }

  // --------------------------------------- each definition under one more touch

  lemma CurrentSnoc(ts: seq<Touch>, t: Touch, ref: ResourceRef, id: string)
    ensures Current(ts + [t], ref, id) <==> t == Read(id, ref) || (Current(ts, ref, id) && !Uses(t, ref))
  {
    var us := ts + [t];
    if Current(us, ref, id) && t != Read(id, ref) {
      var p :| 0 <= p < |us| && us[p] == Read(id, ref) && forall m :: p < m < |us| ==> !Uses(us[m], ref);
      assert !Uses(us[|ts|], ref);
      assert forall m :: p < m < |ts| ==> us[m] == ts[m];
    }
    if Current(ts, ref, id) && !Uses(t, ref) {
      var p :| 0 <= p < |ts| && ts[p] == Read(id, ref) && forall m {:trigger Uses(ts[m], ref)} :: p < m < |ts| ==> !Uses(ts[m], ref);
      assert us[p] == Read(id, ref);
    }
    if t == Read(id, ref) {
      assert us[|ts|] == Read(id, ref);
    }
  }

  lemma WaitingSnoc(ts: seq<Touch>, t: Touch, id: string, key: string)
    ensures Waiting(ts + [t], id, key) <==> t == Discover(id, key) || (Waiting(ts, id, key) && !Consumes(t, key))
  {
    var us := ts + [t];
    var n := |ts|;
    if Waiting(us, id, key) && t != Discover(id, key) {
      var p :| 0 <= p < n + 1 && us[p] == Discover(id, key) && forall m :: p < m < n + 1 ==> !Consumes(us[m], key);
      assert us[n] == t && !Consumes(us[n], key);
      assert forall m :: p < m < n ==> us[m] == ts[m];
    }
    if Waiting(ts, id, key) && !Consumes(t, key) {
      var p :| 0 <= p < n && ts[p] == Discover(id, key) && forall m :: p < m < n ==> !Consumes(ts[m], key);
      assert us[p] == Discover(id, key);
    }
    if t == Discover(id, key) {
      assert us[n] == t;
    }
  }

  /** Whether touch t uses a current view of `id` in a way that supersedes it. */
  ghost predicate Supersedes(ts: seq<Touch>, t: Touch, id: string) {
    exists ref :: Current(ts, ref, id) && Uses(t, ref) && (t.Mutate? ==> t.id != id)
  }

  lemma SupersededSnoc(ts: seq<Touch>, t: Touch, id: string)
    ensures Superseded(ts + [t], id) <==> Superseded(ts, id) || Supersedes(ts, t, id)
  {
    var us := ts + [t];
    if Superseded(us, id) {
      var p, q :| 0 <= p < q < |us| && SupersededAt(us, id, p, q);
      assert forall m :: p < m < q ==> us[m] == ts[m];
      if q < |ts| {
        assert SupersededAt(ts, id, p, q);
      } else {
        assert ts[p] == Read(id, ts[p].ref);
        assert Current(ts, ts[p].ref, id);
      }
    }
    if Superseded(ts, id) {
      var p, q :| 0 <= p < q < |ts| && SupersededAt(ts, id, p, q);
      assert SupersededAt(us, id, p, q);
    }
    if Supersedes(ts, t, id) {
      var ref :| Current(ts, ref, id) && Uses(t, ref) && (t.Mutate? ==> t.id != id);
      var p :| 0 <= p < |ts| && ts[p] == Read(id, ref) && forall m {:trigger Uses(ts[m], ref)} :: p < m < |ts| ==> !Uses(ts[m], ref);
      assert SupersededAt(us, id, p, |ts|);
    }
  }

  /** Whether touch t consumes the only discovery of `id` still waiting. */
  ghost predicate Exhausts(ts: seq<Touch>, t: Touch, id: string) {
    && !t.Discover?
    && Waiting(ts, id, TouchedKey(t))
    && forall k :: Waiting(ts, id, k) ==> k == TouchedKey(t)
  }

  lemma ExhaustedSnoc(ts: seq<Touch>, t: Touch, id: string)
    ensures Exhausted(ts + [t], id) <==> Exhausted(ts, id) || Exhausts(ts, t, id)
  {
    var us := ts + [t];
    forall q | 0 <= q < |ts| ensures ExhaustedAt(us, id, q) <==> ExhaustedAt(ts, id, q) {
      assert us[..q] == ts[..q] && us[..q + 1] == ts[..q + 1] && us[q] == ts[q];
    }
    assert us[..|ts|] == ts && us[..|ts| + 1] == us && us[|ts|] == t;
    forall k ensures Waiting(us, id, k) <==> t == Discover(id, k) || (Waiting(ts, id, k) && !Consumes(t, k)) {
      WaitingSnoc(ts, t, id, k);
    }
    assert ExhaustedAt(us, id, |ts|) <==> Exhausts(ts, t, id);
  }

  // ------------------------------------------------- the maps mean what they say

  function Held(ix: Index, id: string): set<string> {
    set k | k in ix.discoveries && id in ix.discoveries[k]
  }

  ghost predicate ReadsAgree(ts: seq<Touch>, ix: Index) {
    forall ref, id :: (ref in ix.views && ix.views[ref] == id) <==> Current(ts, ref, id)
  }

  ghost predicate DiscoveriesAgree(ts: seq<Touch>, ix: Index) {
    forall k, id :: id in Discoverers(ix, k) <==> Waiting(ts, id, k)
  }

  ghost predicate CountersAgree(ix: Index) {
    && (forall id :: Remaining(ix.remaining, id) == |Held(ix, id)|)
    && (forall k :: k in ix.discoveries ==> ix.discoveries[k] <= ix.remaining.Keys)
  }

  ghost predicate StaleAgree(ts: seq<Touch>, ix: Index) {
    forall id :: id in ix.stale <==> Superseded(ts, id) || Exhausted(ts, id)
  }

  ghost predicate Agree(ts: seq<Touch>, ix: Index) {
    ReadsAgree(ts, ix) && DiscoveriesAgree(ts, ix) && CountersAgree(ix) && StaleAgree(ts, ix)
  }

  lemma ReadsStep(ts: seq<Touch>, ix: Index, t: Touch)
    requires Agree(ts, ix)
    ensures ReadsAgree(ts + [t], Apply(ix, t))
  {
    var ix' := Apply(ix, t);
    forall ref, id
      ensures (ref in ix'.views && ix'.views[ref] == id) <==> Current(ts + [t], ref, id)
    {
      CurrentSnoc(ts, t, ref, id);
      assert (ref in ix.views && ix.views[ref] == id) <==> Current(ts, ref, id);
    }
  }

  lemma DiscoverersStep(ix: Index, t: Touch, id: string, k: string)
    ensures id in Discoverers(Apply(ix, t), k) <==> t == Discover(id, k) || (id in Discoverers(ix, k) && !Consumes(t, k))
  {
  }

  lemma DiscoveriesStep(ts: seq<Touch>, ix: Index, t: Touch)
    requires Agree(ts, ix)
    ensures DiscoveriesAgree(ts + [t], Apply(ix, t))
  {
    forall k, id ensures id in Discoverers(Apply(ix, t), k) <==> Waiting(ts + [t], id, k) {
      WaitingSnoc(ts, t, id, k);
      DiscoverersStep(ix, t, id, k);
    }
  }

  lemma CountersAfterConsume(ix: Index, key: string)
    requires CountersAgree(ix)
    ensures CountersAgree(Consume(ix, key))
  {
    var ix' := Consume(ix, key);
    var ds := Discoverers(ix, key);
    forall id ensures Remaining(ix'.remaining, id) == |Held(ix', id)| {
      assert Remaining(ix.remaining, id) == |Held(ix, id)|;
      assert Held(ix', id) == Held(ix, id) - {key};
      assert key in Held(ix, id) <==> id in ds;
    }
  }

  lemma HeldAfterDiscover(ix: Index, id: string, key: string, d: string)
    ensures Held(Apply(ix, Discover(id, key)), d) == Held(ix, d) + if d == id then {key} else {}
  {
    var ix' := Apply(ix, Discover(id, key));
    forall k ensures k in Held(ix', d) <==> k in Held(ix, d) || (d == id && k == key) {
      DiscoverersStep(ix, Discover(id, key), d, k);
    }
  }

  lemma CounterAfterDiscover(ix: Index, id: string, key: string, d: string)
    requires Remaining(ix.remaining, d) == |Held(ix, d)|
    ensures var ix' := Apply(ix, Discover(id, key)); Remaining(ix'.remaining, d) == |Held(ix', d)|
  {
    HeldAfterDiscover(ix, id, key, d);
    if d == id && id !in Discoverers(ix, key) {
      assert key !in Held(ix, id);
    } else if d == id {
      assert key in Held(ix, id);
      assert Held(ix, id) + {key} == Held(ix, id);
    }
  }

  lemma CountersAfterDiscover(ix: Index, id: string, key: string)
    requires CountersAgree(ix)
    ensures CountersAgree(Apply(ix, Discover(id, key)))
  {
    var ix' := Apply(ix, Discover(id, key));
    forall d ensures Remaining(ix'.remaining, d) == |Held(ix', d)| {
      assert Remaining(ix.remaining, d) == |Held(ix, d)|;
      CounterAfterDiscover(ix, id, key, d);
    }
  }

  lemma CountersStep(ix: Index, t: Touch)
    requires CountersAgree(ix)
    ensures CountersAgree(Apply(ix, t))
  {
    match t
    case Read(id, ref) =>
      assert forall d :: Held(Observe(ix, id, ref), d) == Held(ix, d);
      CountersAfterConsume(Observe(ix, id, ref), ref.key);
    case Mutate(id, key) =>
      assert forall d :: Held(Invalidate(ix, id, key), d) == Held(ix, d);
      CountersAfterConsume(Invalidate(ix, id, key), key);
    case Discover(id, key) =>
      CountersAfterDiscover(ix, id, key);
  }

  lemma SingletonHeld(ts: seq<Touch>, ix: Index, key: string, id: string)
    requires DiscoveriesAgree(ts, ix) && CountersAgree(ix)
    ensures id in Discoverers(ix, key) && Remaining(ix.remaining, id) == 1
       <==> Waiting(ts, id, key) && forall k :: Waiting(ts, id, k) ==> k == key
  {
    var held := Held(ix, id);
    assert forall k :: k in held <==> id in Discoverers(ix, k);
    assert forall k :: id in Discoverers(ix, k) <==> Waiting(ts, id, k);
    assert Remaining(ix.remaining, id) == |held|;
    if key in held {
      assert |held - {key}| == |held| - 1;
      if |held| == 1 {
        assert held - {key} == {};
        forall k | Waiting(ts, id, k) ensures k == key {
          assert k in held;
          assert k !in held - {key};
        }
      }
      if forall k :: Waiting(ts, id, k) ==> k == key {
        assert held == {key};
      }
    }
  }

  /** One touch marks what it replaces, and a search whose last find it follows up. */
  lemma StaleAfter(ix: Index, t: Touch, id: string)
    ensures id in Apply(ix, t).stale
       <==> id in ix.stale || id in MarkedByReads(ix, t)
            || (!t.Discover? && id in Discoverers(ix, TouchedKey(t)) && Remaining(ix.remaining, id) == 1)
  {
  }

  lemma StaleStep(ts: seq<Touch>, ix: Index, t: Touch)
    requires Agree(ts, ix)
    ensures StaleAgree(ts + [t], Apply(ix, t))
  {
    var ix' := Apply(ix, t);
    forall id ensures id in ix'.stale <==> Superseded(ts + [t], id) || Exhausted(ts + [t], id) {
      StaleAfter(ix, t, id);
      SupersededSnoc(ts, t, id);
      ExhaustedSnoc(ts, t, id);
      SingletonHeld(ts, ix, TouchedKey(t), id);
      assert id in ix.stale <==> Superseded(ts, id) || Exhausted(ts, id);
      SupersedesMeans(ts, ix, t, id);
    }
  }

  /** What one touch adds to `stale` through the `views` map. */
  function MarkedByReads(ix: Index, t: Touch): set<string> {
    match t
    case Read(id, ref) => if ref in ix.views then {ix.views[ref]} else {}
    case Mutate(id, key) => set v | v in ix.views && v.key == key && ix.views[v] != id :: ix.views[v]
    case Discover(_, _) => {}
  }

  lemma SupersedesMeans(ts: seq<Touch>, ix: Index, t: Touch, id: string)
    requires ReadsAgree(ts, ix)
    ensures id in MarkedByReads(ix, t) <==> Supersedes(ts, t, id)
  {
    if Supersedes(ts, t, id) {
      var ref :| Current(ts, ref, id) && Uses(t, ref) && (t.Mutate? ==> t.id != id);
      assert ref in ix.views && ix.views[ref] == id;
    }
    if id in MarkedByReads(ix, t) {
      var ref :| ref in ix.views && ix.views[ref] == id && Uses(t, ref) && (t.Mutate? ==> t.id != id);
      assert Current(ts, ref, id);
    }
  }

  /** The four maps hold exactly what the definitions say, for every touch list:
      repeated call IDs, repeated reads and self-mutation included. */
  lemma {:induction false} IndexMeaning(ts: seq<Touch>)
    ensures Agree(ts, Run(ts))
  {
    if ts == [] {
      assert forall id :: Held(EMPTY, id) == {};
    } else {
      var prev, t := Init(ts), Last(ts);
      IndexMeaning(prev);
      assert prev + [t] == ts;
      var ix := Run(prev);
      ReadsStep(prev, ix, t);
      DiscoveriesStep(prev, ix, t);
      CountersStep(ix, t);
      StaleStep(prev, ix, t);
    }
  }

  /** The map-free meaning of the scan's answer, for every touch list. */
  lemma StaleMeaning(ts: seq<Touch>, id: string)
    ensures id in Run(ts).stale <==> Superseded(ts, id) || Exhausted(ts, id)
  {
    IndexMeaning(ts);
  }

  /** Nothing that happens later brings a stale result back. */
  lemma {:induction false} StaleGrows(ts: seq<Touch>, us: seq<Touch>)
    ensures Run(ts).stale <= Run(ts + us).stale
  {
    if us == [] {
      assert ts + us == ts;
    } else {
      StaleGrows(ts, Init(us));
      assert Init(ts + us) == ts + Init(us);
    }
  }
}
