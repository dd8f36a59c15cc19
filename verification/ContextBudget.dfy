/** The stale index as the code builds it (packages/core/context_budget.go:56-109):
    nested loops over messages, blocks and provenance, with map ranges taken in any
    order. The result is the index of StaleIndex. */
module ContextBudget {
  import opened Transcript
  import opened StaleIndex
  import StaleTranscript

  lemma DecrementOne(remaining: map<string, int>, done: set<string>, d: string)
    requires d !in done
    ensures Decrement(remaining, done + {d})
         == Decrement(remaining, done)[d := Remaining(Decrement(remaining, done), d) - 1]
    ensures Remaining(Decrement(remaining, done), d) == Remaining(remaining, d)
  {
  }

  /** `for discovery := range discoveries[key]`: the set is taken in any order. */
  method ConsumeDiscoveries(old_: Index, key: string) returns (ix: Index)
    ensures ix == Consume(old_, key)
  {
    var stale, remaining := old_.stale, old_.remaining;
    var ds := Discoverers(old_, key);
    var todo := ds;
    ghost var done: set<string> := {};
    while todo != {}
      invariant done + todo == ds && done !! todo
      invariant remaining == Decrement(old_.remaining, done)
      invariant stale == old_.stale + LastOnes(old_.remaining, done)
    {
      var discovery :| discovery in todo;
      DecrementOne(old_.remaining, done, discovery);
      remaining := remaining[discovery := Remaining(remaining, discovery) - 1];
      if remaining[discovery] == 0 {
        stale := stale + {discovery};
      }
      done, todo := done + {discovery}, todo - {discovery};
    }
    assert done == ds;
    ix := old_.(stale := stale, discoveries := old_.discoveries - {key}, remaining := remaining);
  }

  /** `for view, previous := range reads`: entries are deleted while ranging, in any order. */
  method InvalidateViews(old_: Index, id: string, key: string) returns (ix: Index)
    ensures ix == Invalidate(old_, id, key)
  {
    var stale, views := old_.stale, old_.views;
    var todo := old_.views.Keys;
    while todo != {}
      invariant todo <= old_.views.Keys
      invariant views == old_.views - set v | v in old_.views.Keys - todo && v.key == key
      invariant stale == old_.stale + set v | v in old_.views.Keys - todo && v.key == key && old_.views[v] != id :: old_.views[v]
    {
      var view :| view in todo;
      if view.key == key {
        if views[view] != id {
          stale := stale + {views[view]};
        }
        views := views - {view};
      }
      todo := todo - {view};
    }
    ix := old_.(stale := stale, views := views);
  }

  method ScanView(old_: Index, id: string, resource: ResourceRef) returns (ix: Index)
    ensures ix == Apply(old_, Read(id, resource))
  {
    ix := old_;
    if resource in ix.views {
      ix := ix.(stale := ix.stale + {ix.views[resource]});
    }
    ix := ix.(views := ix.views[resource := id]);
    ix := ConsumeDiscoveries(ix, resource.key);
  }

  method ScanMutation(old_: Index, id: string, key: string) returns (ix: Index)
    ensures ix == Apply(old_, Mutate(id, key))
  {
    ix := InvalidateViews(old_, id, key);
    ix := ConsumeDiscoveries(ix, key);
  }

  method ScanDiscovery(old_: Index, id: string, key: string) returns (ix: Index)
    ensures ix == Apply(old_, Discover(id, key))
  {
    ix := old_;
    var found := Discoverers(ix, key);
    if id !in found {
      ix := ix.(discoveries := ix.discoveries[key := found + {id}],
                remaining := ix.remaining[id := Remaining(ix.remaining, id) + 1]);
    }
  }

  /** The indexes between the touches of one block, first to last. */
  ghost predicate Steps(c: Content, states: seq<Index>) {
    && |states| == TouchCount(c) + 1
    && forall o {:trigger TouchAt(c, o)} :: 0 <= o < TouchCount(c) ==> states[o + 1] == Apply(states[o], TouchAt(c, o))
  }

  lemma StepOf(ts: seq<Touch>, c: Content, o: nat)
    requires o < TouchCount(c)
    ensures Run(ts + TouchesOf(c)[..o + 1]) == Apply(Run(ts + TouchesOf(c)[..o]), TouchAt(c, o))
  {
    var us := ts + TouchesOf(c)[..o + 1];
    assert Init(us) == ts + TouchesOf(c)[..o] && Last(us) == TouchAt(c, o);
  }

  lemma {:induction false} StepsUpTo(ts: seq<Touch>, c: Content, n: nat) returns (states: seq<Index>)
    requires n <= TouchCount(c)
    ensures |states| == n + 1 && states[0] == Run(ts) && states[n] == Run(ts + TouchesOf(c)[..n])
    ensures forall o {:trigger TouchAt(c, o)} :: 0 <= o < n ==> states[o + 1] == Apply(states[o], TouchAt(c, o))
  {
    if n == 0 {
      assert ts + TouchesOf(c)[..0] == ts;
      states := [Run(ts)];
    } else {
      states := StepsUpTo(ts, c, n - 1);
      StepOf(ts, c, n - 1);
      states := states + [Run(ts + TouchesOf(c)[..n])];
    }
  }

  lemma TouchesSnoc(before: seq<Content>, c: Content)
    ensures Touches(before + [c]) == Touches(before) + TouchesOf(c)
  {
    assert Init(before + [c]) == before;
  }

  lemma StepsOf(before: seq<Content>, c: Content) returns (states: seq<Index>)
    ensures Steps(c, states) && states[0] == Run(Touches(before)) && Last(states) == Run(Touches(before + [c]))
  {
    var ts, n := Touches(before), TouchCount(c);
    states := StepsUpTo(ts, c, n);
    TouchesSnoc(before, c);
    assert ts + TouchesOf(c)[..n] == Touches(before + [c]);
  }

  method ScanViews(old_: Index, c: Content, ghost states: seq<Index>) returns (ix: Index)
    requires Counts(c) && Steps(c, states) && old_ == states[0]
    ensures ix == states[|c.context.views|]
  {
    ix := old_;
    for k := 0 to |c.context.views|
      invariant ix == states[k]
    {
      ghost var t := TouchAt(c, k);
      ix := ScanView(ix, c.callID, c.context.views[k]);
    }
  }

  method ScanMutations(old_: Index, c: Content, ghost states: seq<Index>) returns (ix: Index)
    requires Counts(c) && Steps(c, states) && old_ == states[|c.context.views|]
    ensures ix == states[|c.context.views| + |c.context.mutates|]
  {
    ix := old_;
    for k := 0 to |c.context.mutates|
      invariant ix == states[|c.context.views| + k]
    {
      ghost var t := TouchAt(c, |c.context.views| + k);
      ix := ScanMutation(ix, c.callID, c.context.mutates[k]);
    }
  }

  method ScanDiscoveries(old_: Index, c: Content, ghost states: seq<Index>) returns (ix: Index)
    requires Counts(c) && Steps(c, states) && old_ == states[|c.context.views| + |c.context.mutates|]
    ensures ix == Last(states)
  {
    ix := old_;
    ghost var from := |c.context.views| + |c.context.mutates|;
    for k := 0 to |c.context.discovers|
      invariant ix == states[from + k]
    {
      ghost var t := TouchAt(c, from + k);
      ix := ScanDiscovery(ix, c.callID, c.context.discovers[k]);
    }
  }

  /** One block of the scan: views, then mutations, then finds. */
  method ScanResult(old_: Index, c: Content, ghost before: seq<Content>) returns (ix: Index)
    requires old_ == Run(Touches(before))
    ensures ix == Run(Touches(before + [c]))
  {
    ix := old_;
    ghost var states := StepsOf(before, c);
    if !c.ToolResult? || c.isError || c.callID == "" {
      return;
    }
    ix := ScanViews(ix, c, states);
    ix := ScanMutations(ix, c, states);
    ix := ScanDiscoveries(ix, c, states);
  }

  method ScanMessage(old_: Index, content: seq<Content>, ghost before: seq<Content>) returns (ix: Index)
    requires old_ == Run(Touches(before))
    ensures ix == Run(Touches(before + content))
  {
    ix := old_;
    ghost var done := before;
    for j := 0 to |content|
      invariant done == before + content[..j]
      invariant ix == Run(Touches(done))
    {
      ix := ScanResult(ix, content[j], done);
      done := done + [content[j]];
    }
    assert done == before + content;
  }

  method StaleToolResultIDs(msgs: seq<Message>) returns (stale: set<string>)
    ensures stale == Run(Touches(Blocks(msgs))).stale
    ensures StaleTranscript.Explains(msgs, stale)
  {
    var ix := EMPTY;
    ghost var done: seq<Message> := [];
    for i := 0 to |msgs|
      invariant done == msgs[..i]
      invariant ix == Run(Touches(Blocks(done)))
    {
      ix := ScanMessage(ix, msgs[i].content, Blocks(done));
      done := done + [msgs[i]];
      assert Init(done) == msgs[..i];
    }
    assert done == msgs;
    stale := ix.stale;
    StaleTranscript.Explained(msgs);
  }
}
