/** Revocation of the web capability (packages/agent/web_search_guard.go:16-94): one
    guard per session, wrappers stamped with its generation, and a check of two atomic
    loads. Threads interleave between any two atomic operations. */
module WebGuard {
  import opened Transcript

  /** A call in progress on some thread. A revocation has swapped the flag and found it
      on, a check has loaded the flag and found it on, a wrapper is built by one load. */
  datatype Pending = Revoking | Checking(generation: nat)

  /** The guard's two atomics, the calls in progress by thread, and what has happened:
      wrapper stamps, and checks that passed. */
  datatype State = State(available: bool, generation: nat, pending: map<nat, Pending>, wrappers: seq<nat>, passed: seq<nat>)

  const START := State(false, 0, map[], [], [])

  datatype Action =
    | Allow
    | Swap(thread: nat)
    | Add(thread: nat)
    | Wrap
    | LoadFlag(thread: nat, wrapper: nat)
    | LoadGeneration(thread: nat)

  /** One atomic operation. A thread does one call at a time; the generation counter is
      64 bits wide in the program and taken to be unbounded here. */
  function Step(s: State, a: Action): State {
    match a
    case Allow => s.(available := true)
    case Swap(t) =>
      if t in s.pending then s
      else s.(available := false, pending := if s.available then s.pending[t := Revoking] else s.pending)
    case Add(t) =>
      if t in s.pending && s.pending[t].Revoking? then s.(generation := s.generation + 1, pending := s.pending - {t}) else s
    case Wrap => s.(wrappers := s.wrappers + [s.generation])
    case LoadFlag(t, w) =>
      if t in s.pending || w >= |s.wrappers| || !s.available then s
      else s.(pending := s.pending[t := Checking(s.wrappers[w])])
    case LoadGeneration(t) =>
      if t in s.pending && s.pending[t].Checking?
      then s.(pending := s.pending - {t},
              passed := if s.pending[t].generation == s.generation then s.passed + [s.pending[t].generation] else s.passed)
      else s
  }

  function Run(s: State, acts: seq<Action>): State {
    if acts == [] then s else Step(Run(s, Init(acts)), Last(acts))
  }

  /** Stamps never run ahead of the generation. */
  ghost predicate Inv(s: State) {
    && (forall i :: 0 <= i < |s.wrappers| ==> s.wrappers[i] <= s.generation)
    && (forall t :: t in s.pending && s.pending[t].Checking? ==> s.pending[t].generation <= s.generation)
  }

  lemma {:induction false} Always(s: State, acts: seq<Action>)
    requires Inv(s)
    ensures Inv(Run(s, acts)) && s.generation <= Run(s, acts).generation && s.wrappers <= Run(s, acts).wrappers
    ensures s.passed <= Run(s, acts).passed
  {
    if acts != [] {
      Always(s, Init(acts));
    }
  }

  /** Checks that pass later carry the generation of their moment. */
  lemma {:induction false} PassesAreCurrent(s: State, acts: seq<Action>, i: nat)
    requires Inv(s) && |s.passed| <= i < |Run(s, acts).passed|
    ensures s.generation <= Run(s, acts).passed[i] <= Run(s, acts).generation
  {
    if acts != [] {
      Always(s, Init(acts));
      var before := Run(s, Init(acts));
      if i < |before.passed| {
        PassesAreCurrent(s, Init(acts), i);
      }
    }
  }

  /** Once a revocation that found the capability on has returned, no wrapper built
      before that ever passes its check again, whatever the threads do and however
      often the capability comes back, not even in a check already under way. */
  lemma RevocationIsPermanent(before: seq<Action>, thread: nat, after: seq<Action>, i: nat, wrapper: nat)
    requires var s := Run(START, before); thread in s.pending && s.pending[thread].Revoking?
    requires wrapper < |Run(START, before).wrappers|
    requires var s := Run(START, before);
             var later := Run(Step(s, Add(thread)), after);
             |s.passed| <= i < |later.passed|
    ensures var s := Run(START, before);
            Run(Step(s, Add(thread)), after).passed[i] != s.wrappers[wrapper]
  {
    Always(START, before);
    var s := Run(START, before);
    PassesAreCurrent(Step(s, Add(thread)), after, i);
  }

  /** A revocation's second operation always comes: nothing but that thread removes it. */
  lemma {:induction false} RevocationStaysPending(s: State, thread: nat, acts: seq<Action>)
    requires thread in s.pending && s.pending[thread].Revoking? && Add(thread) !in acts
    ensures var t := Run(s, acts); thread in t.pending && t.pending[thread].Revoking?
  {
    if acts != [] {
      assert forall a :: a in Init(acts) ==> a in acts;
      RevocationStaysPending(s, thread, Init(acts));
      assert Last(acts) in acts;
    }
  }

  /** The window between the two operations is real: a wrapper built before it can pass
      once the capability is allowed again and before the generation moves. */
  lemma WindowIsReal()
    ensures var s := Run(START, [Allow, Wrap, Swap(0), Allow, LoadFlag(1, 0), LoadGeneration(1)]);
            s.wrappers == [0] && s.passed == [0] && 0 in s.pending && s.pending[0].Revoking?
  {
    var acts := [Allow, Wrap, Swap(0), Allow, LoadFlag(1, 0), LoadGeneration(1)];
    WindowOpens(acts);
    RunNext(acts, 4);
    RunNext(acts, 5);
    assert acts[..6] == acts;
  }

  /** The flag is back on, and the generation has not moved. */
  lemma WindowOpens(acts: seq<Action>)
    requires [Allow, Wrap, Swap(0), Allow] <= acts
    ensures Run(START, acts[..4]) == State(true, 0, map[0 := Revoking], [0], [])
  {
    assert acts[0] == Allow && acts[1] == Wrap && acts[2] == Swap(0) && acts[3] == Allow;
    assert acts[..0] == [];
    RunNext(acts, 0);
    RunNext(acts, 1);
    RunNext(acts, 2);
    RunNext(acts, 3);
  }

  lemma RunNext(acts: seq<Action>, k: nat)
    requires k < |acts|
    ensures Run(START, acts[..k + 1]) == Step(Run(START, acts[..k]), acts[k])
  {
    assert Init(acts[..k + 1]) == acts[..k];
  }

  // ------------------------------------------------------------------ the object

  class Guard {
    var available: bool
    var generation: nat

    constructor ()
      ensures !available && generation == 0
    {
      available, generation := false, 0;
    }

    method SetAvailable(on: bool)
      modifies this
      ensures available == on
      ensures generation == old(generation) + if old(available) && !on then 1 else 0
    {
      if !on {
        var was := available;
        available := false;
        if was {
          generation := generation + 1;
        }
        return;
      }
      available := true;
    }
  }

  /** A tool as the registry holds it: web tools of this session carry a stamp. */
  datatype Tool = Plain(web: bool) | Guarded(owner: Guard, stamp: nat, web: bool)

  predicate Available(guard: Guard, tool: Tool)
    reads guard
  {
    match tool
    case Plain(_) => true
    case Guarded(owner, stamp, _) => owner == guard && guard.available && stamp == guard.generation
  }

  /** Wraps every web tool that this guard does not already wrap, in whatever order the
      registry's names come. */
  method WrapRegistry(guard: Guard, registry: map<string, Tool>) returns (out: map<string, Tool>)
    ensures out.Keys == registry.Keys
    ensures forall name :: name in registry ==>
              out[name] == if !registry[name].web || (registry[name].Guarded? && registry[name].owner == guard)
                           then registry[name] else Guarded(guard, guard.generation, true)
  {
    out := registry;
    var todo := registry.Keys;
    while todo != {}
      invariant todo <= registry.Keys && out.Keys == registry.Keys
      invariant forall name :: name in todo ==> out[name] == registry[name]
      invariant forall name :: name in registry && name !in todo ==>
                  out[name] == if !registry[name].web || (registry[name].Guarded? && registry[name].owner == guard)
                               then registry[name] else Guarded(guard, guard.generation, true)
      decreases todo
    {
      var name :| name in todo;
      todo := todo - {name};
      var tool := out[name];
      if tool.web && !(tool.Guarded? && tool.owner == guard) {
        out := out[name := Guarded(guard, guard.generation, true)];
      }
    }
  }

  // ------------------------------------------------- calls that do not interleave

  /** Whole calls, one after the other. */
  datatype Call = SetTo(on: bool)

  function After(available: bool, generation: nat, calls: seq<Call>): (bool, nat) {
    if calls == [] then (available, generation)
    else
      var (a, g) := After(available, generation, Init(calls));
      (Last(calls).on, if a && !Last(calls).on then g + 1 else g)
  }

  /** The i-th call is a revoke that finds the capability on. */
  predicate Revokes(available: bool, calls: seq<Call>, i: nat)
    requires i < |calls|
  {
    !calls[i].on && if i == 0 then available else calls[i - 1].on
  }

  ghost predicate Revoked(available: bool, calls: seq<Call>) {
    exists i :: 0 <= i < |calls| && Revokes(available, calls, i)
  }

  lemma RevokedSnoc(available: bool, calls: seq<Call>)
    requires calls != []
    ensures Revoked(available, calls) <==> Revoked(available, Init(calls)) || Revokes(available, calls, |calls| - 1)
  {
    forall i | 0 <= i < |calls| - 1 ensures Revokes(available, calls, i) <==> Revokes(available, Init(calls), i) {
    }
  }

  /** A wrapper made now works after any further calls exactly if the capability is
      allowed then and was not revoked in between. */
  lemma {:induction false} WorksUntilRevoked(available: bool, generation: nat, calls: seq<Call>)
    ensures var (a, g) := After(available, generation, calls);
            && (g == generation <==> !Revoked(available, calls)) && g >= generation
            && a == if calls == [] then available else Last(calls).on
  {
    if calls != [] {
      WorksUntilRevoked(available, generation, Init(calls));
      RevokedSnoc(available, calls);
    }
  }

  method Perform(guard: Guard, calls: seq<Call>)
    modifies guard
    ensures (guard.available, guard.generation) == After(old(guard.available), old(guard.generation), calls)
  {
    for i := 0 to |calls|
      invariant (guard.available, guard.generation) == After(old(guard.available), old(guard.generation), calls[..i])
    {
      assert Init(calls[..i + 1]) == calls[..i] && Last(calls[..i + 1]) == calls[i];
      guard.SetAvailable(calls[i].on);
    }
    assert calls[..|calls|] == calls;
  }

  /** The same on the object: a wrapper stamped at the start passes its check at the end. */
  method WrapperOutlives(guard: Guard, calls: seq<Call>) returns (works: bool)
    modifies guard
    ensures works <==> !Revoked(old(guard.available), calls) && if calls == [] then old(guard.available) else Last(calls).on
  {
    var wrapper := Guarded(guard, guard.generation, true);
    WorksUntilRevoked(guard.available, guard.generation, calls);
    Perform(guard, calls);
    works := Available(guard, wrapper);
  }
}
