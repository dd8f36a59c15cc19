/** The scoped model cache (packages/agent/modelsync.go:158-229, 448-455, 604-694):
    which cached providers survive a change of credentials, and what a refresh
    publishes. Go iterates its maps in any order; so do the loops here, and what they
    compute does not depend on it. */
module ModelCache {
  import opened Transcript

  datatype Model = Model(provider: string, id: string)

  /** `fetchedAt` 0 is the zero time. */
  datatype Cache = Cache(version: int, fetchedAt: nat, models: seq<Model>, authoritative: seq<string>, scopes: map<string, string>)

  /** The two providers whose catalogs always belong to one account, and the format. */
  datatype Names = Names(codex: string, go: string, version: int)

  function Lookup(m: map<string, string>, name: string): string {
    if name in m then m[name] else ""
  }

  // ------------------------------------------------------------------ filtering

  /** Providers whose catalog is tied to a credential. */
  function Scoped(names: Names, c: Cache, scopes: map<string, string>): set<string> {
    {names.codex, names.go} + c.scopes.Keys + scopes.Keys
  }

  /** A provider keeps its entries if it is not tied to a credential, is exempt, or
      belongs to the credential in use. */
  predicate Kept(names: Names, c: Cache, scopes: map<string, string>, exempt: string, name: string) {
    || name !in Scoped(names, c, scopes)
    || name == exempt
    || Matches(c, scopes, name)
  }

  predicate Matches(c: Cache, scopes: map<string, string>, name: string) {
    Lookup(c.scopes, name) != "" && Lookup(c.scopes, name) == Lookup(scopes, name)
  }

  /** The models of providers outside `gone`, in order. */
  function Without(models: seq<Model>, gone: set<string>): seq<Model> {
    if models == [] then []
    else if models[0].provider in gone then Without(models[1..], gone)
    else [models[0]] + Without(models[1..], gone)
  }

  function NamesWithout(list: seq<string>, gone: set<string>): seq<string> {
    if list == [] then []
    else if list[0] in gone then NamesWithout(list[1..], gone)
    else [list[0]] + NamesWithout(list[1..], gone)
  }

  /** Scoped providers whose credential is not the one in use. */
  function Gone(names: Names, c: Cache, scopes: map<string, string>, exempt: string): set<string> {
    set name | name in Scoped(names, c, scopes) && !Kept(names, c, scopes, exempt, name)
  }

  function Removed(c: Cache, gone: set<string>): Cache {
    c.(models := Without(c.models, gone), authoritative := NamesWithout(c.authoritative, gone), scopes := c.scopes - gone)
  }

  function Filtered(names: Names, c: Cache, scopes: map<string, string>, exempt: string): Cache {
    Removed(c, Gone(names, c, scopes, exempt))
  }

  lemma WithoutTwice(models: seq<Model>, a: set<string>, b: set<string>)
    ensures Without(Without(models, a), b) == Without(models, a + b)
  {
    if models != [] {
      WithoutTwice(models[1..], a, b);
      if models[0].provider !in a {
        var rest := Without(models[1..], a);
        assert ([models[0]] + rest)[1..] == rest;
      }
    }
  }

  lemma NamesWithoutTwice(list: seq<string>, a: set<string>, b: set<string>)
    ensures NamesWithout(NamesWithout(list, a), b) == NamesWithout(list, a + b)
  {
    if list != [] {
      NamesWithoutTwice(list[1..], a, b);
      if list[0] !in a {
        var rest := NamesWithout(list[1..], a);
        assert ([list[0]] + rest)[1..] == rest;
      }
    }
  }

  lemma RemovedTwice(c: Cache, a: set<string>, b: set<string>)
    ensures Removed(Removed(c, a), b) == Removed(c, a + b)
  {
    WithoutTwice(c.models, a, b);
    NamesWithoutTwice(c.authoritative, a, b);
    assert (c.scopes - a) - b == c.scopes - (a + b);
  }

  lemma RemovedNone(c: Cache)
    ensures Removed(c, {}) == c
  {
    WithoutNone(c.models);
    NamesWithoutNone(c.authoritative);
    assert c.scopes - {} == c.scopes;
  }

  lemma WithoutNone(models: seq<Model>)
    ensures Without(models, {}) == models
  {
  }

  lemma NamesWithoutNone(list: seq<string>)
    ensures NamesWithout(list, {}) == list
  {
  }

  /** A provider whose catalog is tied to a credential other than the one in use: it is
      one of the two, or has a scope in the cache or now, is not exempt, and its scope in
      the cache is missing or another than now. */
  ghost predicate Foreign(names: Names, c: Cache, scopes: map<string, string>, exempt: string, name: string) {
    && (name == names.codex || name == names.go || name in c.scopes || name in scopes)
    && name != exempt
    && !(name in c.scopes && c.scopes[name] != "" && name in scopes && scopes[name] == c.scopes[name])
  }

  /** What is left, provider by provider: everything of those that are not foreign, each
      entry in place, and nothing of the others. */
  lemma {:induction false} FilterKeepsExactly(names: Names, c: Cache, scopes: map<string, string>, exempt: string, name: string)
    ensures var f := Filtered(names, c, scopes, exempt);
            if !Foreign(names, c, scopes, exempt, name)
            then Of(f.models, name) == Of(c.models, name) && Times(f.authoritative, name) == Times(c.authoritative, name)
                 && (name in f.scopes <==> name in c.scopes) && Lookup(f.scopes, name) == Lookup(c.scopes, name)
            else Of(f.models, name) == [] && name !in f.authoritative && name !in f.scopes
    ensures Kept(names, c, scopes, exempt, name) <==> !Foreign(names, c, scopes, exempt, name)
  {
    var gone := Gone(names, c, scopes, exempt);
    OfWithout(c.models, gone, name);
    TimesWithout(c.authoritative, gone, name);
    TimesIn(Filtered(names, c, scopes, exempt).authoritative, name);
  }

  /** One provider's models, in order. */
  function Of(models: seq<Model>, name: string): seq<Model> {
    if models == [] then []
    else if models[0].provider == name then [models[0]] + Of(models[1..], name)
    else Of(models[1..], name)
  }

  function Times(list: seq<string>, name: string): nat {
    if list == [] then 0 else (if list[0] == name then 1 else 0) + Times(list[1..], name)
  }

  lemma OfWithout(models: seq<Model>, gone: set<string>, name: string)
    ensures Of(Without(models, gone), name) == if name in gone then [] else Of(models, name)
  {
    if models != [] {
      OfWithout(models[1..], gone, name);
      var rest := Without(models[1..], gone);
      if models[0].provider !in gone {
        assert ([models[0]] + rest)[1..] == rest;
      }
    }
  }

  lemma TimesWithout(list: seq<string>, gone: set<string>, name: string)
    ensures Times(NamesWithout(list, gone), name) == if name in gone then 0 else Times(list, name)
  {
    if list != [] {
      TimesWithout(list[1..], gone, name);
      var rest := NamesWithout(list[1..], gone);
      if list[0] !in gone {
        assert ([list[0]] + rest)[1..] == rest;
      }
    }
  }

  lemma TimesIn(list: seq<string>, name: string)
    ensures Times(list, name) == 0 <==> name !in list
  {
  }

  lemma KeptStays(names: Names, c: Cache, scopes: map<string, string>, exempt: string, name: string)
    ensures Kept(names, c, scopes, exempt, name) ==> Kept(names, Filtered(names, c, scopes, exempt), scopes, exempt, name)
    ensures name in Scoped(names, Filtered(names, c, scopes, exempt), scopes) ==> name in Scoped(names, c, scopes)
  {
  }

  /** Filtering again under the same credentials changes nothing, although fewer
      providers are scoped by then. */
  lemma FilterIsIdempotent(names: Names, c: Cache, scopes: map<string, string>, exempt: string)
    ensures var f := Filtered(names, c, scopes, exempt); Filtered(names, f, scopes, exempt) == f
  {
    var f := Filtered(names, c, scopes, exempt);
    var gone, again := Gone(names, c, scopes, exempt), Gone(names, f, scopes, exempt);
    forall name | name in again ensures name in gone {
      KeptStays(names, c, scopes, exempt, name);
    }
    RemovedTwice(c, gone, again);
    assert gone + again == gone;
  }

  lemma WithoutNext(out: seq<Model>, models: seq<Model>, i: nat, name: string)
    requires i < |models|
    ensures out + Without(models[i..], {name})
         == (if models[i].provider != name then out + [models[i]] else out) + Without(models[i + 1..], {name})
  {
    assert models[i..][1..] == models[i + 1..];
  }

  lemma NamesWithoutNext(out: seq<string>, list: seq<string>, i: nat, name: string)
    requires i < |list|
    ensures out + NamesWithout(list[i..], {name})
         == (if list[i] != name then out + [list[i]] else out) + NamesWithout(list[i + 1..], {name})
  {
    assert list[i..][1..] == list[i + 1..];
  }

  method FilterModelsByProvider(models: seq<Model>, name: string) returns (out: seq<Model>)
    ensures out == Without(models, {name})
  {
    out := [];
    for i := 0 to |models|
      invariant out + Without(models[i..], {name}) == Without(models, {name})
    {
      WithoutNext(out, models, i, name);
      if models[i].provider != name {
        out := out + [models[i]];
      }
    }
  }

  method FilterProviderNames(list: seq<string>, name: string) returns (out: seq<string>)
    ensures out == NamesWithout(list, {name})
  {
    out := [];
    for i := 0 to |list|
      invariant out + NamesWithout(list[i..], {name}) == NamesWithout(list, {name})
    {
      NamesWithoutNext(out, list, i, name);
      if list[i] != name {
        out := out + [list[i]];
      }
    }
  }

  /** The loop over the scoped providers, in whatever order they come. */
  method FilterCacheByProviderScopesExcept(names: Names, c: Cache, scopes: map<string, string>, exempt: string) returns (out: Cache)
    ensures out == Filtered(names, c, scopes, exempt)
  {
    out := c;
    var todo := Scoped(names, c, scopes);
    ghost var gone: set<string> := {};
    RemovedNone(c);
    while todo != {}
      invariant todo <= Scoped(names, c, scopes)
      invariant out == Removed(c, gone)
      invariant gone == set name | name in Scoped(names, c, scopes) && name !in todo && !Kept(names, c, scopes, exempt, name)
      decreases todo
    {
      var name :| name in todo;
      todo := todo - {name};
      if name != exempt && !Matches(c, scopes, name) {
        var models := FilterModelsByProvider(out.models, name);
        var authoritative := FilterProviderNames(out.authoritative, name);
        RemovedTwice(c, gone, {name});
        out := out.(models := models, authoritative := authoritative, scopes := out.scopes - {name});
        gone := gone + {name};
      }
    }
    assert gone == Gone(names, c, scopes, exempt);
  }

  // ------------------------------------------------------------------ publishing

  /** What a refresh found. */
  datatype Discovery = Discovery(models: map<string, seq<Model>>, authoritative: set<string>, scopes: map<string, string>)

  /** Discovered models carry the provider they were discovered for. */
  ghost predicate Labelled(d: Discovery) {
    forall name, m :: name in d.models && m in d.models[name] ==> m.provider == name
  }

  /** Each provider's entries come whole, from the discovery or from the base. */
  ghost predicate MergedFor(base: Cache, d: Discovery, all: Cache, name: string) {
    if name in d.models
    then Of(all.models, name) == d.models[name]
         && Times(all.authoritative, name) == (if name in d.authoritative then 1 else 0)
         && Lookup(all.scopes, name) == Lookup(d.scopes, name)
         && (name in all.scopes ==> all.scopes[name] != "")
    else Of(all.models, name) == Of(base.models, name)
         && Times(all.authoritative, name) == Times(base.authoritative, name)
         && (name in all.scopes <==> name in base.scopes) && Lookup(all.scopes, name) == Lookup(base.scopes, name)
  }

  ghost predicate Merged(base: Cache, d: Discovery, all: Cache) {
    && all.version == base.version && all.fetchedAt == base.fetchedAt
    && forall name :: MergedFor(base, d, all, name)
  }

  lemma OfConcat(a: seq<Model>, b: seq<Model>, name: string)
    ensures Of(a + b, name) == Of(a, name) + Of(b, name)
  {
    if a == [] {
      assert a + b == b;
    } else {
      assert (a + b)[1..] == a[1..] + b;
    }
  }

  lemma TimesConcat(a: seq<string>, b: seq<string>, name: string)
    ensures Times(a + b, name) == Times(a, name) + Times(b, name)
  {
    if a == [] {
      assert a + b == b;
    } else {
      assert (a + b)[1..] == a[1..] + b;
    }
  }

  lemma OfLabelled(models: seq<Model>, provider: string, name: string)
    requires forall m :: m in models ==> m.provider == provider
    ensures Of(models, name) == if name == provider then models else []
  {
    if models != [] {
      assert models[0] in models;
      assert forall m :: m in models[1..] ==> m in models;
      OfLabelled(models[1..], provider, name);
    }
  }

  /** The part of a discovery already merged. */
  function Part(d: Discovery, done: set<string>): Discovery {
    Discovery(map name | name in d.models && name in done :: d.models[name], d.authoritative, d.scopes)
  }

  /** One provider taken from the discovery. */
  function TakeOver(all: Cache, d: Discovery, name: string): Cache
    requires name in d.models
  {
    Cache(all.version, all.fetchedAt,
          Without(all.models, {name}) + d.models[name],
          NamesWithout(all.authoritative, {name}) + (if name in d.authoritative then [name] else []),
          if Lookup(d.scopes, name) != "" then (all.scopes - {name})[name := d.scopes[name]] else all.scopes - {name})
  }

  lemma TakeOverOne(base: Cache, d: Discovery, done: set<string>, all: Cache, name: string, other: string)
    requires Labelled(d) && name in d.models && name !in done && MergedFor(base, Part(d, done), all, other)
    ensures MergedFor(base, Part(d, done + {name}), TakeOver(all, d, name), other)
  {
    OfWithout(all.models, {name}, other);
    OfConcat(Without(all.models, {name}), d.models[name], other);
    OfLabelled(d.models[name], name, other);
    TimesWithout(all.authoritative, {name}, other);
    TimesConcat(NamesWithout(all.authoritative, {name}), if name in d.authoritative then [name] else [], other);
  }

  /** The names, each once, in some order. */
  ghost predicate Lists(order: seq<string>, names: set<string>) {
    && (forall i, j :: 0 <= i < j < |order| ==> order[i] != order[j])
    && (forall name :: name in order <==> name in names)
  }

  /** The providers of the discovery taken one after the other. */
  function Taken(base: Cache, d: Discovery, order: seq<string>): Cache
    requires forall name :: name in order ==> name in d.models
  {
    if order == [] then base
    else
      assert forall name :: name in Init(order) ==> name in order;
      TakeOver(Taken(base, d, Init(order)), d, Last(order))
  }

  /** The models listed from the point on at which a provider's own were taken. */
  function Arriving(d: Discovery, order: seq<string>, name: string): seq<Model>
    requires forall other :: other in order ==> other in d.models
  {
    if order == [] then []
    else
      assert forall other :: other in Init(order) ==> other in order;
      assert Last(order) in order;
      if Last(order) == name then d.models[name] else Arriving(d, Init(order), name) + d.models[Last(order)]
  }

  /** What a provider ends up with, for any discovery and any order: its own mark and
      scope, and the models of its name listed by itself or by providers taken later. */
  lemma {:induction false} TakenIs(base: Cache, d: Discovery, order: seq<string>, name: string)
    requires forall other :: other in order ==> other in d.models
    ensures var all := Taken(base, d, order);
            && Of(all.models, name) == (if name in order then [] else Of(base.models, name)) + Of(Arriving(d, order, name), name)
            && Times(all.authoritative, name)
               == (if name !in order then Times(base.authoritative, name) else if name in d.authoritative then 1 else 0)
            && Lookup(all.scopes, name) == (if name in order then Lookup(d.scopes, name) else Lookup(base.scopes, name))
  {
    if order != [] {
      assert order == Init(order) + [Last(order)];
      var before, last := Taken(base, d, Init(order)), Last(order);
      TakenIs(base, d, Init(order), name);
      TakeOverModels(before, d, last, name);
      TakeOverMarks(before, d, last, name);
      ArrivingNext(d, order, name);
      if last != name {
        ConcatAssociates(if name in order then [] else Of(base.models, name), Of(Arriving(d, Init(order), name), name), Of(d.models[last], name));
      }
    }
  }

  lemma TakeOverModels(before: Cache, d: Discovery, last: string, name: string)
    requires last in d.models
    ensures Of(TakeOver(before, d, last).models, name)
         == (if last == name then [] else Of(before.models, name)) + Of(d.models[last], name)
  {
    OfWithout(before.models, {last}, name);
    OfConcat(Without(before.models, {last}), d.models[last], name);
  }

  lemma TakeOverMarks(before: Cache, d: Discovery, last: string, name: string)
    requires last in d.models
    ensures var all := TakeOver(before, d, last);
            && Times(all.authoritative, name)
               == (if last != name then Times(before.authoritative, name) else if name in d.authoritative then 1 else 0)
            && Lookup(all.scopes, name) == (if last == name then Lookup(d.scopes, name) else Lookup(before.scopes, name))
  {
    TimesWithout(before.authoritative, {last}, name);
    TimesConcat(NamesWithout(before.authoritative, {last}), if last in d.authoritative then [last] else [], name);
  }

  lemma ArrivingNext(d: Discovery, order: seq<string>, name: string)
    requires order != [] && forall other :: other in order ==> other in d.models
    ensures var last := Last(order);
            Of(Arriving(d, order, name), name)
            == (if last == name then [] else Of(Arriving(d, Init(order), name), name)) + Of(d.models[last], name)
  {
    OfConcat(Arriving(d, Init(order), name), d.models[Last(order)], name);
  }

  /** While discovered models carry the provider they were discovered for, the order in
      which the providers are taken does not matter. */
  lemma {:induction false} TakenMerges(base: Cache, d: Discovery, order: seq<string>, done: set<string>)
    requires Labelled(d) && Lists(order, done) && done <= d.models.Keys
    ensures var all := Taken(base, d, order);
            && all.version == base.version && all.fetchedAt == base.fetchedAt
            && forall name :: MergedFor(base, Part(d, done), all, name)
  {
    if order != [] {
      var name, before := Last(order), done - {Last(order)};
      assert order == Init(order) + [name];
      assert Lists(Init(order), before);
      assert before + {name} == done;
      TakenMerges(base, d, Init(order), before);
      forall other ensures MergedFor(base, Part(d, done), Taken(base, d, order), other) {
        TakeOverOne(base, d, before, Taken(base, d, Init(order)), name, other);
      }
    }
  }

  lemma AllTakenMerges(base: Cache, d: Discovery, order: seq<string>)
    requires Labelled(d) && Lists(order, d.models.Keys)
    ensures Merged(base, d, Taken(base, d, order))
  {
    TakenMerges(base, d, order, d.models.Keys);
    assert Part(d, d.models.Keys) == d;
  }

  /** A model listed under another provider's discovery survives only if that provider
      is taken first. */
  lemma MislabelledDependsOnOrder(m: Model, name: string)
    requires m.provider != name
    ensures var d := Discovery(map[name := [m], m.provider := []], {}, map[]);
            Taken(EMPTY, d, [name, m.provider]).models == [] && Taken(EMPTY, d, [m.provider, name]).models == [m]
  {
    var d := Discovery(map[name := [m], m.provider := []], {}, map[]);
    TakenTwo(EMPTY, d, name, m.provider);
    TakenTwo(EMPTY, d, m.provider, name);
    var here, there := TakeOver(EMPTY, d, name), TakeOver(EMPTY, d, m.provider);
    assert Without([], {name}) == Without([], {m.provider}) == [];
    assert here.models == [] + [m] == [m] && there.models == [] + [] == [];
    assert [m][1..] == [];
    assert Without([m], {m.provider}) == [];
    assert TakeOver(here, d, m.provider).models == [] + [] == [];
    assert TakeOver(there, d, name).models == [] + [m] == [m];
  }

  lemma TakenTwo(base: Cache, d: Discovery, first: string, second: string)
    requires first in d.models && second in d.models
    ensures Taken(base, d, [first, second]) == TakeOver(TakeOver(base, d, first), d, second)
  {
    assert Init([first, second]) == [first] && Init([first]) == [];
    assert Taken(base, d, [first]) == TakeOver(Taken(base, d, []), d, first);
  }

  /** The loop over the discovered providers, in whatever order they come. */
  method MergeDiscovered(base: Cache, d: Discovery) returns (all: Cache, ghost order: seq<string>)
    ensures Lists(order, d.models.Keys) && all == Taken(base, d, order)
    ensures Labelled(d) ==> Merged(base, d, all)
  {
    all, order := base, [];
    var todo := d.models.Keys;
    while todo != {}
      invariant todo <= d.models.Keys && Lists(order, d.models.Keys - todo)
      invariant all == Taken(base, d, order)
      decreases todo
    {
      var name :| name in todo;
      todo := todo - {name};
      var models := FilterModelsByProvider(all.models, name);
      var authoritative := FilterProviderNames(all.authoritative, name);
      var scopes := all.scopes - {name};
      models := models + d.models[name];
      if name in d.authoritative {
        authoritative := authoritative + [name];
      }
      if Lookup(d.scopes, name) != "" {
        scopes := scopes[name := d.scopes[name]];
      }
      ghost var before := all;
      all := Cache(all.version, all.fetchedAt, models, authoritative, scopes);
      assert all == TakeOver(before, d, name);
      assert Init(order + [name]) == order;
      order := order + [name];
    }
    if Labelled(d) {
      AllTakenMerges(base, d, order);
    }
  }

  /** The state of one refresh when its discoveries are in. */
  datatype Refresh = Refresh(
    onlyProvider: string,
    eligible: set<string>,
    found: Discovery,
    cached: Option<Cache>,
    latest: Option<Cache>,
    scopes: map<string, string>,
    now: nat,
    cancelled: bool)

  const EMPTY := Cache(0, 0, [], [], map[])

  /** Another runtime wrote the cache meanwhile and has OpenCode Go data of its own. */
  predicate KeepsGo(names: Names, r: Refresh) {
    r.cached != r.latest && r.latest.Some? && names.go in r.latest.value.scopes
  }

  function Without1(d: Discovery, name: string): Discovery {
    Discovery(d.models - {name}, d.authoritative - {name}, d.scopes - {name})
  }

  /** The discoveries this refresh may publish. */
  function Usable(names: Names, r: Refresh): Discovery {
    if KeepsGo(names, r) then Without1(r.found, names.go) else r.found
  }

  /** A cache in an older format counts as empty. */
  function Latest(names: Names, r: Refresh): Cache {
    if r.latest.Some? && r.latest.value.version == names.version then r.latest.value else EMPTY
  }

  function Base(names: Names, r: Refresh): Cache {
    Filtered(names, Latest(names, r), r.scopes, if KeepsGo(names, r) then names.go else "")
  }

  predicate Incomplete(r: Refresh) {
    !(r.eligible <= r.found.models.Keys)
  }

  predicate Complete(r: Refresh) {
    r.onlyProvider == "" && !Incomplete(r)
  }

  function Freshness(names: Names, r: Refresh): nat {
    if Complete(r) then r.now else Latest(names, r).fetchedAt
  }

  lemma {:induction false} AnOrder(names: set<string>) returns (order: seq<string>)
    ensures Lists(order, names)
    decreases names
  {
    if names == {} {
      order := [];
    } else {
      var name :| name in names;
      order := AnOrder(names - {name});
      order := order + [name];
    }
  }

  /** What the merge gives, stamped with the format and the freshness. */
  function Stamped(names: Names, r: Refresh, all: Cache): Cache {
    all.(version := names.version, fetchedAt := Freshness(names, r))
  }

  /** A published cache, whatever order the maps came in. */
  ghost predicate Published(names: Names, r: Refresh, out: Cache) {
    exists order :: PublishedBy(names, r, order, out)
  }

  /** The providers found were merged in this order. */
  ghost predicate PublishedBy(names: Names, r: Refresh, order: seq<string>, out: Cache) {
    && Lists(order, Usable(names, r).models.Keys)
    && out == Stamped(names, r, Taken(Base(names, r), Usable(names, r), order))
  }

  /** The published cache, unless the refresh found nothing, was cancelled, or has
      nothing to publish. */
  method Publish(names: Names, r: Refresh) returns (out: Option<Cache>, ghost order: seq<string>)
    ensures Lists(order, Usable(names, r).models.Keys)
    ensures var all := Taken(Base(names, r), Usable(names, r), order);
            out == if r.found.models == map[] || r.cancelled || Usable(names, r).models == map[]
                      || (all.models == [] && all.authoritative == [])
                   then None else Some(Stamped(names, r, all))
    ensures out.Some? ==> Published(names, r, out.value)
  {
    order := AnOrder(Usable(names, r).models.Keys);
    if r.found.models == map[] || r.cancelled {
      return None, order;
    }
    var latest := if r.latest.Some? then r.latest.value else EMPTY;
    if latest.version != names.version {
      latest := EMPTY;
    }
    var preserve := r.onlyProvider == "" && Incomplete(r);
    var keepGo := KeepsGo(names, r);
    var found := r.found;
    if keepGo {
      found := Without1(found, names.go);
    }
    if found.models == map[] {
      return None, order;
    }
    var base := FilterCacheByProviderScopesExcept(names, latest, r.scopes, if keepGo then names.go else "");
    var all;
    all, order := MergeDiscovered(base, found);
    if |all.models| == 0 && |all.authoritative| == 0 {
      return None, order;
    }
    var fetchedAt := r.now;
    if r.onlyProvider != "" {
      fetchedAt := if latest.version == names.version then latest.fetchedAt else 0;
    } else if preserve {
      fetchedAt := latest.fetchedAt;
    }
    out := Some(all.(version := names.version, fetchedAt := fetchedAt));
    assert PublishedBy(names, r, order, out.value);
  }

  /** Another runtime's OpenCode Go data is in the file and was not when this refresh
      began. */
  predicate Overtaken(names: Names, r: Refresh) {
    r.latest.Some? && r.latest != r.cached && names.go in r.latest.value.scopes
  }

  /** The cache file as far as its format is current. */
  function OldCache(names: Names, r: Refresh): Cache {
    match r.latest
    case Some(c) => if c.version == names.version then c else Cache(0, 0, [], [], map[])
    case None => Cache(0, 0, [], [], map[])
  }

  /** This refresh has something to say about the provider. */
  predicate Found(names: Names, r: Refresh, name: string) {
    name in r.found.models && (name == names.go ==> !Overtaken(names, r))
  }

  /** Every provider's mark and scope are the discovery's or the old cache's, the latter
      only under a matching credential, no credential at all, or the exemption; and so
      are its models, if discovered models carry the provider they were discovered for.
      `TakenIs` says which models it has otherwise. */
  lemma PublishedIsWhole(names: Names, r: Refresh, out: Cache, name: string)
    requires Published(names, r, out)
    ensures var exempt := if Overtaken(names, r) then names.go else "";
            if Found(names, r, name)
            then Times(out.authoritative, name) == (if name in r.found.authoritative then 1 else 0)
                 && Lookup(out.scopes, name) == Lookup(r.found.scopes, name)
                 && (Labelled(r.found) ==> Of(out.models, name) == r.found.models[name])
            else if !Foreign(names, OldCache(names, r), r.scopes, exempt, name)
            then Times(out.authoritative, name) == Times(OldCache(names, r).authoritative, name)
                 && Lookup(out.scopes, name) == Lookup(OldCache(names, r).scopes, name)
                 && (Labelled(r.found) ==> Of(out.models, name) == Of(OldCache(names, r).models, name))
            else name !in out.authoritative && Lookup(out.scopes, name) == ""
                 && (Labelled(r.found) ==> Of(out.models, name) == [])
  {
    var base, d := Base(names, r), Usable(names, r);
    assert Overtaken(names, r) == KeepsGo(names, r) && OldCache(names, r) == Latest(names, r);
    assert Found(names, r, name) <==> name in d.models;
    var order :| PublishedBy(names, r, order, out);
    TakenIs(base, d, order, name);
    FilterKeepsExactly(names, Latest(names, r), r.scopes, if KeepsGo(names, r) then names.go else "", name);
    TimesIn(out.authoritative, name);
    TimesIn(base.authoritative, name);
    if Labelled(r.found) {
      AllTakenMerges(base, d, order);
      assert MergedFor(base, d, Taken(base, d, order), name);
    }
  }

  /** A concurrently written OpenCode Go scope survives exactly when it was written in
      the current format; in an older one it is lost. */
  lemma ConcurrentGoSurvivesIff(names: Names, r: Refresh, out: Cache)
    requires Published(names, r, out) && Overtaken(names, r) && r.latest.value.scopes[names.go] != ""
    ensures Lookup(out.scopes, names.go) == r.latest.value.scopes[names.go] <==> r.latest.value.version == names.version
    ensures r.latest.value.version == names.version && Labelled(r.found) ==>
              Of(out.models, names.go) == Of(r.latest.value.models, names.go)
  {
    PublishedIsWhole(names, r, out, names.go);
  }

  /** A scope lost: the other runtime wrote an older format, and this refresh found one
      model of another provider. */
  lemma OldFormatLosesGo(names: Names, other: string, m: Model) returns (r: Refresh, out: Cache)
    requires other != names.go && m.provider == other
    ensures Published(names, r, out) && Overtaken(names, r) && r.latest.value.scopes[names.go] == "account"
    ensures Lookup(out.scopes, names.go) == ""
  {
    var d := Discovery(map[other := [m]], {}, map[]);
    r := Refresh("", {other}, d, None, Some(Cache(names.version - 1, 0, [], [], map[names.go := "account"])), map[], 0, false);
    assert Without1(d, names.go).models == d.models;
    assert Usable(names, r) == Discovery(d.models, {}, map[]);
    var all := Taken(Base(names, r), Usable(names, r), [other]);
    out := Stamped(names, r, all);
    assert PublishedBy(names, r, [other], out);
    PublishedIsWhole(names, r, out, names.go);
  }

  /** The catalog looks newer than the last one only after a full refresh in which every
      eligible provider answered. */
  lemma FreshnessAdvancesOnlyWhenComplete(names: Names, r: Refresh, out: Cache)
    requires Published(names, r, out) && Latest(names, r).fetchedAt < r.now
    ensures out.fetchedAt == r.now <==> r.onlyProvider == "" && r.eligible <= r.found.models.Keys
    ensures out.fetchedAt != r.now ==> out.fetchedAt == Latest(names, r).fetchedAt
  {
    var order :| PublishedBy(names, r, order, out);
  }

  /** One refresh and what it published. */
  datatype Round = Round(refresh: Refresh, out: Cache)

  /** The cache in place after the first k rounds. */
  function After(first: Cache, rounds: seq<Round>, k: nat): Cache
    requires k <= |rounds|
  {
    if k == 0 then first else rounds[k - 1].out
  }

  /** Each refresh merges into what the one before published. */
  ghost predicate Chained(names: Names, first: Cache, rounds: seq<Round>) {
    forall k :: 0 <= k < |rounds| ==> MergesAt(names, first, rounds, k)
  }

  ghost predicate MergesAt(names: Names, first: Cache, rounds: seq<Round>, k: nat)
    requires k < |rounds|
  {
    Follows(names, After(first, rounds, k), rounds[k])
  }

  ghost predicate Follows(names: Names, before: Cache, round: Round) {
    round.refresh.latest == Some(before) && Published(names, round.refresh, round.out)
  }

  lemma OneRound(names: Names, before: Cache, round: Round)
    requires before.version == names.version && Follows(names, before, round)
    ensures round.out.version == names.version
    ensures round.out.fetchedAt == if Complete(round.refresh) then round.refresh.now else before.fetchedAt
  {
    var r := round.refresh;
    var order :| PublishedBy(names, r, order, round.out);
  }

  /** Every published cache has the current format. */
  lemma {:induction false} AlwaysCurrent(names: Names, first: Cache, rounds: seq<Round>, n: nat)
    requires first.version == names.version && Chained(names, first, rounds) && n <= |rounds|
    ensures After(first, rounds, n).version == names.version
    ensures n > 0 ==> After(first, rounds, n).fetchedAt
                      == if Complete(rounds[n - 1].refresh) then rounds[n - 1].refresh.now else After(first, rounds, n - 1).fetchedAt
  {
    if n > 0 {
      AlwaysCurrent(names, first, rounds, n - 1);
      assert MergesAt(names, first, rounds, n - 1);
      OneRound(names, After(first, rounds, n - 1), rounds[n - 1]);
    }
  }

  /** Over any number of refreshes, partial and failed ones among them: the freshness is
      the time of the last full refresh in which every eligible provider answered. */
  lemma {:induction false} FreshnessIsLastComplete(names: Names, first: Cache, rounds: seq<Round>, k: nat, n: nat)
    requires first.version == names.version && Chained(names, first, rounds) && k <= n <= |rounds|
    requires k > 0 ==> Complete(rounds[k - 1].refresh)
    requires forall j :: k <= j < n ==> !Complete(rounds[j].refresh)
    ensures After(first, rounds, n).fetchedAt == if k == 0 then first.fetchedAt else rounds[k - 1].refresh.now
  {
    AlwaysCurrent(names, first, rounds, n);
    if n > k {
      FreshnessIsLastComplete(names, first, rounds, k, n - 1);
    }
  }
}
