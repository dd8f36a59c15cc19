/** The loop guard (packages/core/repetition.go:21-191). `Guard.Observe` keeps a
    sliding window, a count per fingerprint and two flags up to date; `Decide` says
    the same thing from the list of observations alone. */
module Repetition {

  const WARN_THRESHOLD := 5
  const STOP_THRESHOLD := 8
  const WINDOW_SIZE := 64

  datatype Kind = ToolCallResult | AssistantMessage

  /** Fingerprints are opaque; `at` is the clock reading of the observation. */
  datatype Observation = Observation(fingerprint: string, kind: Kind, toolName: string, at: int)

  datatype Pattern = Pattern(count: int, firstSeen: int, warned: bool, kind: Kind, toolName: string)

  datatype Stage = NoStage | Warning | Stopped

  datatype Decision = Decision(stage: Stage, kind: Kind, toolName: string, count: int, elapsed: int)

  const NO_DECISION := Decision(NoStage, ToolCallResult, "", 0, 0)

  // ------------------------------------------------------- the stateless rule

  /** The last n observations. */
  function Recent(seen: seq<Observation>, n: nat): seq<Observation> {
    if |seen| <= n then seen else seen[|seen| - n..]
  }

  function Window(seen: seq<Observation>): seq<Observation> {
    Recent(seen, WINDOW_SIZE)
  }

  function Count(w: seq<Observation>, f: string): nat {
    if w == [] then 0 else Count(w[..|w| - 1], f) + if w[|w| - 1].fingerprint == f then 1 else 0
  }

  /** When the oldest occurrence of f in w was observed. */
  function FirstSeen(w: seq<Observation>, f: string): int {
    if w == [] then 0 else if w[0].fingerprint == f then w[0].at else FirstSeen(w[1..], f)
  }

  /** The last tool name given for f since f last vanished from the window. */
  function ToolNameOf(seen: seq<Observation>, f: string): string {
    if seen == [] then ""
    else
      var before, newest := seen[..|seen| - 1], seen[|seen| - 1];
      if newest.fingerprint == f && newest.toolName != "" then newest.toolName
      else if Count(Recent(before, WINDOW_SIZE - 1), f) == 0 then ""
      else ToolNameOf(before, f)
  }

  /** How often the newest fingerprint occurs in the window it closes. */
  function NewestCount(seen: seq<Observation>): nat
    requires seen != []
  {
    Count(Window(seen), seen[|seen| - 1].fingerprint)
  }

  function StageAt(n: nat): Stage {
    if n >= STOP_THRESHOLD then Stopped else if n == WARN_THRESHOLD then Warning else NoStage
  }

  /** What the guard answers to the newest of these observations. */
  function Decide(seen: seq<Observation>): Decision
    requires seen != []
  {
    var newest := seen[|seen| - 1];
    Decision(StageAt(NewestCount(seen)), newest.kind, ToolNameOf(seen, newest.fingerprint), NewestCount(seen),
             newest.at - FirstSeen(Window(seen), newest.fingerprint))
  }

  ghost predicate Stops(seen: seq<Observation>) {
    seen != [] && NewestCount(seen) >= STOP_THRESHOLD
  }

  /** No strict prefix reached the stop threshold. */
  ghost predicate RunningUpTo(seen: seq<Observation>) {
    forall i :: 0 <= i < |seen| ==> !Stops(seen[..i])
  }

  // ------------------------------------------------------ counting in windows

  lemma {:induction false} CountConcat(a: seq<Observation>, b: seq<Observation>, f: string)
    ensures Count(a + b, f) == Count(a, f) + Count(b, f)
  {
    if b == [] {
      assert a + b == a;
    } else {
      assert (a + b)[..|a + b| - 1] == a + b[..|b| - 1];
      CountConcat(a, b[..|b| - 1], f);
    }
  }

  lemma CountOne(o: Observation, f: string)
    ensures Count([o], f) == if o.fingerprint == f then 1 else 0
  {
    assert [o][..0] == [];
  }

  /** The window loses its oldest element when full and gains the newest. */
  lemma WindowStep(seen: seq<Observation>, o: Observation)
    ensures Window(seen + [o]) == Recent(seen, WINDOW_SIZE - 1) + [o]
    ensures |seen| >= WINDOW_SIZE ==> Window(seen) == [Window(seen)[0]] + Recent(seen, WINDOW_SIZE - 1)
    ensures |seen| < WINDOW_SIZE ==> Window(seen) == Recent(seen, WINDOW_SIZE - 1) == seen
  {
  }

  lemma CountStep(seen: seq<Observation>, o: Observation, f: string)
    ensures Count(Window(seen + [o]), f) == Count(Recent(seen, WINDOW_SIZE - 1), f) + if o.fingerprint == f then 1 else 0
    ensures Count(Window(seen), f) == Count(Recent(seen, WINDOW_SIZE - 1), f)
                                      + if |seen| >= WINDOW_SIZE && Window(seen)[0].fingerprint == f then 1 else 0
  {
    WindowStep(seen, o);
    CountConcat(Recent(seen, WINDOW_SIZE - 1), [o], f);
    CountOne(o, f);
    if |seen| >= WINDOW_SIZE {
      CountConcat([Window(seen)[0]], Recent(seen, WINDOW_SIZE - 1), f);
      CountOne(Window(seen)[0], f);
    }
  }

  lemma {:induction false} FirstSeenStep(w: seq<Observation>, o: Observation, f: string)
    ensures Count(w, f) > 0 ==> FirstSeen(w + [o], f) == FirstSeen(w, f)
    ensures Count(w, f) == 0 && o.fingerprint == f ==> FirstSeen(w + [o], f) == o.at
  {
    if w == [] {
      assert w + [o] == [o];
    } else {
      assert (w + [o])[1..] == w[1..] + [o];
      CountConcat([w[0]], w[1..], f);
      assert [w[0]] + w[1..] == w;
      CountOne(w[0], f);
      FirstSeenStep(w[1..], o, f);
    }
  }

  // ---------------------------------------------- what the stateless rule implies

  predicate IsPlace(seen: seq<Observation>, f: string, i: int) {
    0 <= i < |seen| && seen[i].fingerprint == f
  }

  /** The places of f, from one on. */
  function PlacesFrom(seen: seq<Observation>, from: nat, f: string): set<nat> {
    set i | from <= i < |seen| && IsPlace(seen, f, i)
  }

  /** The places of f among the last 64 observations. */
  function Places(seen: seq<Observation>, f: string): set<nat> {
    PlacesFrom(seen, if |seen| <= 64 then 0 else |seen| - 64, f)
  }

  lemma PlacesSnoc(before: seq<Observation>, o: Observation, from: nat, f: string)
    requires from <= |before|
    ensures PlacesFrom(before + [o], from, f) == PlacesFrom(before, from, f) + if o.fingerprint == f then {|before|} else {}
    ensures |PlacesFrom(before + [o], from, f)| == |PlacesFrom(before, from, f)| + if o.fingerprint == f then 1 else 0
  {
    forall i | from <= i < |before| ensures IsPlace(before + [o], f, i) == IsPlace(before, f, i) {
    }
    assert IsPlace(before + [o], f, |before|) == (o.fingerprint == f);
    assert |before| !in PlacesFrom(before, from, f);
  }

  lemma {:induction false} CountIsPlaces(seen: seq<Observation>, from: nat, f: string)
    requires from <= |seen|
    ensures Count(seen[from..], f) == |PlacesFrom(seen, from, f)|
  {
    if from == |seen| {
      assert PlacesFrom(seen, from, f) == {};
    } else {
      var before, o := seen[..|seen| - 1], seen[|seen| - 1];
      assert before + [o] == seen;
      CountIsPlaces(before, from, f);
      PlacesSnoc(before, o, from, f);
      assert seen[from..][..|seen| - from - 1] == before[from..];
    }
  }

  lemma {:induction false} FirstIsOldest(seen: seq<Observation>, from: nat, f: string, k: nat)
    requires from <= k < |seen| && seen[k].fingerprint == f
    requires forall i :: from <= i < k ==> seen[i].fingerprint != f
    ensures FirstSeen(seen[from..], f) == seen[k].at
    decreases k - from
  {
    assert seen[from..][1..] == seen[from + 1..];
    if from < k {
      FirstIsOldest(seen, from + 1, f, k);
    }
  }

  /** Place k is the first of them. */
  ghost predicate OldestPlace(seen: seq<Observation>, f: string, k: nat) {
    k in Places(seen, f) && forall i :: |seen| - 64 <= i < k ==> !IsPlace(seen, f, i)
  }

  /** What is decided of the newest observation: how often its fingerprint occurs among
      the last 64, how long ago the oldest of these was, a stop at eight or more, a
      warning at five. */
  lemma DecisionMeans(seen: seq<Observation>, k: nat)
    requires seen != [] && OldestPlace(seen, seen[|seen| - 1].fingerprint, k)
    ensures var newest, d := seen[|seen| - 1], Decide(seen);
            && d.kind == newest.kind
            && d.count == |Places(seen, newest.fingerprint)|
            && d.elapsed == newest.at - seen[k].at
            && d.stage == if d.count >= 8 then Stopped else if d.count == 5 then Warning else NoStage
  {
    var f := seen[|seen| - 1].fingerprint;
    var from: nat := if |seen| <= 64 then 0 else |seen| - 64;
    assert Window(seen) == seen[from..];
    CountIsPlaces(seen, from, f);
    forall i | from <= i < k ensures seen[i].fingerprint != f {
      assert !IsPlace(seen, f, i);
    }
    FirstIsOldest(seen, from, f, k);
  }

  /** Below the threshold so far: every fingerprint is still below it. */
  lemma {:induction false} CountsStayBelow(seen: seq<Observation>, f: string)
    requires forall i :: 0 <= i <= |seen| ==> !Stops(seen[..i])
    ensures Count(Window(seen), f) < 8
  {
    if seen != [] {
      var before, o := seen[..|seen| - 1], seen[|seen| - 1];
      assert before + [o] == seen && seen[..|seen|] == seen;
      forall i | 0 <= i <= |before| ensures !Stops(before[..i]) {
        assert before[..i] == seen[..i];
      }
      CountsStayBelow(before, f);
      CountStep(before, o, f);
      if o.fingerprint == f {
        assert !Stops(seen);
      }
    }
  }

  /** The guard first stops at exactly eight, never later. */
  lemma FirstStopIsExact(seen: seq<Observation>)
    requires RunningUpTo(seen) && Stops(seen)
    ensures NewestCount(seen) == 8 && Decide(seen).stage == Stopped
  {
    var before, o := seen[..|seen| - 1], seen[|seen| - 1];
    assert before + [o] == seen;
    forall i | 0 <= i <= |before| ensures !Stops(before[..i]) {
      assert before[..i] == seen[..i];
    }
    CountsStayBelow(before, o.fingerprint);
    CountStep(before, o, o.fingerprint);
  }

  /** After m observations f counted five or more. */
  ghost predicate Warned(seen: seq<Observation>, f: string, m: nat)
    requires m <= |seen|
  {
    Count(Window(seen[..m]), f) >= WARN_THRESHOLD
  }

  lemma StaysWarned(before: seq<Observation>, o: Observation, f: string, k: nat)
    requires forall m :: k < m <= |before| ==> Warned(before, f, m)
    requires Count(Window(before + [o]), f) >= WARN_THRESHOLD
    ensures forall m :: k < m <= |before| + 1 ==> Warned(before + [o], f, m)
  {
    var seen := before + [o];
    forall m | k < m <= |seen| ensures Warned(seen, f, m) {
      if m < |seen| {
        assert Warned(before, f, m) && before[..m] == seen[..m];
      } else {
        assert seen[..m] == seen;
      }
    }
  }

  /** A fingerprint that counts five or more was warned about since it last rose above
      four: some observation of it closed a window in which it occurred exactly five
      times, and in no window since then did it occur less. */
  lemma {:induction false} WarnedBefore(seen: seq<Observation>, f: string) returns (k: nat)
    requires Count(Window(seen), f) >= WARN_THRESHOLD
    ensures k < |seen| && seen[k].fingerprint == f && NewestCount(seen[..k + 1]) == WARN_THRESHOLD
    ensures forall m :: k < m <= |seen| ==> Warned(seen, f, m)
  {
    assert seen != [];
    var before, o := seen[..|seen| - 1], seen[|seen| - 1];
    assert before + [o] == seen && seen[..|seen|] == seen;
    CountStep(before, o, f);
    if o.fingerprint == f && Count(Window(seen), f) == WARN_THRESHOLD {
      k := |seen| - 1;
    } else {
      k := WarnedBefore(before, f);
      assert before[..k + 1] == seen[..k + 1];
      StaysWarned(before, o, f, k);
    }
  }

  /** So no run is stopped without a warning about the same content first. */
  lemma StopFollowsWarning(seen: seq<Observation>) returns (k: nat)
    requires Stops(seen)
    ensures k < |seen| - 1 && seen[k].fingerprint == seen[|seen| - 1].fingerprint
    ensures Decide(seen[..k + 1]).stage == Warning
  {
    k := WarnedBefore(seen, seen[|seen| - 1].fingerprint);
    assert seen[..|seen|] == seen;
  }

  /** Observation k is the newest of f that names a tool. */
  ghost predicate NewestNamed(seen: seq<Observation>, f: string, k: int) {
    && 0 <= k < |seen| && Names(seen[k], f)
    && forall m :: k < m < |seen| ==> !Names(seen[m], f)
  }

  predicate Names(o: Observation, f: string) {
    o.fingerprint == f && o.toolName != ""
  }

  /** When observation m came, f was in the window that was left. */
  ghost predicate InWindowAt(seen: seq<Observation>, f: string, m: int)
    requires 0 <= m <= |seen|
  {
    Count(Recent(seen[..m], WINDOW_SIZE - 1), f) > 0
  }

  /** Since observation k, f never left the window. */
  ghost predicate RememberedSince(seen: seq<Observation>, f: string, k: int) {
    0 <= k < |seen| && forall m :: k < m < |seen| ==> InWindowAt(seen, f, m)
  }

  lemma NewestNamedSnoc(before: seq<Observation>, o: Observation, f: string, k: int)
    ensures NewestNamed(before + [o], f, k) <==> if Names(o, f) then k == |before| else NewestNamed(before, f, k)
  {
    var seen, n := before + [o], |before|;
    assert seen[n] == o && forall m :: 0 <= m < n ==> seen[m] == before[m];
    if NewestNamed(seen, f, k) && !Names(o, f) {
      assert k < n;
      forall m | k < m < n ensures !Names(before[m], f) {
        assert !Names(seen[m], f);
      }
    }
  }

  lemma RememberedSnoc(before: seq<Observation>, o: Observation, f: string, k: int)
    requires 0 <= k < |before|
    ensures RememberedSince(before + [o], f, k) <==> RememberedSince(before, f, k) && InWindowAt(before, f, |before|)
  {
    var seen := before + [o];
    forall m | 0 <= m <= |before| ensures InWindowAt(seen, f, m) == InWindowAt(before, f, m) {
      assert seen[..m] == before[..m];
    }
    if RememberedSince(seen, f, k) {
      forall m | k < m < |before| ensures InWindowAt(before, f, m) {
        assert InWindowAt(seen, f, m);
      }
      assert InWindowAt(seen, f, |before|);
    }
    if RememberedSince(before, f, k) && InWindowAt(before, f, |before|) {
      forall m | k < m < |seen| ensures InWindowAt(seen, f, m) {
        assert m < |before| ==> InWindowAt(before, f, m);
      }
    }
  }

  /** The tool reported for f is the one the newest observation of f with a name gave,
      if f has not left the window since; else it is none. */
  lemma {:induction false} ToolNameIsNewest(seen: seq<Observation>, f: string, k: int)
    requires NewestNamed(seen, f, k)
    ensures ToolNameOf(seen, f) == if RememberedSince(seen, f, k) then seen[k].toolName else ""
  {
    var before, o := seen[..|seen| - 1], seen[|seen| - 1];
    assert before + [o] == seen && before[..|before|] == before;
    NewestNamedSnoc(before, o, f, k);
    if !Names(o, f) {
      ToolNameIsNewest(before, f, k);
      RememberedSnoc(before, o, f, k);
    }
  }

  /** And none if no observation of f names a tool. */
  lemma {:induction false} UnnamedIsNone(seen: seq<Observation>, f: string)
    requires forall m :: 0 <= m < |seen| ==> !Names(seen[m], f)
    ensures ToolNameOf(seen, f) == ""
  {
    if seen != [] {
      UnnamedIsNone(seen[..|seen| - 1], f);
    }
  }

  /** When every observation of f names the same tool, that is the tool reported. */
  lemma {:induction false} ToolNameIsTheTool(seen: seq<Observation>, f: string, name: string)
    requires forall o :: o in seen && o.fingerprint == f ==> o.toolName == name
    ensures Count(Window(seen), f) > 0 ==> ToolNameOf(seen, f) == name
  {
    if seen != [] {
      var before, o := seen[..|seen| - 1], seen[|seen| - 1];
      assert before + [o] == seen && o in seen;
      ToolNameIsTheTool(before, f, name);
      CountStep(before, o, f);
    }
  }

  // ------------------------------------------------------------- the guard, as run

  class Guard {
    var patterns: map<string, Pattern>
    var history: seq<Observation>
    var stopped: bool
    var stoppedDecision: Decision
    var disabled: bool
    /** Every observation counted since the last reset. */
    ghost var seen: seq<Observation>

    ghost predicate Valid()
      reads this
    {
      && history == Window(seen)
      && RunningUpTo(seen)
      && (stopped <==> Stops(seen))
      && (stopped ==> stoppedDecision == Decide(seen))
      && (!stopped ==> AllAgree(patterns, seen))
    }

    constructor (disabled: bool)
      ensures Valid() && seen == [] && !stopped && this.disabled == disabled
    {
      this.disabled := disabled;
      patterns, history, stopped, stoppedDecision, seen := map[], [], false, NO_DECISION, [];
    }

    /** A new user request forgets everything (Agent.Prompt, ResetRepetitionGuard). */
    method Reset()
      modifies this
      ensures Valid() && seen == [] && !stopped && disabled == old(disabled)
    {
      patterns, history, stopped, stoppedDecision, seen := map[], [], false, NO_DECISION, [];
    }

    /** Drops the oldest observation of an overfull history from its pattern. */
    method Evict(ghost before: seq<Observation>, o: Observation)
      requires history == Window(before) + [o] && |history| > WINDOW_SIZE
      requires AllAgree(patterns, before)
      modifies this`patterns, this`history
      ensures history == Window(before + [o])
      ensures AllHalf(patterns, before, o)
    {
      var oldest := history[0];
      EvictionCounts(before, o, oldest.fingerprint);
      history := history[1..];
      var pattern := patterns[oldest.fingerprint];
      pattern := pattern.(count := pattern.count - 1);
      if pattern.count <= 0 {
        EvictedAgree(patterns, before, o, patterns - {oldest.fingerprint});
        patterns := patterns - {oldest.fingerprint};
      } else {
        if pattern.count < WARN_THRESHOLD {
          pattern := pattern.(warned := false);
        }
        var first := FirstRepetitionSeen(history, oldest.fingerprint);
        pattern := pattern.(firstSeen := first);
        EvictedAgree(patterns, before, o, patterns[oldest.fingerprint := pattern]);
        patterns := patterns[oldest.fingerprint := pattern];
      }
    }

    method Observe(fingerprint: string, kind: Kind, toolName: string, now: int) returns (decision: Decision)
      requires Valid()
      modifies this
      ensures Valid() && disabled == old(disabled)
      ensures fingerprint == "" || disabled ==> decision == NO_DECISION && seen == old(seen)
      ensures fingerprint != "" && !disabled && old(stopped) ==> decision == old(stoppedDecision) && seen == old(seen)
      ensures fingerprint != "" && !disabled && !old(stopped) ==>
                seen == old(seen) + [Observation(fingerprint, kind, toolName, now)] && decision == Decide(seen)
    {
      if fingerprint == "" || disabled {
        return NO_DECISION;
      }
      if stopped {
        return stoppedDecision.(stage := Stopped);
      }
      ghost var before := seen;
      Remember(Observation(fingerprint, kind, toolName, now));
      decision := CountNewest(before, Observation(fingerprint, kind, toolName, now));
    }

    /** Counts the newest observation into its pattern and judges it. */
    method CountNewest(ghost before: seq<Observation>, o: Observation) returns (decision: Decision)
      requires seen == before + [o] && history == Window(seen) && AllHalf(patterns, before, o)
      requires !stopped && !Stops(before) && RunningUpTo(before)
      modifies this`patterns, this`stopped, this`stoppedDecision
      ensures Valid() && decision == Decide(seen)
    {
      var pattern := if o.fingerprint in patterns then patterns[o.fingerprint] else Pattern(0, 0, false, o.kind, "");
      if pattern.count == 0 {
        pattern := pattern.(firstSeen := o.at);
      }
      pattern := pattern.(count := pattern.count + 1, kind := o.kind);
      if o.toolName != "" {
        pattern := pattern.(toolName := o.toolName);
      }
      assert pattern == Bump(patterns, o);
      StillRunning(before, o);
      Judged(before, o, patterns);
      decision := Decision(NoStage, pattern.kind, pattern.toolName, pattern.count, o.at - pattern.firstSeen);
      if pattern.count >= STOP_THRESHOLD && pattern.warned {
        stopped := true;
        decision := decision.(stage := Stopped);
        stoppedDecision := decision;
      } else if pattern.count >= WARN_THRESHOLD && !pattern.warned {
        pattern := pattern.(warned := true);
        decision := decision.(stage := Warning);
      }
      patterns := patterns[o.fingerprint := pattern];
    }

    /** Appends to the history and evicts what no longer fits. */
    method Remember(o: Observation)
      requires Valid() && !stopped
      modifies this`patterns, this`history, this`seen
      ensures seen == old(seen) + [o] && history == Window(seen)
      ensures AllHalf(patterns, old(seen), o)
    {
      history := history + [o];
      if |history| > WINDOW_SIZE {
        Evict(seen, o);
      } else {
        WindowStep(seen, o);
        forall f ensures Count(seen, f) > 0 ==> FirstSeen(seen + [o], f) == FirstSeen(seen, f) {
          FirstSeenStep(seen, o, f);
        }
      }
      seen := seen + [o];
    }
  }

  /** The stored pattern of f, seen from the observations. */
  ghost predicate PatternAgrees(p: Pattern, seen: seq<Observation>, f: string) {
    && p.count == Count(Window(seen), f)
    && p.firstSeen == FirstSeen(Window(seen), f)
    && (p.warned <==> p.count >= WARN_THRESHOLD)
    && p.toolName == ToolNameOf(seen, f)
  }

  /** The same between eviction and counting the newest observation o. */
  ghost predicate HalfStep(p: Pattern, before: seq<Observation>, o: Observation, f: string) {
    && p.count == Count(Recent(before, WINDOW_SIZE - 1), f)
    && p.firstSeen == FirstSeen(Window(before + [o]), f)
    && (p.warned <==> p.count >= WARN_THRESHOLD)
    && p.toolName == ToolNameOf(before, f)
  }

  ghost predicate AllAgree(patterns: map<string, Pattern>, seen: seq<Observation>) {
    && (forall f :: f in patterns <==> Count(Window(seen), f) > 0)
    && (forall f :: f in patterns ==> PatternAgrees(patterns[f], seen, f))
  }

  ghost predicate AllHalf(patterns: map<string, Pattern>, before: seq<Observation>, o: Observation) {
    && (forall f :: f in patterns <==> Count(Recent(before, WINDOW_SIZE - 1), f) > 0)
    && (forall f :: f in patterns ==> HalfStep(patterns[f], before, o, f))
  }

  /** The half-updated pattern of the newest fingerprint, counted once more, is what `Decide` reads. */
  lemma Counted(before: seq<Observation>, o: Observation, half: map<string, Pattern>)
    requires AllHalf(half, before, o)
    ensures var seen, f := before + [o], o.fingerprint;
            && NewestCount(seen) == 1 + (if f in half then half[f].count else 0)
            && FirstSeen(Window(seen), f) == (if f in half then half[f].firstSeen else o.at)
            && ToolNameOf(seen, f) == if o.toolName != "" then o.toolName else if f in half then half[f].toolName else ""
  {
    assert (before + [o])[..|before + [o]| - 1] == before;
    CountStep(before, o, o.fingerprint);
    WindowStep(before, o);
    FirstSeenStep(Recent(before, WINDOW_SIZE - 1), o, o.fingerprint);
  }

  lemma EvictionCounts(before: seq<Observation>, o: Observation, f: string)
    requires |before| >= WINDOW_SIZE && f == Window(before)[0].fingerprint
    ensures (Window(before) + [o])[1..] == Recent(before, WINDOW_SIZE - 1) + [o] == Window(before + [o])
    ensures Count(Window(before), f) == Count(Recent(before, WINDOW_SIZE - 1), f) + 1
    ensures Count(Window(before + [o]), f) >= Count(Recent(before, WINDOW_SIZE - 1), f)
  {
    WindowStep(before, o);
    CountStep(before, o, f);
  }

  lemma OtherPatternKept(p: Pattern, before: seq<Observation>, o: Observation, f: string)
    requires |before| >= WINDOW_SIZE && f != Window(before)[0].fingerprint
    requires PatternAgrees(p, before, f) && Count(Window(before), f) > 0
    ensures HalfStep(p, before, o, f)
  {
    var kept := Recent(before, WINDOW_SIZE - 1);
    WindowStep(before, o);
    CountStep(before, o, f);
    FirstSeenStep(kept, o, f);
    assert Window(before)[1..] == kept;
  }

  lemma EvictedAgree(patterns: map<string, Pattern>, before: seq<Observation>, o: Observation, next: map<string, Pattern>)
    requires |before| >= WINDOW_SIZE && AllAgree(patterns, before)
    requires var f := Window(before)[0].fingerprint;
             && (forall g :: g != f ==> (g in next <==> g in patterns) && (g in next ==> next[g] == patterns[g]))
             && (f in next <==> Count(Recent(before, WINDOW_SIZE - 1), f) > 0)
             && (f in next ==> HalfStep(next[f], before, o, f))
    ensures AllHalf(next, before, o)
  {
    forall f ensures f in next <==> Count(Recent(before, WINDOW_SIZE - 1), f) > 0 {
      CountStep(before, o, f);
    }
    forall f | f in next ensures HalfStep(next[f], before, o, f) {
      if f != Window(before)[0].fingerprint {
        OtherPatternKept(next[f], before, o, f);
      }
    }
  }

  /** The newest observation counted into its pattern. */
  function Bump(half: map<string, Pattern>, o: Observation): Pattern {
    var p := if o.fingerprint in half then half[o.fingerprint] else Pattern(0, 0, false, o.kind, "");
    Pattern(p.count + 1, if p.count == 0 then o.at else p.firstSeen, p.warned, o.kind,
            if o.toolName != "" then o.toolName else p.toolName)
  }

  /** The bumped pattern answers exactly what `Decide` reads off the observations. */
  lemma Judged(before: seq<Observation>, o: Observation, half: map<string, Pattern>)
    requires AllHalf(half, before, o)
    ensures var seen, p := before + [o], Bump(half, o);
            && (p.count >= STOP_THRESHOLD && p.warned <==> Stops(seen))
            && (p.count >= WARN_THRESHOLD && !p.warned <==> NewestCount(seen) == WARN_THRESHOLD)
            && Decide(seen) == Decision(StageAt(p.count), p.kind, p.toolName, p.count, o.at - p.firstSeen)
            && AllAgree(half[o.fingerprint := p.(warned := p.count >= WARN_THRESHOLD)], seen)
  {
    Counted(before, o, half);
    AgreeAgain(before, o, half, Bump(half, o).(warned := Bump(half, o).count >= WARN_THRESHOLD));
  }

  lemma AgreeAgain(before: seq<Observation>, o: Observation, half: map<string, Pattern>, p: Pattern)
    requires AllHalf(half, before, o) && PatternAgrees(p, before + [o], o.fingerprint)
    ensures AllAgree(half[o.fingerprint := p], before + [o])
  {
    var seen := before + [o];
    assert seen[..|seen| - 1] == before;
    forall f
      ensures Count(Window(seen), f) == Count(Recent(before, WINDOW_SIZE - 1), f) + if o.fingerprint == f then 1 else 0
    {
      CountStep(before, o, f);
    }
  }

  lemma StillRunning(before: seq<Observation>, o: Observation)
    requires RunningUpTo(before) && !Stops(before)
    ensures RunningUpTo(before + [o])
  {
    forall i | 0 <= i < |before + [o]| ensures !Stops((before + [o])[..i]) {
      assert (before + [o])[..i] == before[..i];
      assert i == |before| ==> before[..i] == before;
    }
  }

  /** Scans forward for the oldest occurrence. */
  method FirstRepetitionSeen(history: seq<Observation>, fingerprint: string) returns (at: int)
    requires Count(history, fingerprint) > 0
    ensures at == FirstSeen(history, fingerprint)
  {
    for i := 0 to |history|
      invariant FirstSeen(history[i..], fingerprint) == FirstSeen(history, fingerprint)
      invariant Count(history[i..], fingerprint) > 0
    {
      ghost var rest := history[i..];
      assert rest[0] == history[i] && rest[1..] == history[i + 1..];
      if history[i].fingerprint == fingerprint {
        return history[i].at;
      }
      CountConcat([rest[0]], rest[1..], fingerprint);
      CountOne(rest[0], fingerprint);
      assert [rest[0]] + rest[1..] == rest;
    }
    assert false;
  }
}
