/** Late binding of extension hooks (packages/agent/session_assembly.go:1165-1302).

    Extension threads call the adapter before the session can take the calls; the
    calls are buffered, then replayed outside the lock while more keep arriving.
    Every lock-to-unlock section is one `Action`; `Step` says what it does, and
    the theorems quantify over every list of actions, that is every interleaving.
    Class `SessionBindings` runs the sections on its fields. */
module HookBuffer {
  import opened Transcript

  const MAX_BUFFERED := 64

  /** A forwarded call, numbered by the order the adapter received it, or the one
      warning that reports calls dropped before replay. */
  datatype Call =
    | Forward(id: nat, notify: bool)
    | Notice(count: nat)
  {
    predicate Notifies() {
      Notice? || notify
    }
  }

  datatype Event =
    | StartBuffered(call: Call)
    | FinishBuffered(call: Call)
    | StartDirect(call: Call)

  /** The fields, the call the replayer is running, and what happened so far:
      calls received before binding, those dropped, the drops the warning reports,
      the calls handed to the replayer, and every start and finish. */
  datatype State = State(
    bound: bool,
    replaying: bool,
    pending: seq<Call>,
    others: int,
    dropped: int,
    running: Option<Call>,
    accepted: seq<Call>,
    lost: set<nat>,
    reported: nat,
    replayed: seq<Call>,
    events: seq<Event>)

  const START := State(false, false, [], 0, 0, None, [], {}, 0, [], [])

  /** Arrive: any thread calls a hook. Bind: the controller sets the target.
      Returned: the call the replayer was running comes back. */
  datatype Action = Arrive(notify: bool) | Bind | Returned

  // ------------------------------------------------------------- the sections

  /** Position of the oldest call that is not a Notify, |s| if there is none. */
  function FirstOther(s: seq<Call>): (i: nat)
    ensures i <= |s|
    ensures i < |s| ==> !s[i].Notifies()
    ensures forall k :: 0 <= k < i ==> s[k].Notifies()
  {
    if s == [] || !s[0].Notifies() then 0 else 1 + FirstOther(s[1..])
  }

  function Without(s: seq<Call>, i: nat): seq<Call>
    requires i < |s|
  {
    s[..i] + s[i + 1..]
  }

  function MakeRoom(s: State): State {
    var i := FirstOther(s.pending);
    if i == |s.pending| || s.pending[i].Notice? then s
    else s.(pending := Without(s.pending, i), others := s.others - 1, dropped := s.dropped + 1,
            lost := s.lost + {s.pending[i].id})
  }

  function DoEnqueue(s: State, notify: bool): State {
    var call := Forward(|s.accepted|, notify);
    if s.bound then s.(events := s.events + [StartDirect(call)])
    else
      var r := if !notify && s.others >= MAX_BUFFERED then MakeRoom(s) else s;
      r.(pending := r.pending + [call], others := if notify then r.others else r.others + 1,
         accepted := r.accepted + [call])
  }

  /** Top of the replay loop: bind when nothing is left, else take the next call. */
  function ReplayTurn(s: State): State {
    if s.pending == [] then s.(bound := true, replaying := false, others := 0)
    else
      var next := s.pending[0];
      s.(pending := s.pending[1..], others := if next.Notifies() then s.others else s.others - 1,
         running := Some(next), replayed := s.replayed + [next], events := s.events + [StartBuffered(next)])
  }

  /** Replay begins; drops counted so far become one warning at the end of the buffer. */
  function Opened(s: State): State {
    if s.dropped > 0
    then s.(replaying := true, pending := s.pending + [Notice(s.dropped)], reported := s.dropped, dropped := 0)
    else s.(replaying := true)
  }

  function Finished(s: State): State
    requires s.running.Some?
  {
    s.(running := None, events := s.events + [FinishBuffered(s.running.value)])
  }

  function DoSetHooks(s: State): State {
    if s.bound || s.replaying then s else ReplayTurn(Opened(s))
  }

  function DoReturned(s: State): State {
    if s.running == None then s else ReplayTurn(Finished(s))
  }

  function Step(s: State, a: Action): State {
    match a
    case Arrive(notify) => DoEnqueue(s, notify)
    case Bind => DoSetHooks(s)
    case Returned => DoReturned(s)
  }

  function Run(acts: seq<Action>): State {
    if acts == [] then START else Step(Run(acts[..|acts| - 1]), acts[|acts| - 1])
  }

  // ------------------------------------------------------ what every section keeps

  /** The numbers of the buffered calls that may be dropped. */
  function OtherIds(s: seq<Call>): set<nat> {
    set c | c in s && !c.Notifies() :: c.id
  }

  /** Everything handed over or still waiting, in order. */
  function Kept(s: State): seq<Call> {
    s.replayed + s.pending
  }

  ghost predicate Numbered(s: seq<Call>) {
    forall i :: 0 <= i < |s| ==> s[i].Forward? && s[i].id == i
  }

  /** Calls stay in the order of their numbers, and there is one warning at most. */
  ghost predicate Increasing(k: seq<Call>) {
    forall i, j :: 0 <= i < j < |k| ==> Before(k[i], k[j])
  }

  predicate Before(c: Call, d: Call) {
    && (c.Forward? && d.Forward? ==> c.id < d.id)
    && !(c.Notice? && d.Notice?)
  }

  ghost predicate PhaseInv(s: State) {
    && (s.bound ==> !s.replaying && s.pending == [])
    && (s.replaying <==> s.running.Some?)
    && (!s.replaying && !s.bound ==> s.replayed == [] && s.reported == 0)
  }

  ghost predicate CountInv(s: State) {
    && s.others == |OtherIds(s.pending)| <= MAX_BUFFERED
    && s.dropped >= 0 && |s.lost| == s.dropped + s.reported
  }

  /** What is kept is the accepted calls minus the dropped ones, plus the warning. */
  ghost predicate OrderInv(s: State) {
    && Numbered(s.accepted)
    && (forall id :: id in s.lost ==> id < |s.accepted| && !s.accepted[id].Notifies())
    && Increasing(Kept(s))
    && (forall c :: c in Kept(s) ==> Accounted(s, c))
    && (forall id :: 0 <= id < |s.accepted| && id !in s.lost ==> s.accepted[id] in Kept(s))
    && (s.reported > 0 ==> Notice(s.reported) in Kept(s))
  }

  ghost predicate Accounted(s: State, c: Call) {
    match c
    case Forward(id, _) => id < |s.accepted| && id !in s.lost && c == s.accepted[id]
    case Notice(n) => n == s.reported > 0
  }

  ghost predicate EventInv(s: State) {
    && BufferedStarts(s.events) == s.replayed
    && (forall i :: 0 <= i < |s.events| && s.events[i].StartBuffered?
          ==> s.running == Some(s.events[i].call) || FinishedAfter(s.events, i, |s.events|))
    && ((exists j :: 0 <= j < |s.events| && s.events[j].StartDirect?) ==> s.bound)
    && DirectAfterReplay(s.events)
  }

  function BufferedStarts(events: seq<Event>): seq<Call> {
    if events == [] then []
    else BufferedStarts(events[..|events| - 1])
         + if events[|events| - 1].StartBuffered? then [events[|events| - 1].call] else []
  }

  /** The buffered call started at i came back before n. */
  ghost predicate FinishedAfter(events: seq<Event>, i: nat, n: nat)
    requires i < |events| && n <= |events| && events[i].StartBuffered?
  {
    exists k :: i < k < n && events[k] == FinishBuffered(events[i].call)
  }

  /** No direct call starts before every buffered call has finished. */
  ghost predicate DirectAfterReplay(events: seq<Event>) {
    forall i, j {:trigger events[i].StartBuffered?, events[j].StartDirect?} ::
      0 <= i < |events| && 0 <= j < |events| && events[i].StartBuffered? && events[j].StartDirect?
      ==> FinishedAfter(events, i, j)
  }

  ghost predicate Inv(s: State) {
    PhaseInv(s) && CountInv(s) && OrderInv(s) && EventInv(s)
  }

  lemma {:induction false} OthersFound(s: seq<Call>)
    ensures OtherIds(s) != {} <==> FirstOther(s) < |s|
  {
    if FirstOther(s) < |s| {
      assert s[FirstOther(s)] in s && s[FirstOther(s)].id in OtherIds(s);
    }
  }

  lemma OthersAppend(s: seq<Call>, c: Call)
    ensures OtherIds(s + [c]) == OtherIds(s) + if c.Notifies() then {} else {c.id}
  {
  }

  lemma OthersWithout(s: seq<Call>, i: nat)
    requires i < |s| && Increasing(s)
    ensures OtherIds(Without(s, i)) == OtherIds(s) - if s[i].Notifies() then {} else {s[i].id}
    ensures !s[i].Notifies() ==> s[i].id in OtherIds(s)
  {
    var r := Without(s, i);
    forall c | c in s && c != s[i] ensures c in r {
      var k :| 0 <= k < |s| && s[k] == c;
      assert r[if k < i then k else k - 1] == c;
    }
    forall c | c in r ensures c in s && (s[i].Forward? && c.Forward? ==> c.id != s[i].id) {
      var k :| 0 <= k < |r| && r[k] == c;
      var l := if k < i then k else k + 1;
      assert s[l] == c && (l < i ==> Before(s[l], s[i])) && (i < l ==> Before(s[i], s[l]));
    }
    assert s[i] in s;
  }

  lemma IncreasingPart(a: seq<Call>, b: seq<Call>)
    requires Increasing(a + b)
    ensures Increasing(a) && Increasing(b)
  {
    forall i, j | 0 <= i < j < |b| ensures Before(b[i], b[j]) {
      assert Before((a + b)[|a| + i], (a + b)[|a| + j]);
    }
    forall i, j | 0 <= i < j < |a| ensures Before(a[i], a[j]) {
      assert Before((a + b)[i], (a + b)[j]);
    }
  }

  lemma IncreasingWithout(k: seq<Call>, at: nat)
    requires Increasing(k) && at < |k|
    ensures Increasing(Without(k, at))
  {
    var l := Without(k, at);
    forall i, j | 0 <= i < j < |l| ensures Before(l[i], l[j]) {
      assert Before(k[if i < at then i else i + 1], k[if j < at then j else j + 1]);
    }
  }

  /** What stays is everything but the call taken out, which is gone. */
  lemma MembersWithout(k: seq<Call>, at: nat)
    requires Increasing(k) && at < |k| && k[at].Forward?
    ensures forall c :: c in Without(k, at) <==> c in k && (c.Forward? ==> c.id != k[at].id)
  {
    var l := Without(k, at);
    forall c | c in l ensures c in k && (c.Forward? ==> c.id != k[at].id) {
      var i :| 0 <= i < |l| && l[i] == c;
      var m := if i < at then i else i + 1;
      assert k[m] == c && (m < at ==> Before(k[m], k[at])) && (at < m ==> Before(k[at], k[m]));
    }
    forall c | c in k && (c.Forward? ==> c.id != k[at].id) ensures c in l {
      var i :| 0 <= i < |k| && k[i] == c;
      assert l[if i < at then i else i - 1] == c;
    }
  }

  /** Losing one droppable call keeps the account. */
  lemma LossKeepsOrder(s: State, r: State, at: nat)
    requires OrderInv(s) && at < |Kept(s)| && !Kept(s)[at].Notifies()
    requires Kept(r) == Without(Kept(s), at) && r.accepted == s.accepted
    requires r.lost == s.lost + {Kept(s)[at].id} && r.reported == s.reported
    ensures OrderInv(r)
  {
    var gone := Kept(s)[at];
    assert gone in Kept(s) && Accounted(s, gone);
    IncreasingWithout(Kept(s), at);
    MembersWithout(Kept(s), at);
    forall c | c in Kept(r) ensures Accounted(r, c) {
      assert Accounted(s, c);
    }
    forall id | 0 <= id < |r.accepted| && id !in r.lost ensures r.accepted[id] in Kept(r) {
      assert s.accepted[id] in Kept(s);
    }
  }

  lemma LossKeepsCount(s: State)
    requires Inv(s) && FirstOther(s.pending) < |s.pending|
    ensures CountInv(MakeRoom(s)) && MakeRoom(s).others == s.others - 1
  {
    var call := s.pending[FirstOther(s.pending)];
    assert call in Kept(s) && Accounted(s, call);
    IncreasingPart(s.replayed, s.pending);
    OthersWithout(s.pending, FirstOther(s.pending));
  }

  function TakenOut(s: State, i: nat): State
    requires i < |s.pending| && s.pending[i].Forward?
  {
    s.(pending := Without(s.pending, i), others := s.others - 1, dropped := s.dropped + 1,
       lost := s.lost + {s.pending[i].id})
  }

  lemma TakenOutOrder(s: State, i: nat)
    requires OrderInv(s) && i < |s.pending| && !s.pending[i].Notifies()
    ensures OrderInv(TakenOut(s, i))
  {
    var at := |s.replayed| + i;
    assert Kept(TakenOut(s, i)) == Without(Kept(s), at);
    LossKeepsOrder(s, TakenOut(s, i), at);
  }

  lemma MakeRoomKeeps(s: State)
    requires Inv(s) && !s.bound && s.others >= MAX_BUFFERED
    ensures Inv(MakeRoom(s)) && MakeRoom(s).others == MAX_BUFFERED - 1
  {
    OthersFound(s.pending);
    LossKeepsCount(s);
    TakenOutOrder(s, FirstOther(s.pending));
    assert MakeRoom(s) == TakenOut(s, FirstOther(s.pending));
  }

  lemma BufferKeepsOrder(s: State, t: State, call: Call)
    requires OrderInv(s) && call.Forward? && call.id == |s.accepted|
    requires Kept(t) == Kept(s) + [call] && t.accepted == s.accepted + [call] && t.lost == s.lost && t.reported == s.reported
    ensures OrderInv(t)
  {
    var k, l := Kept(s), Kept(t);
    forall i, j | 0 <= i < j < |l| ensures Before(l[i], l[j]) {
      assert l[i] == k[i] && k[i] in k && Accounted(s, k[i]);
      assert j < |k| ==> Before(k[i], k[j]);
    }
    forall c | c in l ensures Accounted(t, c) {
      assert c in k ==> Accounted(s, c);
    }
    assert l[|k|] == call;
    forall id | 0 <= id < |t.accepted| && id !in t.lost ensures t.accepted[id] in l {
      assert id < |s.accepted| ==> s.accepted[id] in k;
    }
  }

  function Buffer(s: State, call: Call): State {
    s.(pending := s.pending + [call], others := if call.Notifies() then s.others else s.others + 1,
       accepted := s.accepted + [call])
  }

  lemma BufferKeeps(s: State, call: Call)
    requires Inv(s) && !s.bound && call.Forward? && call.id == |s.accepted|
    requires call.notify || s.others < MAX_BUFFERED
    ensures Inv(Buffer(s, call))
  {
    var t := Buffer(s, call);
    assert Kept(t) == Kept(s) + [call];
    BufferKeepsOrder(s, t, call);
    forall c | c in s.pending ensures c.Forward? ==> c.id < call.id {
      assert c in Kept(s) && Accounted(s, c);
    }
    OthersAppend(s.pending, call);
    assert call.id !in OtherIds(s.pending);
  }

  lemma EnqueueKeeps(s: State, notify: bool)
    requires Inv(s)
    ensures Inv(DoEnqueue(s, notify))
  {
    var call := Forward(|s.accepted|, notify);
    if s.bound {
      EventAppended(s, DoEnqueue(s, notify), StartDirect(call));
    } else {
      if !notify && s.others >= MAX_BUFFERED {
        MakeRoomKeeps(s);
        BufferKeeps(MakeRoom(s), call);
      } else {
        BufferKeeps(s, call);
      }
    }
  }

  lemma NoticeKeepsOrder(s: State, t: State)
    requires OrderInv(s) && s.reported == 0 && t.reported > 0
    requires Kept(t) == Kept(s) + [Notice(t.reported)] && t.accepted == s.accepted && t.lost == s.lost
    ensures OrderInv(t)
  {
    var k, l := Kept(s), Kept(t);
    forall i, j | 0 <= i < j < |l| ensures Before(l[i], l[j]) {
      assert l[i] == k[i] && k[i] in k && Accounted(s, k[i]);
      assert j < |k| ==> Before(k[i], k[j]);
    }
    forall c | c in l ensures Accounted(t, c) {
      assert c in k ==> Accounted(s, c);
    }
    assert l[|k|] == Notice(t.reported);
  }

  /** The state between two sections, before the top of the replay loop. */
  ghost predicate TurnInv(s: State) {
    && CountInv(s) && OrderInv(s) && EventInv(s)
    && s.replaying && !s.bound && s.running == None
  }

  lemma TakeKeeps(s: State)
    requires TurnInv(s) && s.pending != []
    ensures Inv(ReplayTurn(s))
  {
    var t := ReplayTurn(s);
    assert Kept(t) == Kept(s);
    TakeKeepsCount(s);
    SameAccount(s, t);
    EventAppended(s, t, StartBuffered(s.pending[0]));
  }

  lemma TakeKeepsCount(s: State)
    requires CountInv(s) && Increasing(Kept(s)) && s.pending != []
    ensures CountInv(ReplayTurn(s))
  {
    assert Without(s.pending, 0) == s.pending[1..];
    IncreasingPart(s.replayed, s.pending);
    OthersWithout(s.pending, 0);
  }

  lemma SameAccount(s: State, t: State)
    requires OrderInv(s) && Kept(t) == Kept(s)
    requires t.accepted == s.accepted && t.lost == s.lost && t.reported == s.reported
    ensures OrderInv(t)
  {
    forall c | c in Kept(t) ensures Accounted(t, c) {
      assert Accounted(s, c);
    }
  }

  lemma ReplayTurnKeeps(s: State)
    requires TurnInv(s)
    ensures Inv(ReplayTurn(s))
  {
    if s.pending != [] {
      TakeKeeps(s);
    } else {
      SameAccount(s, ReplayTurn(s));
      assert OtherIds(s.pending) == {};
    }
  }

  lemma BeginTurn(s: State)
    requires Inv(s) && !s.bound && !s.replaying
    ensures TurnInv(Opened(s))
  {
    var t := Opened(s);
    if s.dropped > 0 {
      assert Kept(t) == Kept(s) + [Notice(t.reported)];
      OthersAppend(s.pending, Notice(s.dropped));
      NoticeKeepsOrder(s, t);
    } else {
      SameAccount(s, t);
    }
  }

  lemma ResumeTurn(s: State)
    requires Inv(s) && s.running.Some?
    ensures TurnInv(Finished(s))
  {
    var t := Finished(s);
    EventAppended(s, t, FinishBuffered(s.running.value));
    SameAccount(s, t);
  }

  lemma SetHooksKeeps(s: State)
    requires Inv(s)
    ensures Inv(DoSetHooks(s))
  {
    if !s.bound && !s.replaying {
      var t := Opened(s);
      BeginTurn(s);
      ReplayTurnKeeps(t);
    }
  }

  lemma ReturnedKeeps(s: State)
    requires Inv(s)
    ensures Inv(DoReturned(s))
  {
    if s.running.Some? {
      ResumeTurn(s);
      ReplayTurnKeeps(Finished(s));
    }
  }

  /** Appending one event keeps the event invariant when the phase allows it. */
  lemma EventAppended(s: State, t: State, e: Event)
    requires EventInv(s) && t.events == s.events + [e]
    requires e.StartDirect? ==> s.bound && t.bound && s.running == None && t.running == None && t.replayed == s.replayed
    requires e.StartBuffered? ==> !s.bound && s.running == None && t.running == Some(e.call) && t.replayed == s.replayed + [e.call]
    requires e.FinishBuffered? ==> !s.bound && s.running == Some(e.call) && t.running == None && t.replayed == s.replayed
    ensures EventInv(t)
  {
    var n := |s.events|;
    assert t.events[..n] == s.events;
    forall i | 0 <= i < n && s.events[i].StartBuffered? && FinishedAfter(s.events, i, n)
      ensures FinishedAfter(t.events, i, n)
    {
      var k :| i < k < n && s.events[k] == FinishBuffered(s.events[i].call);
      assert t.events[k] == FinishBuffered(t.events[i].call);
    }
    forall i | 0 <= i < |t.events| && t.events[i].StartBuffered?
      ensures t.running == Some(t.events[i].call) || FinishedAfter(t.events, i, |t.events|)
    {
      if i < n && s.running == Some(s.events[i].call) {
        assert t.events[n] == FinishBuffered(t.events[i].call);
      }
    }
    forall i, j | 0 <= i < |t.events| && 0 <= j < |t.events| && t.events[i].StartBuffered? && t.events[j].StartDirect?
      ensures FinishedAfter(t.events, i, j)
    {
      if i < n && j < n {
        assert s.events[i].StartBuffered? && s.events[j].StartDirect?;
        var k :| i < k < j && s.events[k] == FinishBuffered(s.events[i].call);
        assert t.events[k] == FinishBuffered(t.events[i].call);
      }
    }
  }

  lemma StepKeeps(s: State, a: Action)
    requires Inv(s)
    ensures Inv(Step(s, a))
  {
    match a
    case Arrive(notify) => EnqueueKeeps(s, notify);
    case Bind => SetHooksKeeps(s);
    case Returned => ReturnedKeeps(s);
  }

  lemma StartIsEmpty()
    ensures PhaseInv(START) && CountInv(START)
    ensures Kept(START) == [] && START.accepted == [] && START.lost == {} && START.reported == 0 && START.events == []
  {
    assert OtherIds([]) == {};
  }

  lemma EmptyInv(s: State)
    requires PhaseInv(s) && CountInv(s)
    requires Kept(s) == [] && s.accepted == [] && s.lost == {} && s.reported == 0 && s.events == []
    ensures Inv(s)
  {
    assert s.replayed == [] == BufferedStarts(s.events);
  }

  lemma {:induction false} AlwaysInv(acts: seq<Action>)
    ensures Inv(Run(acts))
  {
    if acts == [] {
      StartIsEmpty();
      EmptyInv(START);
    } else {
      AlwaysInv(acts[..|acts| - 1]);
      StepKeeps(Run(acts[..|acts| - 1]), acts[|acts| - 1]);
    }
  }

  // ------------------------------------------------------------- the guarantees

  /** Under every interleaving at most 64 droppable calls wait, and `others` is
      their number. */
  lemma BufferIsBounded(acts: seq<Action>)
    ensures var s := Run(acts); s.others == |OtherIds(s.pending)| <= 64
  {
    AlwaysInv(acts);
  }

  /** A Notify received before binding is never dropped: it waits or was replayed. */
  lemma NotifyNeverDropped(acts: seq<Action>, id: nat)
    requires var s := Run(acts); id < |s.accepted| && s.accepted[id].Notifies()
    ensures var s := Run(acts); id !in s.lost && s.accepted[id] in Kept(s)
  {
    AlwaysInv(acts);
  }

  /** Once bound, the replayer ran exactly the accepted calls that were not
      dropped, oldest first, plus at most one warning. */
  lemma ReplayIsComplete(acts: seq<Action>)
    requires Run(acts).bound
    ensures var s := Run(acts);
            && BufferedStarts(s.events) == s.replayed && Increasing(s.replayed)
            && (forall c :: c in s.replayed && c.Forward? ==> c.id < |s.accepted| && c.id !in s.lost && c == s.accepted[c.id])
            && (forall id :: 0 <= id < |s.accepted| && id !in s.lost ==> s.accepted[id] in s.replayed)
            && (forall c :: c in s.replayed && c.Notice? ==> c.count == s.reported)
  {
    AlwaysInv(acts);
    var s := Run(acts);
    assert Kept(s) == s.replayed;
    assert forall c :: c in s.replayed ==> Accounted(s, c);
  }

  /** Under every interleaving each buffered call has finished before any direct one starts. */
  lemma DirectCallsWaitForReplay(acts: seq<Action>)
    ensures DirectAfterReplay(Run(acts).events)
  {
    AlwaysInv(acts);
  }

  /** `now` is `was` without its i-th call, the first that is not a Notify. */
  ghost predicate RemovesFirst(was: seq<Call>, now: seq<Call>, i: int) {
    && 0 <= i < |was| && now == was[..i] + was[i + 1..]
    && !was[i].Notifies() && forall k :: 0 <= k < i ==> was[k].Notifies()
  }

  /** Of the calls that may be dropped the buffer drops the oldest. */
  ghost predicate LosesOldest(s: State, t: State, id: nat) {
    t.lost == s.lost + {id} && id in OtherIds(s.pending) && forall other :: other in OtherIds(s.pending) ==> id <= other
  }

  lemma MakeRoomLosesOldest(s: State)
    requires Inv(s) && MakeRoom(s).lost != s.lost
    ensures LosesOldest(s, MakeRoom(s), s.pending[FirstOther(s.pending)].id)
  {
    var i := FirstOther(s.pending);
    var oldest := s.pending[i];
    assert oldest in s.pending && oldest.Forward?;
    IncreasingPart(s.replayed, s.pending);
    forall c | c in s.pending && !c.Notifies() ensures oldest.id <= c.id {
      var k :| 0 <= k < |s.pending| && s.pending[k] == c;
      assert i < k ==> Before(oldest, c);
    }
  }

  lemma ArriveLosesOldest(s: State, notify: bool)
    requires Inv(s)
    ensures var t := DoEnqueue(s, notify); t.lost == s.lost || exists id :: LosesOldest(s, t, id)
  {
    if !s.bound && !notify && s.others >= MAX_BUFFERED && MakeRoom(s).lost != s.lost {
      MakeRoomLosesOldest(s);
      assert LosesOldest(s, DoEnqueue(s, notify), s.pending[FirstOther(s.pending)].id);
    }
  }

  lemma ReplayLosesNone(s: State, a: Action)
    requires !a.Arrive?
    ensures Step(s, a).lost == s.lost
  {
  }

  /** Under every interleaving: a step that loses a call loses one, and of the
      droppable calls then waiting it is the one received first. */
  lemma DropTakesOldest(acts: seq<Action>, a: Action)
    ensures var s, t := Run(acts), Run(acts + [a]); t.lost == s.lost || exists id :: LosesOldest(s, t, id)
  {
    RunSnoc(acts, a);
    if a.Arrive? {
      AlwaysInv(acts);
      ArriveLosesOldest(Run(acts), a.notify);
    } else {
      ReplayLosesNone(Run(acts), a);
    }
  }

  /** The numbers of all droppable calls received. */
  function Droppable(s: State): set<nat> {
    set id | 0 <= id < |s.accepted| && !s.accepted[id].Notifies()
  }

  /** What waits is newer than what was lost, and nothing is lost before 64 wait. */
  ghost predicate NewestWait(s: State) {
    && (forall id, other :: id in s.lost && other in OtherIds(s.pending) ==> id < other)
    && (s.lost != {} ==> |OtherIds(s.pending)| == MAX_BUFFERED)
  }

  /** A call that joins is newer than all. */
  lemma JoinKeepsNewest(s: State, call: Call)
    requires OrderInv(s) && call.Forward? && call.id == |s.accepted|
    requires forall id, other :: id in s.lost && other in OtherIds(s.pending) ==> id < other
    ensures forall id, other :: id in s.lost && other in OtherIds(s.pending + [call]) ==> id < other
    ensures |OtherIds(s.pending + [call])| == |OtherIds(s.pending)| + if call.Notifies() then 0 else 1
  {
    OthersAppend(s.pending, call);
    forall c | c in s.pending ensures c.Forward? ==> c.id < call.id {
      assert c in Kept(s) && Accounted(s, c);
    }
    assert call.id !in OtherIds(s.pending);
  }

  lemma RoomKeepsNewest(s: State)
    requires Inv(s) && s.others == MAX_BUFFERED && NewestWait(s)
    ensures var r := MakeRoom(s);
            && (forall id, other :: id in r.lost && other in OtherIds(r.pending) ==> id < other)
            && |OtherIds(r.pending)| == MAX_BUFFERED - 1
  {
    var i := FirstOther(s.pending);
    OthersFound(s.pending);
    IncreasingPart(s.replayed, s.pending);
    OthersWithout(s.pending, i);
    assert s.pending[i] in Kept(s) && Accounted(s, s.pending[i]);
    MakeRoomLosesOldest(s);
  }

  lemma ArriveKeepsNewest(s: State, notify: bool)
    requires Inv(s) && !s.bound && !s.replaying && NewestWait(s)
    ensures NewestWait(DoEnqueue(s, notify))
  {
    var call := Forward(|s.accepted|, notify);
    if !notify && s.others >= MAX_BUFFERED {
      RoomKeepsNewest(s);
      MakeRoomKeeps(s);
      JoinKeepsNewest(MakeRoom(s), call);
    } else {
      JoinKeepsNewest(s, call);
    }
  }

  lemma {:induction false} NewestAlwaysWait(acts: seq<Action>)
    ensures var s := Run(acts); !s.bound && !s.replaying ==> NewestWait(s)
  {
    if acts != [] {
      var before, a := acts[..|acts| - 1], acts[|acts| - 1];
      NewestAlwaysWait(before);
      AlwaysInv(before);
      var s := Run(before);
      if a.Arrive? && !s.bound && !s.replaying {
        ArriveKeepsNewest(s, a.notify);
      }
    }
  }

  /** Before binding the droppable calls that wait are the last 64 received, or all
      of them while there are no more than 64. */
  lemma LastOnesWait(acts: seq<Action>)
    requires !Run(acts).bound && !Run(acts).replaying
    ensures var s := Run(acts);
            && OtherIds(s.pending) <= Droppable(s)
            && (forall id, other :: id in Droppable(s) - OtherIds(s.pending) && other in OtherIds(s.pending) ==> id < other)
            && (|OtherIds(s.pending)| == 64 || OtherIds(s.pending) == Droppable(s))
  {
    AlwaysInv(acts);
    NewestAlwaysWait(acts);
    var s := Run(acts);
    assert Kept(s) == s.pending;
    forall c | c in s.pending && !c.Notifies() ensures c.id in Droppable(s) {
      assert Accounted(s, c);
    }
    forall id | id in Droppable(s) && id !in s.lost ensures id in OtherIds(s.pending) {
      assert s.accepted[id] in Kept(s);
    }
  }

  lemma OpeningKeeps(s: State)
    requires CountInv(s)
    ensures Kept(Opened(s)) == Kept(s) + if s.dropped > 0 then [Notice(s.dropped)] else []
  {
  }

  lemma TakingKeeps(s: State)
    ensures Kept(ReplayTurn(s)) == Kept(s)
  {
  }

  /** The notice goes behind every call buffered when the replay opens. */
  lemma NoticeComesLast(acts: seq<Action>)
    requires !Run(acts).bound && !Run(acts).replaying
    ensures var s, t := Run(acts), Run(acts + [Bind]);
            Kept(t) == Kept(s) + if s.dropped > 0 then [Notice(s.dropped)] else []
  {
    AlwaysInv(acts);
    RunSnoc(acts, Bind);
    OpeningKeeps(Run(acts));
    TakingKeeps(Opened(Run(acts)));
  }

  /** The i-th action is a droppable call that arrives during the replay and finds
      the buffer full. */
  ghost predicate LateDrop(acts: seq<Action>, i: int) {
    && 0 <= i < |acts| && acts[i] == Arrive(false)
    && Run(acts[..i]).replaying && Run(acts[..i]).others == MAX_BUFFERED
  }

  /** A full buffer holds a call to drop. */
  lemma FullDrops(s: State)
    requires Inv(s) && s.others == MAX_BUFFERED
    ensures MakeRoom(s).dropped == s.dropped + 1
  {
    OthersFound(s.pending);
    assert s.pending[FirstOther(s.pending)].Forward?;
  }

  lemma LateDropSnoc(acts: seq<Action>, a: Action)
    ensures (exists i :: LateDrop(acts + [a], i)) <==> (exists i :: LateDrop(acts, i)) || LateDrop(acts + [a], |acts|)
  {
    var longer := acts + [a];
    forall i | 0 <= i < |acts| ensures LateDrop(longer, i) <==> LateDrop(acts, i) {
      assert longer[..i] == acts[..i];
    }
  }

  /** From the opening of the replay on, `dropped` counts late drops and nothing else;
      before, there are none. */
  lemma {:induction false} DroppedMeansLate(acts: seq<Action>)
    ensures var s := Run(acts);
            if s.replaying || s.bound then s.dropped > 0 <==> exists i :: LateDrop(acts, i)
            else forall i :: !LateDrop(acts, i)
  {
    if acts != [] {
      var before, a := acts[..|acts| - 1], acts[|acts| - 1];
      assert before + [a] == acts;
      DroppedMeansLate(before);
      LateDropSnoc(before, a);
      AlwaysInv(before);
      assert acts[..|before|] == before;
      var s := Run(before);
      if a == Arrive(false) && s.others == MAX_BUFFERED {
        FullDrops(s);
      }
    }
  }

  /** The warning reports every drop exactly when no droppable call arrived during the
      replay while the buffer was full: such a drop is counted, but the count is never
      shown. */
  lemma WarningIsCompleteIff(acts: seq<Action>)
    requires Run(acts).bound
    ensures var s := Run(acts); (s.reported == |s.lost| <==> forall i :: !LateDrop(acts, i))
    ensures var s := Run(acts); s.reported > 0 <==> Notice(s.reported) in s.replayed
  {
    AlwaysInv(acts);
    DroppedMeansLate(acts);
    var s := Run(acts);
    assert Kept(s) == s.replayed;
    assert forall c :: c in s.replayed ==> Accounted(s, c);
  }

  lemma LateStep(s: State, a: Action)
    requires (s.replaying || s.bound) && s.dropped > 0
    ensures var t := Step(s, a); (t.replaying || t.bound) && t.dropped > 0 && t.reported == s.reported
  {
  }

  lemma {:induction false} LateDropStaysUnreported(acts: seq<Action>, more: seq<Action>)
    requires (Run(acts).replaying || Run(acts).bound) && Run(acts).dropped > 0
    ensures var s := Run(acts + more); (s.replaying || s.bound) && s.dropped > 0 && s.reported == Run(acts).reported < |s.lost|
  {
    if more == [] {
      assert acts + more == acts;
    } else {
      LateDropStaysUnreported(acts, more[..|more| - 1]);
      assert acts + more == (acts + more[..|more| - 1]) + [more[|more| - 1]];
      RunSnoc(acts + more[..|more| - 1], more[|more| - 1]);
      LateStep(Run(acts + more[..|more| - 1]), more[|more| - 1]);
    }
    AlwaysCounted(acts + more);
  }

  lemma AlwaysCounted(acts: seq<Action>)
    ensures |Run(acts).lost| == Run(acts).dropped + Run(acts).reported
  {
    AlwaysInv(acts);
  }

  /** n droppable calls arriving while the first one is being replayed. */
  function Flood(n: nat): seq<Action> {
    if n == 0 then [Arrive(false), Bind] else Flood(n - 1) + [Arrive(false)]
  }

  lemma FloodStarts()
    ensures var s := Run(Flood(0)); s.replaying && !s.bound && s.others == 0 && s.dropped == 0 && s.reported == 0
  {
    RunSnoc([], Arrive(false));
    assert [] + [Arrive(false)] == [Arrive(false)];
    RunSnoc([Arrive(false)], Bind);
    assert [Arrive(false)] + [Bind] == Flood(0);
  }

  lemma {:induction false} FloodFills(n: nat)
    requires n <= MAX_BUFFERED
    ensures var s := Run(Flood(n)); s.replaying && !s.bound && s.others == n && s.dropped == 0 && s.reported == 0
  {
    if n == 0 {
      FloodStarts();
    } else {
      FloodFills(n - 1);
      RunSnoc(Flood(n - 1), Arrive(false));
    }
  }

  /** The 65th loses a call, and no continuation ever reports it. */
  lemma DropDuringReplayIsLost(more: seq<Action>)
    ensures var s := Run(Flood(65) + more); s.reported == 0 && |s.lost| > 0
  {
    FloodFills(64);
    AlwaysInv(Flood(64));
    var s := Run(Flood(64));
    OthersFound(s.pending);
    var i := FirstOther(s.pending);
    assert Flood(65)[..|Flood(65)| - 1] == Flood(64);
    assert s.pending[i] in Kept(s);
    LateDropStaysUnreported(Flood(65), more);
  }

  // --------------------------------------------------------- the adapter, as run

  /** What the invariant says about a state outside replay. */
  lemma IdleFacts(acts: seq<Action>)
    ensures var s := Run(acts); (s.replaying <==> s.running.Some?) && s.dropped >= 0
  {
    AlwaysInv(acts);
  }

  lemma RunSnoc(acts: seq<Action>, a: Action)
    ensures Run(acts + [a]) == Step(Run(acts), a)
  {
    assert (acts + [a])[..|acts + [a]| - 1] == acts;
  }

  /** The fields always show the state the sections run so far lead to. */
  class SessionBindings {
    var target: bool
    var replaying: bool
    var pending: seq<Call>
    var others: int
    var dropped: int
    /** Numbers the buffered calls; it stands for the identity of a call's closure. */
    var arrived: nat
    ghost var acts: seq<Action>

    ghost predicate Shows(s: State)
      reads this
    {
      && s.bound == target && s.replaying == replaying && s.pending == pending
      && s.others == others && s.dropped == dropped && |s.accepted| == arrived
    }

    ghost predicate Valid()
      reads this
    {
      Shows(Run(acts))
    }

    constructor ()
      ensures Valid() && acts == []
    {
      target, replaying, pending, others, dropped, arrived := false, false, [], 0, 0, 0;
      acts := [];
    }

    /** Drops the oldest call that is not a Notify. */
    method DropOldestOther(ghost s: State)
      requires Shows(s)
      modifies this`pending, this`others, this`dropped
      ensures Shows(MakeRoom(s))
      ensures (exists i :: RemovesFirst(old(pending), pending, i))
              || (pending == old(pending) && forall k :: 0 <= k < |pending| ==> pending[k].Notifies())
    {
      ghost var was := pending;
      for i := 0 to |pending|
        invariant pending == s.pending && others == s.others && dropped == s.dropped
        invariant i <= FirstOther(pending)
      {
        if !pending[i].Notifies() {
          pending := pending[..i] + pending[i + 1..];
          assert RemovesFirst(was, pending, i);
          others := others - 1;
          dropped := dropped + 1;
          break;
        }
      }
    }

    /** One lock section; a call returned is made directly, outside the lock. */
    method Enqueue(notify: bool) returns (direct: Option<Call>)
      requires Valid()
      modifies this
      ensures Valid() && acts == old(acts) + [Arrive(notify)]
      ensures direct == if old(target) then Some(Forward(old(arrived), notify)) else None
      ensures old(target) ==> pending == old(pending)
      ensures !old(target) ==>
                && pending != [] && Last(pending) == Forward(old(arrived), notify)
                && (Init(pending) == old(pending)
                    || (!notify && old(others) >= 64 && exists i :: RemovesFirst(old(pending), Init(pending), i)))
      ensures !old(target) && (notify || old(others) < 64) ==> Init(pending) == old(pending)
    {
      var call := Forward(arrived, notify);
      ghost var s := Run(acts);
      RunSnoc(acts, Arrive(notify));
      acts := acts + [Arrive(notify)];
      if target {
        return Some(call);
      }
      if !notify && others >= MAX_BUFFERED {
        DropOldestOther(s);
      }
      pending := pending + [call];
      arrived := arrived + 1;
      if !notify {
        others := others + 1;
      }
      return None;
    }

    /** Top of the replay loop, still under the lock; a call returned is run outside it. */
    method TakeNext(ghost s: State) returns (next: Option<Call>)
      requires Shows(s) && replaying && s.running == None
      modifies this`target, this`replaying, this`others, this`pending
      ensures Shows(ReplayTurn(s)) && next == ReplayTurn(s).running
      ensures next == None ==> target
    {
      if |pending| == 0 {
        target, replaying, others := true, false, 0;
        return None;
      }
      next := Some(pending[0]);
      pending := pending[1..];
      if !next.value.Notifies() {
        others := others - 1;
      }
    }

    method Begin() returns (next: Option<Call>)
      requires Valid()
      modifies this
      ensures Valid() && acts == old(acts) + [Bind]
      ensures !old(target) && !old(replaying) ==> next == Run(acts).running && (next == None ==> target)
      ensures old(target) || old(replaying) ==> next == None && Run(acts) == Run(old(acts))
    {
      ghost var s := Run(acts);
      IdleFacts(acts);
      RunSnoc(acts, Bind);
      acts := acts + [Bind];
      if target || replaying {
        return None;
      }
      replaying := true;
      if dropped > 0 {
        pending := pending + [Notice(dropped)];
        dropped := 0;
      }
      next := TakeNext(Opened(s));
    }

    method Resume() returns (next: Option<Call>)
      requires Valid() && Run(acts).running.Some?
      modifies this
      ensures Valid() && acts == old(acts) + [Returned]
      ensures next == Run(acts).running && (next == None ==> target)
    {
      ghost var s := Run(acts);
      IdleFacts(acts);
      RunSnoc(acts, Returned);
      acts := acts + [Returned];
      next := TakeNext(Finished(s));
    }

    /** Other threads calling hooks while the replayer is outside the lock. */
    method Interleave(notifies: seq<bool>)
      requires Valid()
      modifies this
      ensures Valid() && Run(acts).running == old(Run(acts).running)
    {
      for i := 0 to |notifies|
        invariant Valid() && Run(acts).running == old(Run(acts).running)
      {
        RunSnoc(acts, Arrive(notifies[i]));
        var _ := Enqueue(notifies[i]);
      }
    }

    /** The whole replay. While the k-th call runs outside the lock, other threads
        make the calls listed in `arrivals[k]`; it ends once they stop. A second
        binding does nothing. */
    method SetHooks(arrivals: seq<seq<bool>>)
      requires Valid()
      modifies this
      ensures Valid()
      ensures if old(target) || old(replaying) then Run(acts) == Run(old(acts)) else target
    {
      ghost var refused := target || replaying;
      var next := Begin();
      var k := 0;
      while next.Some?
        invariant Valid() && k <= |arrivals| && (!refused ==> next == Run(acts).running)
        invariant if refused then next == None && Run(acts) == Run(old(acts)) else next == None ==> target
        decreases |arrivals| - k, |pending|, next.Some?
      {
        if k < |arrivals| {
          Interleave(arrivals[k]);
          k := k + 1;
        }
        RunSnoc(acts, Returned);
        next := Resume();
      }
    }
  }
}
