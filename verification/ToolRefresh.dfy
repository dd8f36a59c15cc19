/** The late-bound tool refresh of a session (packages/agent/session_assembly.go:1187-1215):
    requests made before a refresh is bound are remembered as one. Calls are made outside
    the lock, so a call that is due may come any time later. */
module ToolRefresh {
  import opened Transcript

  /** `due` counts the calls decided under the lock and not made yet. */
  datatype State = State(bound: bool, pending: bool, due: nat, made: nat)

  const START := State(false, false, 0, 0)

  /** `Bind(false)` binds no refresh at all. */
  datatype Action = Request | Bind(present: bool) | Call

  function Step(s: State, a: Action): State {
    match a
    case Request => if s.bound then s.(due := s.due + 1) else s.(pending := true)
    case Bind(present) => s.(bound := present, pending := false, due := s.due + if s.pending && present then 1 else 0)
    case Call => if s.due > 0 then s.(due := s.due - 1, made := s.made + 1) else s
  }

  function Run(s: State, acts: seq<Action>): State {
    if acts == [] then s else Step(Run(s, Init(acts)), Last(acts))
  }

  /** Refreshes made, due, or remembered. */
  function Accounted(s: State): nat {
    s.made + s.due + if s.pending then 1 else 0
  }

  function Requests(acts: seq<Action>): nat {
    if acts == [] then 0 else Requests(Init(acts)) + if Last(acts).Request? then 1 else 0
  }

  /** Nothing is forgotten unless a nil refresh is bound, and nothing is made up. */
  lemma {:induction false} Accounting(s: State, acts: seq<Action>)
    requires s.bound ==> !s.pending
    ensures var t := Run(s, acts);
            && (t.bound ==> !t.pending)
            && Accounted(t) <= Accounted(s) + Requests(acts)
            && (Bind(false) !in acts ==> Accounted(s) <= Accounted(t))
  {
    if acts != [] {
      Accounting(s, Init(acts));
      assert forall a :: a in Init(acts) ==> a in acts;
      assert Last(acts) in acts;
    }
  }

  /** Every request is answered by a refresh made after it, once one is bound and all
      calls due have been made, provided nobody binds nil in between. */
  lemma RequestsAreAnswered(before: seq<Action>, after: seq<Action>)
    requires Bind(false) !in after
    requires var t := Run(Step(Run(START, before), Request), after); t.bound && t.due == 0
    ensures Run(Step(Run(START, before), Request), after).made > Run(START, before).made
  {
    Accounting(START, before);
    Accounting(Step(Run(START, before), Request), after);
  }

  /** The first binding there is binds a refresh. */
  ghost predicate BindsFirst(acts: seq<Action>) {
    exists i :: 0 <= i < |acts| && acts[i] == Bind(true) && Unbound(acts[..i])
  }

  ghost predicate Unbound(acts: seq<Action>) {
    forall a :: a in acts ==> !a.Bind?
  }

  lemma BindsFirstSnoc(acts: seq<Action>)
    requires acts != []
    ensures BindsFirst(acts) <==> BindsFirst(Init(acts)) || (Unbound(Init(acts)) && Last(acts) == Bind(true))
    ensures Unbound(acts) <==> Unbound(Init(acts)) && !Last(acts).Bind?
  {
    var n := |acts| - 1;
    forall i | 0 <= i <= n ensures i < n ==> Init(acts)[i] == acts[i] && Init(acts)[..i] == acts[..i] {
    }
    assert acts[..n] == Init(acts) && acts == Init(acts) + [acts[n]];
    if BindsFirst(acts) {
      var i :| 0 <= i < |acts| && acts[i] == Bind(true) && Unbound(acts[..i]);
      assert i < n ==> Unbound(Init(acts)[..i]);
    }
    if BindsFirst(Init(acts)) {
      var i :| 0 <= i < n && Init(acts)[i] == Bind(true) && Unbound(Init(acts)[..i]);
      assert acts[i] == Bind(true) && Unbound(acts[..i]);
    }
  }

  /** What becomes of a remembered request while no other is made. */
  lemma {:induction false} Remembered(s: State, acts: seq<Action>)
    requires (s.bound ==> !s.pending) && Request !in acts
    ensures var t := Run(s, acts);
            && t.made + t.due == s.made + s.due + (if s.pending && BindsFirst(acts) then 1 else 0)
            && (t.pending <==> s.pending && Unbound(acts))
  {
    if acts != [] {
      assert forall a :: a in Init(acts) ==> a in acts;
      assert Last(acts) in acts;
      Remembered(s, Init(acts));
      BindsFirstSnoc(acts);
      if BindsFirst(Init(acts)) {
        var i :| 0 <= i < |Init(acts)| && Init(acts)[i] == Bind(true) && Unbound(Init(acts)[..i]);
        assert Init(acts)[i] in Init(acts);
      }
    }
  }

  /** Exactly when: the request adds one refresh if one was bound when it was made or
      the next binding binds one; if the next binding binds nil, it adds none, whatever
      is bound later. */
  lemma RequestIsAnsweredIff(before: seq<Action>, after: seq<Action>)
    requires Request !in after
    ensures var s := Run(START, before);
            var t := Run(Step(s, Request), after);
            && t.made + t.due == s.made + s.due + (if s.bound || BindsFirst(after) then 1 else 0)
            && (t.due == 0 ==> (t.made > s.made + s.due <==> s.bound || BindsFirst(after)))
  {
    Accounting(START, before);
    Remembered(Step(Run(START, before), Request), after);
  }

  /** Never more refreshes than requests. */
  lemma RefreshesAreAsked(acts: seq<Action>)
    ensures Run(START, acts).made <= Requests(acts)
  {
    Accounting(START, acts);
  }

  /** Binding nil forgets a request. */
  lemma NilForgets()
    ensures var t := Run(START, [Request, Bind(false), Bind(true)]); t.bound && Accounted(t) == 0
  {
    var acts := [Request, Bind(false), Bind(true)];
    assert Init(acts) == [Request, Bind(false)] && Init([Request, Bind(false)]) == [Request] && Init([Request]) == [];
    assert Run(START, [Request]) == State(false, true, 0, 0);
    assert Run(START, [Request, Bind(false)]) == State(false, false, 0, 0);
  }

  /** The two lock sections; a call returned is made by the caller, outside the lock. */
  class Refresher {
    var bound: bool
    var pending: bool

    ghost predicate Shows(s: State)
      reads this
    {
      s.bound == bound && s.pending == pending
    }

    method SetToolRefresh(present: bool, ghost s: State) returns (call: bool)
      requires Shows(s)
      modifies this
      ensures Shows(Step(s, Bind(present)))
      ensures Step(s, Bind(present)).due == s.due + if call then 1 else 0
    {
      bound := present;
      var was := pending;
      pending := false;
      return was && present;
    }

    method RequestToolRefresh(ghost s: State) returns (call: bool)
      requires Shows(s)
      modifies this
      ensures Shows(Step(s, Request))
      ensures Step(s, Request).due == s.due + if call then 1 else 0
    {
      if !bound {
        pending := true;
      }
      return bound;
    }
  }
}
