/** The agent's checklist and its write-ahead protocol (packages/core/plan.go:35-171,
    packages/core/agent.go:1470-1526, packages/agent/cli.go:434-459 and 575-587,
    packages/core/session.go:1381-1401): an operation is validated against the current
    list, the resulting list is written to the session file, and only then becomes the
    agent's. */
module Plan {
  import opened Transcript
  import Queue

  datatype Status = Unset | Pending | InProgress | Completed | Other(name: string)

  datatype PlanStep = PlanStep(text: Bytes, status: Status)

  /** The arguments of a plan tool call; `index` counts from 1. */
  datatype Operation = Operation(action: string, steps: seq<PlanStep>, index: int, text: Option<Bytes>, status: Status)

  datatype Rejection =
    | ActionMissing | UnknownAction | StepsMissing | OutOfRange | NothingToUpdate | TextMissing | UnknownStatus

  datatype Preview = Rejected(why: Rejection) | Listing(steps: seq<PlanStep>) | Change(steps: seq<PlanStep>)

  predicate BlankText(s: PlanStep) {
    Queue.Trim(s.text) == []
  }

  predicate Known(status: Status) {
    status.Pending? || status.InProgress? || status.Completed?
  }

  predicate ValidStep(s: PlanStep) {
    !BlankText(s) && Known(s.status)
  }

  ghost predicate Valid(plan: seq<PlanStep>) {
    forall i :: 0 <= i < |plan| ==> ValidStep(plan[i])
  }

  // ------------------------------------------------------------- specification

  /** An omitted status means pending. */
  function Default(s: PlanStep): PlanStep {
    if s.status.Unset? then s.(status := Pending) else s
  }

  function Defaulted(steps: seq<PlanStep>): seq<PlanStep> {
    seq(|steps|, i requires 0 <= i < |steps| => Default(steps[i]))
  }

  /** Why the first invalid step is refused. */
  function Fault(plan: seq<PlanStep>): (why: Option<Rejection>)
    ensures why == None <==> forall i :: 0 <= i < |plan| ==> ValidStep(plan[i])
  {
    if plan == [] then None
    else if BlankText(plan[0]) then Some(TextMissing)
    else if !Known(plan[0].status) then Some(UnknownStatus)
    else
      assert forall i :: 0 < i < |plan| ==> plan[i] == plan[1..][i - 1];
      Fault(plan[1..])
  }

  function Checked(plan: seq<PlanStep>): Preview {
    var why := Fault(plan);
    if why.Some? then Rejected(why.value) else Change(plan)
  }

  function Updated(s: PlanStep, op: Operation): PlanStep {
    PlanStep(if op.text.Some? then op.text.value else s.text, if op.status.Unset? then s.status else op.status)
  }

  function PreviewOf(plan: seq<PlanStep>, op: Operation): Preview {
    if op.action == "set" then
      if op.steps == [] then Rejected(StepsMissing) else Checked(Defaulted(op.steps))
    else if op.action == "add" then
      if op.steps == [] then Rejected(StepsMissing) else Checked(plan + Defaulted(op.steps))
    else if op.action == "update" then
      if !(1 <= op.index <= |plan|) then Rejected(OutOfRange)
      else if op.status.Unset? && op.text == None then Rejected(NothingToUpdate)
      else Checked(plan[op.index - 1 := Updated(plan[op.index - 1], op)])
    else if op.action == "remove" then
      if !(1 <= op.index <= |plan|) then Rejected(OutOfRange)
      else Checked(plan[..op.index - 1] + plan[op.index..])
    else if op.action == "clear" then Change([])
    else if op.action == "show" then Listing(plan)
    else if op.action == "" then Rejected(ActionMissing)
    else Rejected(UnknownAction)
  }

  /** What a reload or a host's seed keeps: steps with text and a known status, an
      omitted status meaning pending. */
  function Normalized(plan: seq<PlanStep>): seq<PlanStep> {
    if plan == [] then []
    else Reloaded(plan[0]) + Normalized(plan[1..])
  }

  function Reloaded(s: PlanStep): seq<PlanStep> {
    if ValidStep(Default(s)) then [Default(s)] else []
  }

  // ------------------------------------------------------ runs of the protocol

  /** Where results are committed: no hook at all, a hook without a session, or one
      whose session file takes the write or not. */
  datatype Host = Unhooked | NoSession | Session(writes: bool)

  /** `written` holds the lists the session file accepted, oldest first. */
  datatype Ledger = Ledger(plan: seq<PlanStep>, stored: seq<PlanStep>, written: seq<seq<PlanStep>>)

  datatype Call = Call(op: Operation, host: Host)

  function Performed(l: Ledger, c: Call): Ledger {
    match PreviewOf(l.plan, c.op)
    case Change(steps) =>
      (match c.host
       case Unhooked => l.(plan := steps)
       case NoSession => l
       case Session(writes) => if writes then Ledger(steps, steps, l.written + [steps]) else l)
    case _ => l
  }

  function Run(start: seq<PlanStep>, calls: seq<Call>): Ledger {
    if calls == [] then Ledger(start, start, [start]) else Performed(Run(start, Init(calls)), Last(calls))
  }

  lemma CheckedIsValid(plan: seq<PlanStep>)
    ensures Checked(plan).Change? <==> Valid(plan)
    ensures Checked(plan).Change? ==> Checked(plan).steps == plan
    ensures !Checked(plan).Listing?
  {
  }

  /** What `CheckedIsValid` gives about a preview. */
  ghost predicate Sound(plan: seq<PlanStep>, op: Operation, p: Preview) {
    && (p.Change? ==> Valid(p.steps))
    && (p.Listing? ==> op.action == "show" && p.steps == plan)
  }

  lemma GrowingIsSound(plan: seq<PlanStep>, op: Operation)
    requires op.action == "set" || op.action == "add"
    ensures Sound(plan, op, PreviewOf(plan, op))
  {
    CheckedIsValid(Defaulted(op.steps));
    CheckedIsValid(plan + Defaulted(op.steps));
  }

  lemma EditingIsSound(plan: seq<PlanStep>, op: Operation)
    requires op.action == "update" || op.action == "remove"
    ensures Sound(plan, op, PreviewOf(plan, op))
  {
    if 1 <= op.index <= |plan| {
      CheckedIsValid(plan[op.index - 1 := Updated(plan[op.index - 1], op)]);
      CheckedIsValid(plan[..op.index - 1] + plan[op.index..]);
    }
  }

  /** A change is valid, whatever the plan it starts from. */
  lemma ChangesAreValid(plan: seq<PlanStep>, op: Operation)
    ensures PreviewOf(plan, op).Change? ==> Valid(PreviewOf(plan, op).steps)
    ensures PreviewOf(plan, op).Listing? ==> op.action == "show" && PreviewOf(plan, op).steps == plan
  {
    if op.action == "set" || op.action == "add" {
      GrowingIsSound(plan, op);
    } else if op.action == "update" || op.action == "remove" {
      EditingIsSound(plan, op);
    }
  }

  /** The given steps, with omitted statuses pending. */
  ghost predicate Given(steps: seq<PlanStep>, now: seq<PlanStep>) {
    && |now| == |steps|
    && forall k :: 0 <= k < |steps| ==>
         now[k].text == steps[k].text && now[k].status == if steps[k].status == Unset then Pending else steps[k].status
  }

  /** What a request that is not refused for itself asks the list to become. */
  ghost predicate Asks(plan: seq<PlanStep>, op: Operation, now: seq<PlanStep>) {
    || (op.action == "set" && op.steps != [] && Given(op.steps, now))
    || (op.action == "add" && op.steps != [] && plan <= now && Given(op.steps, now[|plan|..]))
    || (op.action == "update" && 1 <= op.index <= |plan| && (op.status != Unset || op.text.Some?) && Updates(plan, op, now))
    || (op.action == "remove" && 1 <= op.index <= |plan| && Removes(plan, op.index - 1, now))
    || (op.action == "clear" && now == [])
  }

  /** One step takes what the request names, the others stay. */
  ghost predicate Updates(plan: seq<PlanStep>, op: Operation, now: seq<PlanStep>)
    requires 1 <= op.index <= |plan|
  {
    && |now| == |plan|
    && (forall k :: 0 <= k < |plan| && k != op.index - 1 ==> now[k] == plan[k])
    && now[op.index - 1].text == (if op.text.Some? then op.text.value else plan[op.index - 1].text)
    && now[op.index - 1].status == (if op.status == Unset then plan[op.index - 1].status else op.status)
  }

  ghost predicate Removes(plan: seq<PlanStep>, at: int, now: seq<PlanStep>)
    requires 0 <= at < |plan|
  {
    |now| == |plan| - 1 && forall k :: 0 <= k < |now| ==> now[k] == plan[if k < at then k else k + 1]
  }

  /** A preview gives the list asked for, if it is valid; a refusal has its reason. */
  ghost predicate Answers(plan: seq<PlanStep>, op: Operation, p: Preview) {
    match p
    case Change(now) => Asks(plan, op, now) && Valid(now)
    case Listing(now) => op.action == "show" && now == plan
    case Rejected(why) =>
      match why
      case ActionMissing => op.action == ""
      case UnknownAction => op.action !in {"", "set", "add", "update", "remove", "clear", "show"}
      case StepsMissing => op.action in {"set", "add"} && op.steps == []
      case OutOfRange => op.action in {"update", "remove"} && !(1 <= op.index <= |plan|)
      case NothingToUpdate => op.action == "update" && 1 <= op.index <= |plan| && op.status == Unset && op.text == None
      case _ => exists now, k :: Asks(plan, op, now) && FirstFault(now, k, why)
  }

  /** Step k is the first that is invalid, for this reason. */
  ghost predicate FirstFault(now: seq<PlanStep>, k: int, why: Rejection) {
    && 0 <= k < |now| && (forall i :: 0 <= i < k ==> ValidStep(now[i])) && !ValidStep(now[k])
    && why == if BlankText(now[k]) then TextMissing else UnknownStatus
  }

  lemma {:induction false} FaultIsFirst(plan: seq<PlanStep>) returns (k: int)
    requires Fault(plan).Some?
    ensures FirstFault(plan, k, Fault(plan).value)
  {
    if BlankText(plan[0]) || !Known(plan[0].status) {
      k := 0;
    } else {
      var i := FaultIsFirst(plan[1..]);
      k := i + 1;
      forall j | 0 <= j < k ensures ValidStep(plan[j]) {
        assert j > 0 ==> plan[j] == plan[1..][j - 1];
      }
    }
  }

  /** Validation answers a request for `now`. */
  lemma CheckedAnswers(plan: seq<PlanStep>, op: Operation, now: seq<PlanStep>)
    requires Asks(plan, op, now)
    ensures Answers(plan, op, Checked(now))
  {
    if Fault(now).Some? {
      var k := FaultIsFirst(now);
      assert FirstFault(now, k, Fault(now).value);
    }
  }

  lemma GrowingAnswers(plan: seq<PlanStep>, op: Operation)
    requires op.action == "set" || op.action == "add"
    ensures Answers(plan, op, PreviewOf(plan, op))
  {
    if op.steps != [] {
      var given := Defaulted(op.steps);
      if op.action == "set" {
        CheckedAnswers(plan, op, given);
      } else {
        assert (plan + given)[|plan|..] == given;
        CheckedAnswers(plan, op, plan + given);
      }
    }
  }

  lemma EditingAnswers(plan: seq<PlanStep>, op: Operation)
    requires op.action == "update" || op.action == "remove"
    ensures Answers(plan, op, PreviewOf(plan, op))
  {
    if 1 <= op.index <= |plan| {
      if op.action == "remove" {
        CheckedAnswers(plan, op, plan[..op.index - 1] + plan[op.index..]);
      } else if op.status != Unset || op.text.Some? {
        CheckedAnswers(plan, op, plan[op.index - 1 := Updated(plan[op.index - 1], op)]);
      }
    }
  }

  /** Every preview is an answer to its request. */
  lemma PreviewAnswers(plan: seq<PlanStep>, op: Operation)
    ensures Answers(plan, op, PreviewOf(plan, op))
  {
    if op.action == "set" || op.action == "add" {
      GrowingAnswers(plan, op);
    } else if op.action == "update" || op.action == "remove" {
      EditingAnswers(plan, op);
    }
  }

  /** And the only one. */
  lemma AnswersAreUnique(plan: seq<PlanStep>, op: Operation, a: seq<PlanStep>, b: seq<PlanStep>)
    requires Asks(plan, op, a) && Asks(plan, op, b)
    ensures a == b
  {
    if op.action == "add" {
      assert a[|plan|..] == b[|plan|..];
      assert a == plan + a[|plan|..] && b == plan + b[|plan|..];
    }
  }

  /** Whatever plan calls are made and whichever writes fail, with the commit hook in
      place: the agent's list is the session's list, it is the last list written, and
      every list ever written is valid. */
  lemma {:induction false} WriteAhead(start: seq<PlanStep>, calls: seq<Call>)
    requires Valid(start) && forall i :: 0 <= i < |calls| ==> !calls[i].host.Unhooked?
    ensures var l := Run(start, calls);
            && l.plan == l.stored && l.written != [] && Last(l.written) == l.plan
            && (forall i :: 0 <= i < |l.written| ==> Valid(l.written[i]))
  {
    if calls != [] {
      WriteAhead(start, Init(calls));
      ChangesAreValid(Run(start, Init(calls)).plan, Last(calls).op);
    }
  }

  /** Without the hook the two part, at the first change. */
  lemma UnhookedParts(step: PlanStep)
    requires ValidStep(step) && !step.status.Unset?
    ensures var l := Run([], [Call(Operation("set", [step], 0, None, Unset), Unhooked)]);
            l.plan == [step] && l.stored == []
  {
    var c := Call(Operation("set", [step], 0, None, Unset), Unhooked);
    assert Init([c]) == [] && Last([c]) == c;
    assert Defaulted([step]) == [step];
    CheckedIsValid([step]);
  }

  /** A call that is rejected, only shows, or cannot be written. */
  predicate Fails(l: Ledger, c: Call) {
    PreviewOf(l.plan, c.op).Rejected? || c.op.action == "show" || c.host == NoSession || c.host == Session(false)
  }

  lemma RunSnoc(start: seq<PlanStep>, calls: seq<Call>, c: Call)
    ensures Run(start, calls + [c]) == Performed(Run(start, calls), c)
  {
    assert Init(calls + [c]) == calls;
  }

  /** After any run, a call is written and becomes the plan exactly if it changes the list
      and the session file takes it; the list is then the one it asks for. Any other call
      with the hook in place changes nothing. */
  lemma CallTakesEffectIff(start: seq<PlanStep>, calls: seq<Call>, c: Call)
    ensures var l, t := Run(start, calls), Run(start, calls + [c]);
            && (t.written != l.written <==> PreviewOf(l.plan, c.op).Change? && c.host == Session(true))
            && (t.written != l.written ==> t.written == l.written + [t.plan] && t.stored == t.plan && Asks(l.plan, c.op, t.plan))
            && (t.written == l.written && !c.host.Unhooked? ==> t == l)
            && (c.host.Unhooked? && PreviewOf(l.plan, c.op).Change? ==> Asks(l.plan, c.op, t.plan) && t.stored == l.stored)
  {
    RunSnoc(start, calls, c);
    PreviewAnswers(Run(start, calls).plan, c.op);
  }

  /** Calls made on a given ledger. */
  function Resumed(l: Ledger, calls: seq<Call>): Ledger {
    if calls == [] then l else Performed(Resumed(l, Init(calls)), Last(calls))
  }

  lemma EndOf(a: seq<Call>, b: seq<Call>)
    requires b != []
    ensures Init(a + b) == a + Init(b) && Last(a + b) == Last(b)
  {
  }

  lemma {:induction false} RunSplit(start: seq<PlanStep>, a: seq<Call>, b: seq<Call>)
    ensures Run(start, a + b) == Resumed(Run(start, a), b)
  {
    if b == [] {
      assert a + b == a;
    } else {
      RunSplit(start, a, Init(b));
      EndOf(a, b);
      assert Run(start, a + b) == Performed(Run(start, Init(a + b)), Last(b));
    }
  }

  /** Such a call leaves no trace: later calls do what they would have done without it. */
  lemma FailuresLeaveNoTrace(start: seq<PlanStep>, before: seq<Call>, c: Call, after: seq<Call>)
    requires Fails(Run(start, before), c)
    ensures Run(start, before + [c] + after) == Run(start, before + after)
  {
    RunSnoc(start, before, c);
    RunSplit(start, before + [c], after);
    RunSplit(start, before, after);
  }

  // ------------------------------------------------- what the operations undo

  lemma NormalizedParts(plan: seq<PlanStep>)
    ensures |Normalized(plan)| <= |plan|
    ensures Valid(Normalized(plan))
  {
  }

  /** What a reload keeps of one step. */
  ghost predicate Reloads(s: PlanStep, now: seq<PlanStep>) {
    now == if Queue.Trim(s.text) == [] || s.status.Other? then []
           else [PlanStep(s.text, if s.status == Unset then Pending else s.status)]
  }

  lemma NormalizedOne(s: PlanStep)
    ensures Reloads(s, Normalized([s])) && Normalized([]) == []
  {
    assert [s][1..] == [];
  }

  lemma NormalizedCons(s: PlanStep, rest: seq<PlanStep>)
    ensures Normalized([s] + rest) == Reloaded(s) + Normalized(rest)
  {
    assert ([s] + rest)[0] == s && ([s] + rest)[1..] == rest;
  }

  /** A reload looks at each step by itself and keeps the order. */
  lemma {:induction false} NormalizedConcat(a: seq<PlanStep>, b: seq<PlanStep>)
    ensures Normalized(a + b) == Normalized(a) + Normalized(b)
  {
    if a == [] {
      assert a + b == b;
    } else {
      var s, rest := a[0], a[1..];
      assert a == [s] + rest && a + b == [s] + (rest + b);
      NormalizedConcat(rest, b);
      NormalizedCons(s, rest + b);
      NormalizedCons(s, rest);
      ConcatAssociates(Reloaded(s), Normalized(rest), Normalized(b));
    }
  }

  lemma ValidCons(s: PlanStep, rest: seq<PlanStep>)
    ensures Valid([s] + rest) <==> ValidStep(s) && Valid(rest)
  {
    var plan := [s] + rest;
    assert plan[0] == s && forall i :: 0 <= i < |rest| ==> plan[i + 1] == rest[i];
  }

  /** Reloading gives back exactly the valid plans. */
  lemma {:induction false} ReloadIsIdentityIff(plan: seq<PlanStep>)
    ensures Normalized(plan) == plan <==> Valid(plan)
  {
    if plan != [] {
      var s, rest := plan[0], plan[1..];
      assert plan == [s] + rest;
      ReloadIsIdentityIff(rest);
      NormalizedCons(s, rest);
      NormalizedParts(rest);
      ValidCons(s, rest);
      HeadReloads(s, rest, Normalized(rest));
    }
  }

  lemma HeadReloads(s: PlanStep, rest: seq<PlanStep>, kept: seq<PlanStep>)
    requires |kept| <= |rest|
    ensures Reloaded(s) + kept == [s] + rest <==> ValidStep(s) && kept == rest
  {
    if Reloaded(s) + kept == [s] + rest {
      assert Reloaded(s) == [Default(s)];
      assert (Reloaded(s) + kept)[0] == s && (Reloaded(s) + kept)[1..] == kept;
    }
  }

  /** What the session file holds survives a reload unchanged, after any run. */
  lemma StoredPlansReload(start: seq<PlanStep>, calls: seq<Call>)
    requires Valid(start) && forall i :: 0 <= i < |calls| ==> !calls[i].host.Unhooked?
    ensures Normalized(Run(start, calls).stored) == Run(start, calls).plan
  {
    WriteAhead(start, calls);
    ReloadIsIdentityIff(Run(start, calls).stored);
  }

  /** Removing the step that was just added gives back the plan. */
  lemma RemoveUndoesAdd(plan: seq<PlanStep>, step: PlanStep)
    requires Valid(plan) && ValidStep(step)
    ensures var added := PreviewOf(plan, Operation("add", [step], 0, None, Unset));
            && added == Change(plan + [step])
            && PreviewOf(added.steps, Operation("remove", [], |plan| + 1, None, Unset)) == Change(plan)
  {
    var longer := plan + [step];
    assert Defaulted([step]) == [step];
    CheckedIsValid(longer);
    assert longer[..|plan|] + longer[|plan| + 1..] == plan;
    CheckedIsValid(plan);
  }

  lemma NormalizedNext(plan: seq<PlanStep>, i: nat, kept: seq<PlanStep>)
    requires i < |plan|
    ensures var step := Default(plan[i]);
            kept + Normalized(plan[i..]) == (if ValidStep(step) then kept + [step] else kept) + Normalized(plan[i + 1..])
  {
    assert plan[i..][1..] == plan[i + 1..];
  }

  // ------------------------------------------------------------ the objects

  /** An independent copy. */
  method ClonePlanSteps(steps: array<PlanStep>) returns (clone: array<PlanStep>)
    ensures fresh(clone) && clone[..] == steps[..]
  {
    clone := new PlanStep[steps.Length](_ => PlanStep([], Unset));
    for i := 0 to steps.Length
      invariant clone[..i] == steps[..i]
    {
      clone[i] := steps[i];
    }
  }

  method FromSeq(steps: seq<PlanStep>) returns (a: array<PlanStep>)
    ensures fresh(a) && a[..] == steps
  {
    a := new PlanStep[|steps|](i requires 0 <= i < |steps| => steps[i]);
  }

  /** Fills in omitted statuses where they are. */
  method DefaultPlanStepStatuses(steps: array<PlanStep>)
    modifies steps
    ensures steps[..] == Defaulted(old(steps[..]))
  {
    for i := 0 to steps.Length
      invariant steps[..i] == Defaulted(old(steps[..]))[..i]
      invariant steps[i..] == old(steps[..])[i..]
    {
      assert steps[i] == old(steps[..])[i];
      if steps[i].status.Unset? {
        steps[i] := steps[i].(status := Pending);
      }
    }
  }

  method ValidatePlanSteps(steps: array<PlanStep>) returns (why: Option<Rejection>)
    ensures why == Fault(steps[..])
  {
    for i := 0 to steps.Length
      invariant Fault(steps[..]) == Fault(steps[i..])
    {
      assert steps[i..][1..] == steps[i + 1..];
      if BlankText(steps[i]) {
        return Some(TextMissing);
      }
      if !Known(steps[i].status) {
        return Some(UnknownStatus);
      }
    }
    return None;
  }

  /** The session's half: memory is put back when the file refuses the line. */
  class SessionFile {
    var plan: array<PlanStep>

    constructor ()
      ensures fresh(plan) && plan[..] == []
    {
      plan := new PlanStep[0];
    }

    method UpdatePlan(steps: array<PlanStep>, writes: bool) returns (ok: bool)
      modifies this`plan
      ensures ok == writes
      ensures plan[..] == if writes then steps[..] else old(plan[..])
      ensures writes ==> fresh(plan)
      ensures !writes ==> plan == old(plan)
    {
      var previous := plan;
      plan := ClonePlanSteps(steps);
      if !writes {
        plan := previous;
      }
      return writes;
    }
  }

  class PlanAgent {
    var plan: array<PlanStep>

    constructor ()
      ensures fresh(plan) && plan[..] == []
    {
      plan := new PlanStep[0];
    }

    /** Seeds the plan; the caller keeps its own array. */
    method SetPlan(steps: array<PlanStep>)
      modifies this`plan
      ensures fresh(plan) && plan[..] == Normalized(steps[..])
    {
      var kept: seq<PlanStep> := [];
      ghost var all := steps[..];
      for i := 0 to steps.Length
        invariant Normalized(all) == kept + Normalized(all[i..])
      {
        var step := steps[i];
        if step.status.Unset? {
          step := step.(status := Pending);
        }
        NormalizedNext(all, i, kept);
        if !BlankText(step) && Known(step.status) {
          kept := kept + [step];
        }
      }
      plan := FromSeq(kept);
    }

    /** A copy: writing to it leaves the agent's list alone. */
    method CurrentPlan() returns (copy: array<PlanStep>)
      ensures fresh(copy) && copy[..] == plan[..]
    {
      copy := ClonePlanSteps(plan);
    }

    method PreviewPlanOperation(op: Operation) returns (update: Option<array<PlanStep>>, show: bool, why: Rejection)
      ensures update.Some? ==> fresh(update.value)
      ensures PreviewOf(plan[..], op) ==
              if update == None then Rejected(why)
              else if show then Listing(update.value[..]) else Change(update.value[..])
      ensures Answers(plan[..], op, if update == None then Rejected(why)
                                    else if show then Listing(update.value[..]) else Change(update.value[..]))
    {
      PreviewAnswers(plan[..], op);
      show, why := false, ActionMissing;
      var next := ClonePlanSteps(plan);
      if op.action == "set" || op.action == "add" {
        if op.steps == [] {
          return None, false, StepsMissing;
        }
        var added := FromSeq(op.steps);
        DefaultPlanStepStatuses(added);
        if op.action == "set" {
          next := added;
        } else {
          next := FromSeq(next[..] + added[..]);
        }
      } else if op.action == "update" || op.action == "remove" {
        if op.index < 1 || op.index > next.Length {
          return None, false, OutOfRange;
        }
        if op.action == "update" {
          if op.status.Unset? && op.text == None {
            return None, false, NothingToUpdate;
          }
          next[op.index - 1] := Updated(next[op.index - 1], op);
        } else {
          next := FromSeq(next[..op.index - 1] + next[op.index..]);
        }
      } else if op.action == "clear" {
        next := FromSeq([]);
      } else if op.action == "show" {
        return Some(next), true, why;
      } else {
        return None, false, if op.action == "" then ActionMissing else UnknownAction;
      }
      var fault := ValidatePlanSteps(next);
      if fault.Some? {
        return None, false, fault.value;
      }
      return Some(next), false, why;
    }

    method CommitPlanUpdate(update: array<PlanStep>)
      modifies this`plan
      ensures fresh(plan) && plan[..] == update[..]
    {
      plan := ClonePlanSteps(update);
    }

    /** One plan call of a batch: preview, write, commit. */
    method PlanCall(op: Operation, host: Host, file: SessionFile) returns (failed: bool)
      modifies this`plan, file`plan
      ensures var l := Performed(Ledger(old(plan[..]), old(file.plan[..]), []), Call(op, host));
              plan[..] == l.plan && file.plan[..] == l.stored
      ensures failed <==> PreviewOf(old(plan[..]), op).Rejected?
                          || (PreviewOf(old(plan[..]), op).Change? && (host == NoSession || host == Session(false)))
      ensures !failed && op.action != "show" ==>
                Asks(old(plan[..]), op, plan[..]) && file.plan[..] == if host.Unhooked? then old(file.plan[..]) else plan[..]
      ensures failed || op.action == "show" ==> plan[..] == old(plan[..]) && file.plan[..] == old(file.plan[..])
      ensures plan == old(plan) || fresh(plan)
      ensures file.plan == old(file.plan) || (fresh(file.plan) && file.plan != plan)
    {
      var update, show, why := PreviewPlanOperation(op);
      if update == None {
        return true;
      }
      if show {
        return false;
      }
      match host {
        case Unhooked =>
        case NoSession => return true;
        case Session(writes) =>
          var ok := file.UpdatePlan(update.value, writes);
          if !ok {
            return true;
          }
      }
      CommitPlanUpdate(update.value);
      return false;
    }
  }
}
