/** What every run of the resident child runner keeps: accepted steers are delivered or
    given back, continuations are bounded by steers, and the step limit survives a
    compaction recovery. */
module ResidentProofs {
  import opened Transcript
  import opened Resident
  import E = Engine
  import EngineLog
  import EngineResults
  import EngineRuns
  import Memory
  import Queue
  import Repair

  // ------------------------------------------------------ events of the agent's steps

  /** `es` opens no step. */
  ghost predicate NoStart(es: seq<E.Event>) {
    forall e :: e in es ==> !e.TurnStart?
  }

  ghost predicate Silent(s: E.State, t: E.State, es: seq<E.Event>) {
    t.run.trace == s.run.trace + es && NoStart(es)
  }

  lemma VerdictEvents(s: E.State, v: E.Verdict) returns (es: seq<E.Event>)
    ensures Silent(s, E.DoVerdict(s, v), es)
  {
    es := match v
          case Quiet => []
          case Warned(_) => [E.RepetitionGuard(false)]
          case Halted => [E.RepetitionGuard(true), E.Done];
  }

  lemma WeighEvents(s: E.State, v: E.Verdict) returns (es: seq<E.Event>)
    ensures Silent(s, E.DoWeigh(s, v), es)
  {
    es := VerdictEvents(s, v);
  }

  lemma FailEvents(s: E.State, e: E.Error)
    ensures E.Fail(s, e).run.trace == s.run.trace
  {
  }

  lemma JudgeEvents(s: E.State, o: E.Outcome) returns (es: seq<E.Event>)
    ensures Silent(s, E.DoJudge(s, o), es)
  {
    es := [E.TurnEnd(o.stop, o.err)];
    if o.err.Some? {
      var t := E.Emit(s, E.TurnEnd(o.stop, o.err));
      if o.err.value != E.Cancelled {
        es := es + [E.RequestFailed(s.run.attempts, s.run.maxAttempts)];
        t := E.Emit(t, E.RequestFailed(s.run.attempts, s.run.maxAttempts));
      }
      FailEvents(t, o.err.value);
    }
  }

  lemma ClosingEvents(s: E.State, a: E.Action) returns (es: seq<E.Event>)
    requires s.run.pc.Closing?
    ensures Silent(s, E.Advance(s, a), es)
  {
    es := [];
    if a.EndTurn? {
      var finishing := s.run.pc.stop != E.StopEnd || s.run.denied || (a.verdict == E.Quiet && (!a.incomplete || s.run.recovered));
      if finishing {
        es := [E.Done];
      } else if a.verdict != E.Quiet {
        es := WeighEvents(s, a.verdict);
      }
    }
  }

  lemma RunningEvents(s: E.State, a: E.Action) returns (es: seq<E.Event>)
    requires s.run.pc.Running?
    ensures Silent(s, E.Advance(s, a), es)
  {
    es := [];
    if a.FinishCall? {
      var b := s.run.batch;
      if E.Finishable(b) && Last(b.ran) && a.out.denied {
        es := [E.ToolDenied];
      }
    }
  }

  lemma AttemptEvents(s: E.State, a: E.Action) returns (es: seq<E.Event>)
    requires s.run.pc.Calling? || s.run.pc.Judging? || s.run.pc.Retrying? || s.run.pc.Sleeping? || s.run.pc.Woken?
    ensures Silent(s, E.Advance(s, a), es)
  {
    es := [];
    match s.run.pc {
      case Calling =>
        if a.Call? {
          es := [E.RequestStarted(s.run.attempts + 1, s.run.maxAttempts)];
        }
      case Judging(o) =>
        if a == E.Judge {
          es := JudgeEvents(s, o);
        }
      case Retrying(delay) =>
        if a == E.Schedule && !s.cancelled {
          es := [E.RetryScheduled(s.run.attempts + 1, s.run.maxAttempts, delay)];
        }
      case _ =>
    }
  }

  lemma HookEvents(s: E.State, a: E.Action) returns (es: seq<E.Event>)
    requires s.run.pc.Top? || s.run.pc.Hooks? || s.run.pc.Composing? || s.run.pc.Sent? || s.run.pc.Idle? || s.run.pc.Returned?
    ensures Silent(s, E.Advance(s, a), es)
  {
    es := [];
    if s.run.pc == E.Top && a == E.Enter && 0 < s.run.cfg.maxSteps < s.run.step {
      es := [E.Done];
    } else if s.run.pc == E.Hooks && a.Hook? && !a.allowed {
      es := [E.TurnEnd(E.StopError, Some(E.Permanent)), E.Done];
    } else if s.run.pc == E.Sent && a == E.AfterBatch && s.cancelled {
      es := [E.Done];
    }
  }

  lemma ReadingEvents(s: E.State, a: E.Action) returns (es: seq<E.Event>)
    requires s.run.pc.Continuing? || s.run.pc.Counting? || s.run.pc.Ending? || s.run.pc.EndCounting? || s.run.pc.Recovering?
    ensures Silent(s, E.Advance(s, a), es)
  {
    es := [];
    if a == E.Look && s.cancelled && !s.run.pc.Ending? && !s.run.pc.Counting? && !s.run.pc.EndCounting? {
      es := [E.Done];
    } else if a == E.Look && s.run.pc.Recovering? {
      es := [E.TurnRecovery];
    }
  }

  lemma WeighingEvents(s: E.State, a: E.Action) returns (es: seq<E.Event>)
    requires s.run.pc.Weighing? || s.run.pc.Observing?
    ensures Silent(s, E.Advance(s, a), es)
  {
    es := [];
    if a.Observe? {
      es := VerdictEvents(s, a.verdict);
    }
  }

  predicate Opens(s: E.State, a: E.Action) {
    s.run.pc == E.Delivering(false) && s.q.inflight == [] && a == E.Gate(false)
  }

  lemma GateEvents(s: E.State, a: E.Action) returns (es: seq<E.Event>)
    requires s.run.pc.Delivering? && !Opens(s, a)
    ensures Silent(s, E.Advance(s, a), es)
  {
    es := [];
    if s.run.pc == E.Delivering(false) && s.q.inflight == [] && a == E.Gate(true) {
      es := [E.Done];
    }
  }

  /** Only the gate opens a step. */
  lemma AdvanceEvents(s: E.State, a: E.Action) returns (es: seq<E.Event>)
    requires !Opens(s, a)
    ensures Silent(s, E.Advance(s, a), es)
  {
    match s.run.pc {
      case Closing(_) => es := ClosingEvents(s, a);
      case Running(_) => es := RunningEvents(s, a);
      case Delivering(_) => es := GateEvents(s, a);
      case Calling => es := AttemptEvents(s, a);
      case Judging(_) => es := AttemptEvents(s, a);
      case Retrying(_) => es := AttemptEvents(s, a);
      case Sleeping(_) => es := AttemptEvents(s, a);
      case Woken => es := AttemptEvents(s, a);
      case Weighing => es := WeighingEvents(s, a);
      case Observing => es := WeighingEvents(s, a);
      case Continuing => es := ReadingEvents(s, a);
      case Counting => es := ReadingEvents(s, a);
      case Ending(_) => es := ReadingEvents(s, a);
      case EndCounting(_) => es := ReadingEvents(s, a);
      case Recovering => es := ReadingEvents(s, a);
      case _ => es := HookEvents(s, a);
    }
  }

  lemma {:induction false} SilentStarted(trace: seq<E.Event>, es: seq<E.Event>)
    requires NoStart(es)
    ensures EngineRuns.Started(trace + es) == EngineRuns.Started(trace)
    decreases |es|
  {
    if es == [] {
      assert trace + es == trace;
    } else {
      var longer := trace + es;
      assert Init(longer) == trace + Init(es) && Last(longer) == Last(es) && Last(es) in es;
      assert forall e :: e in Init(es) ==> e in es;
      SilentStarted(trace, Init(es));
    }
  }

  lemma SilentSeen(trace: seq<E.Event>, es: seq<E.Event>, used: int)
    requires NoStart(es)
    ensures Seen(trace, trace + es, used) == used
  {
    if es != [] {
      assert Last(trace + es) == Last(es) && Last(es) in es;
    }
  }

  /** The sink's high-water mark is the number of steps started. */
  lemma UsedCountsStarts(s: E.State, a: E.Action)
    requires EngineRuns.RunInv(s.run)
    ensures var t := E.Advance(s, a);
            Seen(s.run.trace, t.run.trace, EngineRuns.Started(s.run.trace)) == EngineRuns.Started(t.run.trace)
  {
    if Opens(s, a) {
      OpensOne(s, a);
    } else {
      var es := AdvanceEvents(s, a);
      SilentStarted(s.run.trace, es);
      SilentSeen(s.run.trace, es, EngineRuns.Started(s.run.trace));
    }
  }

  lemma OpensOne(s: E.State, a: E.Action)
    requires EngineRuns.RunInv(s.run) && Opens(s, a)
    ensures var t := E.Advance(s, a);
            Seen(s.run.trace, t.run.trace, EngineRuns.Started(s.run.trace)) == EngineRuns.Started(t.run.trace)
  {
    EngineRuns.Snoc(s.run.trace, E.TurnStart(s.run.step));
    assert E.Advance(s, a) == E.DoGate(s, false);
  }

  // ------------------------------------------------------------------ the invariant

  predicate InTurn(s: State) {
    s.phase.Turn? || s.phase.Overflowed? || s.phase.Checkpointing? || s.phase.Closing?
  }

  /** Steps started in the current turn, over both of its parts. */
  function StepsStarted(s: State): int {
    s.spent + EngineRuns.Started(s.eng.run.trace)
  }

  /** The agent works only during a turn, within the turn's limit. */
  ghost predicate Control(s: State) {
    && s.running == InTurn(s)
    && (!s.phase.Turn? ==> E.Resting(s.eng))
    && (s.phase.Turn? ==> s.eng.run.pc != E.Idle && s.eng.run.cfg.maxSteps == s.maxSteps)
    && EngineRuns.RunInv(s.eng.run)
    && s.limit == s.cfg.maxSteps
  }

  /** The limit, whole or what the first part of the turn left of it. */
  ghost predicate Budget(s: State) {
    && s.spent >= 0
    && (!s.recovered ==> s.spent == 0)
    && (s.phase.Turn? && s.recovered ==>
          if s.limit > 0 then s.maxSteps == s.limit - s.spent > 0 else s.maxSteps == s.limit)
    && (!(s.phase.Turn? && s.recovered) ==> s.maxSteps == s.limit)
    && (s.phase.Turn? || s.phase.Overflowed? || s.phase.Checkpointing? ==>
          !s.recovered ==> s.used == EngineRuns.Started(s.eng.run.trace))
    && (s.phase.Overflowed? || s.phase.Checkpointing? ==> !s.recovered)
    && (s.limit > 0 ==> StepsStarted(s) <= s.limit)
  }

  /** The agent's queue and what was given back. */
  ghost predicate Steering(s: State) {
    var q := s.eng.q;
    && Queue.Inv(q)
    && (q.inflight != [] ==> s.phase.Turn? && s.eng.run.pc.Delivering?)
    && |Queue.Live(q)| <= q.clock
    && Queue.Stamps(s.returned) == q.taken
    && Distinct(s.returned)
  }

  ghost predicate Distinct(s: seq<Queue.Entry>) {
    forall i, j :: 0 <= i < j < |s| ==> s[i].accepted != s[j].accepted
  }

  /** A continuation just begun is paid for by what it will deliver. */
  predicate AtStart(s: State) {
    s.phase.Turn? && s.eng.run.pc == E.Top && s.eng.run.step == 1 && s.eng.q.queued != []
  }

  ghost predicate Paid(s: State) {
    s.continuations <= s.eng.q.clock - |s.eng.q.queued| + if AtStart(s) then 1 else 0
  }

  /** Between the rejection and the checkpoint the rejected transcript is at hand. */
  ghost predicate Rollback(s: State) {
    && (s.phase.Overflowed? ==> s.eng.mem.messages == s.overflown)
    && (s.phase.Checkpointing? ==> s.phase.before == s.overflown)
  }

  // ------------------------------------------------------------------- launching

  lemma LaunchFacts(s: State, prompt: Option<E.Prompt>)
    requires E.Resting(s.eng) && (prompt.Some? ==> prompt.value != E.Prompt([], []))
    ensures var t := Launch(s, prompt);
            && t.q == s.eng.q && t.run == E.FreshRun(E.Top, s.cfg.(maxSteps := s.maxSteps), |s.eng.mem.messages|)
            && t.spots == s.eng.spots
  {
    var t := E.Step(s.eng, E.Begin(prompt, s.cfg.(maxSteps := s.maxSteps)));
    assert t == E.DoBegin(s.eng, prompt, s.cfg.(maxSteps := s.maxSteps));
  }

  lemma FreshFacts(cfg: E.Config, base: nat)
    ensures var r := E.FreshRun(E.Top, cfg, base);
            EngineRuns.RunInv(r) && EngineRuns.Started(r.trace) == 0 && r.pc == E.Top && r.step == 1 && r.cfg == cfg
  {
    EngineRuns.FreshRunKeeps(cfg, base);
  }

  lemma BeginKeeps(s: State, prompt: Option<E.Prompt>)
    requires Control(s.(running := InTurn(s))) && Budget(s) && Steering(s) && !s.phase.Turn? && s.running
    requires prompt.Some? ==> prompt.value != E.Prompt([], [])
    requires s.continuations <= s.eng.q.clock - |s.eng.q.queued| + if s.eng.q.queued != [] then 1 else 0
    ensures var t := BeginTurn(s, prompt); Control(t) && Budget(t) && Steering(t) && Paid(t) && Rollback(t)
  {
    var u := s.(phase := Turn, used := 0, spent := 0, recovered := false, journalFailed := false);
    LaunchFacts(u, prompt);
    FreshFacts(s.cfg.(maxSteps := s.maxSteps), |s.eng.mem.messages|);
  }

  // ------------------------------------------------------------- the agent's steps

  lemma LoopFacts(s: E.State, a: E.Action)
    requires AgentStep(a) && EngineRuns.RunInv(s.run)
    ensures var t := E.Step(s, a);
            && (t == E.Advance(s, a) || (t.run == s.run && t.q == s.q && t.spots == s.spots))
            && EngineRuns.RunInv(t.run)
  {
    EngineRuns.StepKeepsRun(s, a);
  }

  lemma StartedBound(r: E.RunState)
    requires EngineRuns.RunInv(r) && r.cfg.maxSteps > 0
    ensures EngineRuns.Started(r.trace) <= r.cfg.maxSteps
  {
  }

  lemma LoopControl(s: State, a: E.Action)
    requires Control(s) && Budget(s) && s.phase.Turn? && AgentStep(a)
    ensures Control(DoLoop(s, a)) && Budget(DoLoop(s, a))
  {
    var t := DoLoop(s, a);
    LoopFacts(s.eng, a);
    if t.eng.run == s.eng.run {
      assert t.used == s.used;
    } else {
      EngineResults.AdvanceKeepsConfig(s.eng, a);
      UsedCountsStarts(s.eng, a);
    }
    if s.limit > 0 {
      StartedBound(t.eng.run);
    }
  }

  /** A step of the agent moves queue entries only towards the transcript. */
  lemma LoopQueue(s: E.State, a: E.Action)
    requires AgentStep(a) && Queue.Inv(s.q) && (s.q.inflight != [] ==> s.run.pc.Delivering?)
    ensures var t := E.Step(s, a);
            && Queue.Inv(t.q) && (t.q.inflight != [] ==> t.run.pc.Delivering?)
            && t.q.clock == s.q.clock && t.q.taken == s.q.taken && Queue.Live(t.q) == Queue.Live(s.q)
            && (t.q.queued == s.q.queued || t.q.queued == [])
  {
    Queue.DrainKeeps(s.q);
    EngineLog.StepKeepsQueue(s, a);
    if s.q.inflight != [] {
      Queue.DeliverKeeps(s.q);
      EngineLog.DeliveringQueue(s, a);
    } else {
      EngineLog.AdvanceQueue(s, a);
    }
  }

  /** The first step of a continuation takes the whole queue. */
  lemma EnterTakesAll(s: E.State, a: E.Action)
    requires s.run.pc == E.Top && s.run.step == 1 && AgentStep(a)
    ensures E.Step(s, a).q.queued == [] || (E.Step(s, a).run == s.run && E.Step(s, a).q == s.q)
  {
  }

  lemma LoopSteering(s: State, a: E.Action)
    requires Control(s) && Steering(s) && Paid(s) && s.phase.Turn? && AgentStep(a)
    ensures Steering(DoLoop(s, a)) && Paid(DoLoop(s, a))
  {
    LoopQueue(s.eng, a);
    if AtStart(s) {
      EnterTakesAll(s.eng, a);
    }
  }

  // ------------------------------------------------------------------ all the steps

  ghost predicate Inv(s: State) {
    Control(s) && Budget(s) && Steering(s) && Paid(s) && Rollback(s)
  }

  lemma SteerKeeps(s: State, m: Queue.QueuedMessage)
    requires Inv(s)
    ensures Inv(DoSteer(s, m))
  {
    Queue.AcceptKeeps(s.eng.q, m);
  }

  lemma DistinctConcat(a: seq<Queue.Entry>, b: seq<Queue.Entry>)
    requires Distinct(a) && Queue.Increasing(b) && Queue.Stamps(a) !! Queue.Stamps(b)
    ensures Distinct(a + b)
  {
    forall i, j | 0 <= i < |a| && 0 <= j < |b| ensures a[i].accepted != b[j].accepted {
      assert a[i] in a && b[j] in b;
      assert a[i].accepted in Queue.Stamps(a) && b[j].accepted in Queue.Stamps(b);
    }
  }

  lemma DrainKeeps(s: State)
    requires Inv(s)
    ensures Inv(DoDrain(s))
  {
    var q := s.eng.q;
    var held := q.delivered + q.inflight;
    Queue.TakeAllKeeps(q);
    Queue.StampsConcat(s.returned, q.queued);
    assert Queue.Live(q) == held + q.queued && Queue.Live(Queue.TakeAll(q)) == held;
    Queue.StampsConcat(held, q.queued);
    QueuedIncreasing(held, q.queued);
    DistinctConcat(s.returned, q.queued);
  }

  lemma QueuedIncreasing(held: seq<Queue.Entry>, queued: seq<Queue.Entry>)
    requires Queue.Increasing(held + queued)
    ensures Queue.Increasing(queued)
  {
    forall i, j | 0 <= i < j < |queued| ensures queued[i].accepted < queued[j].accepted {
      assert (held + queued)[|held| + i].accepted < (held + queued)[|held| + j].accepted;
    }
  }

  lemma CancelKeeps(s: State, journal: bool)
    requires Inv(s)
    ensures Inv(s.(dead := true, eng := E.Step(s.eng, E.Cancel)))
    ensures Inv(s.(journalFailed := true, eng := E.Step(s.eng, E.Cancel)))
  {
  }

  lemma CloseKeeps(s: State, err: Option<Failure>)
    requires Inv(s) && InTurn(s) && E.Resting(s.eng)
    ensures Inv(Close(s, err))
  {
  }

  lemma ReturnKeeps(s: State, result: E.Result, overflow: bool)
    requires Inv(s) && s.phase.Turn? && Done(s)
    ensures Inv(DoTurnReturns(s, result, overflow))
  {
    CloseKeeps(s, ErrorOf(result));
  }

  lemma CompactFacts(s: E.State, next: seq<Message>)
    requires E.Resting(s)
    ensures var t := E.Step(E.Step(s, E.CompactTo(next)), E.Flush);
            t.mem.messages == next && t.mem.unsent == [] && t.q == s.q && t.run == s.run && t.cancelled == s.cancelled
  {
    var u := E.Step(s, E.CompactTo(next));
    assert u.mem.unsent == [Memory.Replaced(next)];
  }

  lemma ResumeKeeps(s: State)
    requires Inv(s) && s.phase.Checkpointing? && !Exhausted(s)
    ensures Inv(Resumed(s))
  {
    var u := s.(phase := Turn, recovered := true, spent := s.used,
                maxSteps := if s.limit > 0 then s.limit - s.used else s.maxSteps);
    LaunchFacts(u, None);
    FreshFacts(s.cfg.(maxSteps := u.maxSteps), |s.eng.mem.messages|);
  }

  /** Exchanging the transcript touches nothing else of a resting agent. */
  lemma ExchangeFrame(s: State, next: seq<Message>)
    requires Inv(s) && (s.phase.Overflowed? || s.phase.Checkpointing?)
    ensures var t := WithMessages(s, next);
            && t == s.(eng := t.eng) && t.eng.mem.messages == next && E.Resting(t.eng)
            && t.eng.q == s.eng.q && t.eng.run == s.eng.run
  {
    CompactFacts(s.eng, next);
  }

  lemma RestoreKeeps(s: State, before: seq<Message>, err: Option<Failure>)
    requires Inv(s) && (s.phase.Overflowed? || s.phase.Checkpointing?) && before == s.overflown
    ensures Inv(Close(WithMessages(s, before), err)) && Close(WithMessages(s, before), err).eng.mem.messages == before
  {
    ExchangeFrame(s, before);
    var t := WithMessages(s, before);
    assert Inv(t);
    CloseKeeps(t, err);
  }

  lemma CompactKeeps(s: State, next: Option<seq<Message>>)
    requires Inv(s) && s.phase.Overflowed?
    ensures Inv(DoCompact(s, s.phase.result, next))
  {
    var err := ErrorOf(s.phase.result);
    if |s.eng.mem.messages| < RECOVERY_MINIMUM {
      CloseKeeps(s, err);
    } else if next == None {
      RestoreKeeps(s, s.eng.mem.messages, err);
    } else {
      ExchangeFrame(s, next.value);
    }
  }

  lemma RecordKeeps(s: State, ok: bool)
    requires Inv(s) && s.phase.Checkpointing?
    ensures Inv(DoRecord(s, s.phase.result, s.phase.before, ok))
  {
    var err := ErrorOf(s.phase.result);
    if !ok {
      RestoreKeeps(s, s.phase.before, err);
    } else {
      var t := s.(checkpoint := Repair.Select(s.eng.mem.messages, Memory.IsTalk));
      if Exhausted(t) {
        CloseKeeps(t, err);
      } else {
        ResumeKeeps(t);
      }
    }
  }

  lemma CloseWindowKeeps(s: State)
    requires Inv(s) && s.phase.Closing?
    ensures Inv(DoClose(s, s.phase.err))
  {
    if s.phase.err == None && !s.dead && s.eng.q.queued != [] {
      BeginKeeps(s.(continuations := s.continuations + 1), None);
    }
  }

  lemma RunKeeps(s: State, prompt: Bytes)
    requires Inv(s) && (s.phase.Free? || s.phase.Ended?)
    ensures Inv(DoRun(s, prompt))
  {
    BeginKeeps(s.(running := true), if prompt == [] then None else Some(E.Prompt(prompt, [])));
  }

  lemma ThreadKeeps(s: State, a: Action)
    requires Inv(s) && (a.Steer? || a.DrainSteers? || a.CancelParent? || a.FailJournal?)
    ensures Inv(Step(s, a))
  {
    match a {
      case Steer(m) => SteerKeeps(s, m);
      case DrainSteers => DrainKeeps(s);
      case CancelParent => CancelKeeps(s, false);
      case FailJournal => CancelKeeps(s, true);
    }
  }

  lemma AgentKeeps(s: State, b: E.Action)
    requires Inv(s)
    ensures Inv(Step(s, Loop(b)))
  {
    if s.phase.Turn? && AgentStep(b) {
      LoopControl(s, b);
      LoopSteering(s, b);
    }
  }

  lemma RecoveryKeeps(s: State, a: Action)
    requires Inv(s) && (a.TurnReturns? || a.Compact? || a.Record?)
    ensures Inv(Step(s, a))
  {
    match a {
      case TurnReturns(overflow) =>
        if s.phase.Turn? && Done(s) {
          ReturnKeeps(s, s.eng.run.pc.result, overflow);
        }
      case Compact(next) =>
        if s.phase.Overflowed? {
          CompactKeeps(s, next);
        }
      case Record(ok) =>
        if s.phase.Checkpointing? {
          RecordKeeps(s, ok);
        }
    }
  }

  lemma StepKeeps(s: State, a: Action)
    requires Inv(s)
    ensures Inv(Step(s, a))
  {
    match a {
      case RunTurn(prompt) =>
        if s.phase.Free? || s.phase.Ended? {
          RunKeeps(s, prompt);
        }
      case Loop(b) => AgentKeeps(s, b);
      case CloseWindow =>
        if s.phase.Closing? {
          CloseWindowKeeps(s);
        }
      case _ =>
        if a.TurnReturns? || a.Compact? || a.Record? {
          RecoveryKeeps(s, a);
        } else {
          ThreadKeeps(s, a);
        }
    }
  }

  lemma StartKeeps(messages: seq<Message>, cfg: E.Config)
    ensures Inv(Start(messages, cfg))
  {
  }

  lemma {:induction false} Always(messages: seq<Message>, cfg: E.Config, acts: seq<Action>)
    ensures Inv(Run(messages, cfg, acts))
  {
    if acts == [] {
      StartKeeps(messages, cfg);
    } else {
      Always(messages, cfg, Init(acts));
      StepKeeps(Run(messages, cfg, Init(acts)), Last(acts));
    }
  }

  // ------------------------------------------------------------------- theorems

  /** The only way a turn ends in success. */
  predicate EndsWell(s: State) {
    s.phase == Closing(None) && !s.dead && Step(s, CloseWindow).phase == Ended(None)
  }

  /** All-or-nothing: when Run returns nil under a live context, every steer it accepted
      is in the transcript or was given back, the queue is empty, and the window is
      closed to further steers. */
  lemma SteeringIsAllOrNothing(messages: seq<Message>, cfg: E.Config, acts: seq<Action>, m: Queue.QueuedMessage)
    requires EndsWell(Run(messages, cfg, acts))
    ensures var s := Run(messages, cfg, acts + [CloseWindow]);
            && s.eng.q.queued == [] && s.eng.q.inflight == [] && !s.running
            && (forall t :: 0 <= t < s.eng.q.clock ==>
                  t in Queue.Stamps(s.eng.q.delivered) || t in Queue.Stamps(s.returned))
            && Step(s, Steer(m)) == s
  {
    Always(messages, cfg, acts + [CloseWindow]);
    assert Init(acts + [CloseWindow]) == acts;
    var s := Run(messages, cfg, acts + [CloseWindow]);
    assert s.eng.q == Run(messages, cfg, acts).eng.q;
    assert Queue.Live(s.eng.q) == s.eng.q.delivered;
  }

  /** However Run ended, draining afterwards accounts for every steer exactly once. */
  lemma DrainReportsTheRest(messages: seq<Message>, cfg: E.Config, acts: seq<Action>, t: nat)
    requires !InTurn(Run(messages, cfg, acts)) && t < Run(messages, cfg, acts).eng.q.clock
    ensures var s := Run(messages, cfg, acts + [DrainSteers]);
            && (t in Queue.Stamps(s.returned) <==> t !in Queue.Stamps(s.eng.q.delivered))
            && Distinct(s.returned) && s.eng.q.queued == []
  {
    Always(messages, cfg, acts);
    Always(messages, cfg, acts + [DrainSteers]);
    assert Init(acts + [DrainSteers]) == acts;
    var s := Run(messages, cfg, acts + [DrainSteers]);
    assert s.eng.q.inflight == [] && s.eng.q.queued == [];
    assert Queue.Live(s.eng.q) == s.eng.q.delivered;
  }

  /** The agent is continued at most once per accepted steer. */
  lemma ContinuationsAreBounded(messages: seq<Message>, cfg: E.Config, acts: seq<Action>)
    ensures var s := Run(messages, cfg, acts);
            s.continuations <= s.eng.q.clock
  {
    Always(messages, cfg, acts);
  }

  /** An explicit limit holds over both parts of a turn, the agent's own limit is the
      child's whenever no recovered part is running, and a recovered turn closes when
      its second part returns, whatever it returns. */
  lemma StepBudgetSurvivesRecovery(messages: seq<Message>, cfg: E.Config, acts: seq<Action>, overflow: bool)
    ensures var s := Run(messages, cfg, acts);
            && (s.limit > 0 ==> StepsStarted(s) <= s.limit)
            && (!(s.phase.Turn? && s.recovered) ==> s.maxSteps == s.limit)
            && (s.phase.Turn? && s.recovered && Done(s) ==> Step(s, TurnReturns(overflow)).phase.Closing?)
  {
    Always(messages, cfg, acts);
  }

  /** However long the journal write takes and whatever is steered meanwhile: without a
      summary or without its checkpoint, the turn ends on exactly the transcript the
      provider rejected; with it, memory and journal hold the same conversation. */
  lemma FailedRecoveryRestores(messages: seq<Message>, cfg: E.Config, acts: seq<Action>, next: Option<seq<Message>>, ok: bool)
    ensures var s := Run(messages, cfg, acts);
            && (s.phase.Overflowed? && (next == None || |s.overflown| < 4) ==>
                  Step(s, Compact(next)).eng.mem.messages == s.overflown && Step(s, Compact(next)).phase.Closing?)
            && (s.phase.Checkpointing? && !ok ==>
                  Step(s, Record(ok)).eng.mem.messages == s.overflown && Step(s, Record(ok)).phase.Closing?)
            && (s.phase.Checkpointing? && ok ==>
                  Step(s, Record(ok)).checkpoint == Repair.Select(Step(s, Record(ok)).eng.mem.messages, Memory.IsTalk))
  {
    Always(messages, cfg, acts);
    var s := Run(messages, cfg, acts);
    RecoveryFacts(s, next, ok);
  }

  lemma LaunchSays(s: State, prompt: Bytes)
    requires E.Resting(s.eng)
    ensures prompt == [] ==> Launch(s, None).mem.messages == s.eng.mem.messages && Launch(s, None).cancelled == (s.dead || s.journalFailed)
    ensures prompt != [] ==> Launch(s, Some(E.Prompt(prompt, []))).cancelled == (s.dead || s.journalFailed)
    ensures prompt != [] ==> Launch(s, Some(E.Prompt(prompt, []))).mem.messages
                             == s.eng.mem.messages + [Message(User, Queue.Blocks(prompt, []), [], false)]
  {
    var p := if prompt == [] then None else Some(E.Prompt(prompt, []));
    var t := E.Step(s.eng, E.Begin(p, s.cfg.(maxSteps := s.maxSteps)));
    assert t == E.DoBegin(s.eng, p, s.cfg.(maxSteps := s.maxSteps));
  }

  lemma CompactFails(s: State, next: Option<seq<Message>>)
    requires Inv(s) && s.phase.Overflowed? && (next == None || |s.overflown| < RECOVERY_MINIMUM)
    ensures Step(s, Compact(next)).eng.mem.messages == s.overflown && Step(s, Compact(next)).phase.Closing?
  {
    RestoreKeeps(s, s.overflown, ErrorOf(s.phase.result));
  }

  lemma RecordFails(s: State)
    requires Inv(s) && s.phase.Checkpointing?
    ensures Step(s, Record(false)).eng.mem.messages == s.overflown && Step(s, Record(false)).phase.Closing?
  {
    RestoreKeeps(s, s.overflown, ErrorOf(s.phase.result));
  }

  lemma RecordSucceeds(s: State)
    requires Inv(s) && s.phase.Checkpointing?
    ensures var t := Step(s, Record(true)); t.checkpoint == Repair.Select(t.eng.mem.messages, Memory.IsTalk)
  {
    LaunchKeepsMessages(s.(checkpoint := Repair.Select(s.eng.mem.messages, Memory.IsTalk)));
  }

  lemma RecoveryFacts(s: State, next: Option<seq<Message>>, ok: bool)
    requires Inv(s)
    ensures s.phase.Overflowed? && (next == None || |s.overflown| < RECOVERY_MINIMUM) ==>
              Step(s, Compact(next)).eng.mem.messages == s.overflown && Step(s, Compact(next)).phase.Closing?
    ensures s.phase.Checkpointing? && !ok ==>
              Step(s, Record(ok)).eng.mem.messages == s.overflown && Step(s, Record(ok)).phase.Closing?
    ensures s.phase.Checkpointing? && ok ==>
              Step(s, Record(ok)).checkpoint == Repair.Select(Step(s, Record(ok)).eng.mem.messages, Memory.IsTalk)
  {
    if s.phase.Overflowed? && (next == None || |s.overflown| < RECOVERY_MINIMUM) {
      CompactFails(s, next);
    } else if s.phase.Checkpointing? && ok {
      RecordSucceeds(s);
    } else if s.phase.Checkpointing? {
      RecordFails(s);
    }
  }

  lemma LaunchKeepsMessages(s: State)
    requires E.Resting(s.eng)
    ensures Resumed(s).eng.mem.messages == s.eng.mem.messages && Resumed(s).checkpoint == s.checkpoint
  {
  }
}
