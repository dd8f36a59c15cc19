/** Bounds and order within one run: retries, step numbers, recovery, the events the
    host sees, and which calls of a batch run. */
module EngineRuns {
  import opened Transcript
  import opened Engine
  import Memory
  import Queue

  // ------------------------------------------------------------------ the trace

  function Started(trace: seq<Event>): nat {
    if trace == [] then 0 else Started(Init(trace)) + if Last(trace).TurnStart? then 1 else 0
  }

  /** What the events before `e` must be for `e` to be allowed. */
  predicate Allowed(before: seq<Event>, e: Event) {
    && Done !in before
    && match e {
         case TurnStart(step) => step == Started(before) + 1
         case RequestStarted(attempt, limit) => 1 <= attempt <= limit
         case RequestFailed(attempt, limit) => 1 <= attempt <= limit
         case RetryScheduled(attempt, limit, _) => 1 <= attempt <= limit
         case TurnRecovery => TurnRecovery !in before && ToolDenied !in before
         case _ => true
       }
  }

  ghost predicate WellFormed(trace: seq<Event>) {
    trace == [] || (WellFormed(Init(trace)) && Allowed(Init(trace), Last(trace)))
  }

  lemma Snoc(trace: seq<Event>, e: Event)
    ensures WellFormed(trace + [e]) <==> WellFormed(trace) && Allowed(trace, e)
    ensures Started(trace + [e]) == Started(trace) + if e.TurnStart? then 1 else 0
    ensures forall x :: x in trace + [e] <==> x in trace || x == e
  {
    assert Init(trace + [e]) == trace;
  }

  lemma {:induction false} AllowedAt(trace: seq<Event>, i: nat)
    requires WellFormed(trace) && i < |trace|
    ensures Allowed(trace[..i], trace[i])
  {
    if i < |trace| - 1 {
      AllowedAt(Init(trace), i);
      assert Init(trace)[..i] == trace[..i];
    }
  }

  // ------------------------------------------------------------------ the retries

  /** Time slept before `n` transient retries; a wrapped-around delay is no delay. */
  function Slept(cfg: Config, n: nat): nat {
    if n == 0 then 0 else Slept(cfg, n - 1) + Max(RetryDelay(cfg, n - 1), 0)
  }

  predicate Attempting(pc: Pc) {
    pc.Calling? || pc.Retrying? || pc.Sleeping? || pc.Woken? || pc == Delivering(true)
  }

  ghost predicate RetryInv(r: RunState) {
    && r.idle <= Max(r.cfg.maxIdleRetries, 0)
    && r.transient <= Max(r.cfg.maxRetries, 0)
    && r.maxAttempts == FirstMax(r.cfg) + r.idle
    && r.attempts <= r.idle + r.transient + (if Attempting(r.pc) then 0 else 1)
    && (r.pc.Judging? ==> r.attempts >= 1)
    && (match r.pc {
          case Retrying(delay) => r.backoff + Max(delay, 0) == Slept(r.cfg, r.transient)
          case Returned(_) => r.backoff <= Slept(r.cfg, r.transient)
          case _ => r.backoff == Slept(r.cfg, r.transient)
        })
  }

  // ------------------------------------------------------------------ the steps

  predicate BeforeGate(pc: Pc) {
    pc == Top || pc == Delivering(false)
  }

  ghost predicate StepInv(r: RunState) {
    && r.step >= 1
    && Started(r.trace) == (if BeforeGate(r.pc) then r.step - 1 else r.step)
    && (0 < r.cfg.maxSteps && r.pc != Top ==> r.step <= r.cfg.maxSteps)
    && (0 < r.cfg.maxSteps ==> r.step <= r.cfg.maxSteps + 1)
  }

  ghost predicate Open(r: RunState) {
    && WellFormed(r.trace)
    && Done !in r.trace
    && (TurnRecovery in r.trace <==> r.recovered)
    && (ToolDenied in r.trace <==> r.denied)
    && (r.pc.Recovering? ==> !r.recovered && !r.denied)
    && StepInv(r)
  }

  /** A run that ended; an error or a cancellation between attempts ends it without
      the closing event. */
  ghost predicate Closed(r: RunState, result: Result) {
    && WellFormed(r.trace)
    && (0 < r.cfg.maxSteps ==> Started(r.trace) <= r.cfg.maxSteps)
    && (result.Failed? || result.CtxDone? || (r.trace != [] && Last(r.trace) == Done))
    && (result.Incomplete? ==> TurnRecovery in r.trace && ToolDenied !in r.trace)
    && (result.StepLimit? ==> 0 < r.cfg.maxSteps && Started(r.trace) == r.cfg.maxSteps)
  }

  ghost predicate RunInv(r: RunState) {
    && RetryInv(r)
    && match r.pc {
         case Idle => r.trace == []
         case Returned(result) => Closed(r, result)
         case _ => Open(r)
       }
  }

  // ---------------------------------------------------------------- small steps

  lemma FinishKeeps(s: State, result: Result)
    requires RetryInv(s.run) && !s.run.pc.Retrying? && Open(s.run)
    requires result.Incomplete? ==> s.run.recovered && !s.run.denied
    requires result.StepLimit? <==> s.run.pc == Top && 0 < s.run.cfg.maxSteps < s.run.step
    ensures RunInv(Finish(s, result).run)
  {
    Snoc(s.run.trace, Done);
  }

  /** Events that need nothing of the events before them. */
  predicate Plain(e: Event) {
    e.TurnEnd? || e.RepetitionGuard?
  }

  lemma PlainKeeps(s: State, e: Event)
    requires Open(s.run) && Plain(e)
    ensures Open(Emit(s, e).run)
  {
    Snoc(s.run.trace, e);
  }

  lemma AttemptKeeps(s: State, e: Event)
    requires Open(s.run)
    requires e.RequestStarted? || e.RequestFailed? || e.RetryScheduled?
    requires 1 <= e.attempt <= e.maxAttempts
    ensures Open(Emit(s, e).run)
  {
    Snoc(s.run.trace, e);
  }

  /** A step past the gate that emits nothing. */
  lemma OpenFrame(r: RunState, t: RunState)
    requires Open(r) && !BeforeGate(r.pc) && !BeforeGate(t.pc)
    requires t.trace == r.trace && t.step == r.step && t.cfg == r.cfg && t.recovered == r.recovered && t.denied == r.denied
    requires t.pc.Recovering? ==> !t.recovered && !t.denied
    ensures Open(t)
  {
  }

  predicate Settling(pc: Pc) {
    pc.Continuing? || pc.Counting? || pc.Weighing? || pc.Running? || pc.Sent? || pc.Observing? || pc.Ending?
    || pc.EndCounting? || pc.Closing?
  }

  /** From one program point after the attempts to another. */
  lemma MoveKeeps(r: RunState, pc: Pc)
    requires RunInv(r) && (Settling(r.pc) || r.pc.Judging?)
    requires Settling(pc) || (pc.Recovering? && !r.recovered && !r.denied)
    ensures RunInv(r.(pc := pc))
  {
    OpenFrame(r, r.(pc := pc));
  }

  lemma ClosedFrame(r: RunState, t: RunState, result: Result)
    requires Open(r) && !BeforeGate(r.pc)
    requires t.trace == r.trace && t.cfg == r.cfg && (result.Failed? || result.CtxDone?)
    ensures Closed(t, result)
  {
  }

  /** The next step, from a program point past the gate. */
  lemma NextStepKeeps(s: State)
    requires RetryInv(s.run) && !s.run.pc.Retrying? && !s.run.pc.Returned? && Open(s.run) && !BeforeGate(s.run.pc)
    ensures RunInv(NextStep(s).run)
  {
  }

  lemma EnterKeeps(s: State)
    requires RunInv(s.run) && s.run.pc == Top
    ensures RunInv(DoEnter(s).run)
  {
    if 0 < s.run.cfg.maxSteps < s.run.step {
      FinishKeeps(s, StepLimit);
    }
  }

  lemma TurnStartFits(trace: seq<Event>, step: int)
    requires WellFormed(trace) && Done !in trace && step == Started(trace) + 1
    ensures var longer := trace + [TurnStart(step)];
            && WellFormed(longer) && Done !in longer && Started(longer) == step
            && (TurnRecovery in longer <==> TurnRecovery in trace)
            && (ToolDenied in longer <==> ToolDenied in trace)
  {
    Snoc(trace, TurnStart(step));
  }

  lemma TurnStartKeeps(r: RunState)
    requires Open(r) && r.pc == Delivering(false)
    ensures Open(r.(trace := r.trace + [TurnStart(r.step)], pc := Hooks))
  {
    TurnStartFits(r.trace, r.step);
  }

  lemma GateKeeps(s: State, stopped: bool)
    requires RunInv(s.run) && s.run.pc == Delivering(false)
    ensures RunInv(DoGate(s, stopped).run)
  {
    if stopped {
      FinishKeeps(s, Repetitive);
    } else {
      TurnStartKeeps(s.run);
    }
  }

  lemma HookKeeps(s: State, allowed: bool)
    requires RunInv(s.run) && s.run.pc == Hooks
    ensures RunInv(DoHook(s, allowed).run)
  {
    if !allowed {
      PlainKeeps(s, TurnEnd(StopError, Some(Permanent)));
      FinishKeeps(Emit(s, TurnEnd(StopError, Some(Permanent))), Finished);
    }
  }

  lemma CallFrame(s: State, o: Outcome)
    ensures var r, t := s.run, DoCall(s, o).run;
            && t.step == r.step && t.cfg == r.cfg && t.recovered == r.recovered && t.denied == r.denied
            && t.idle == r.idle && t.transient == r.transient && t.maxAttempts == r.maxAttempts && t.backoff == r.backoff
            && t.attempts == r.attempts + 1 && t.pc == Judging(o)
            && t.trace == r.trace + [RequestStarted(r.attempts + 1, r.maxAttempts)]
  {
  }

  lemma CallKeeps(s: State, o: Outcome)
    requires RunInv(s.run) && s.run.pc == Calling
    ensures RunInv(DoCall(s, o).run)
  {
    var e := RequestStarted(s.run.attempts + 1, s.run.maxAttempts);
    AttemptKeeps(s, e);
    CallFrame(s, o);
    OpenFrame(Emit(s, e).run, DoCall(s, o).run);
  }

  lemma FailRetries(s: State, e: Error)
    requires RetryInv(s.run) && s.run.pc.Judging?
    ensures RetryInv(Fail(s, e).run)
  {
  }

  lemma FailFrame(s: State, e: Error)
    ensures var r, t := s.run, Fail(s, e).run;
            && t.trace == r.trace && t.step == r.step && t.cfg == r.cfg && t.recovered == r.recovered && t.denied == r.denied
            && (t.pc.Retrying? || t.pc == Returned(Failed(e)) || t.pc == Returned(CtxDone))
  {
  }

  lemma FailKeeps(s: State, e: Error)
    requires RunInv(s.run) && s.run.pc.Judging?
    ensures RunInv(Fail(s, e).run)
  {
    var t := Fail(s, e).run;
    FailRetries(s, e);
    FailFrame(s, e);
    if t.pc.Retrying? {
      OpenFrame(s.run, t);
    } else {
      ClosedFrame(s.run, t, t.pc.result);
    }
  }

  lemma SucceedFrame(s: State, o: Outcome)
    ensures var r, t := s.run, Succeed(s, o).run;
            && t.trace == r.trace && t.step == r.step && t.cfg == r.cfg && t.recovered == r.recovered && t.denied == r.denied
            && t.idle == r.idle && t.transient == r.transient && t.attempts == r.attempts && t.maxAttempts == r.maxAttempts
            && t.backoff == r.backoff
            && (t.pc.Continuing? || t.pc.Running? || t.pc.Ending?)
  {
  }

  lemma SucceedKeeps(s: State, o: Outcome)
    requires RunInv(s.run) && s.run.pc.Judging?
    ensures RunInv(Succeed(s, o).run)
  {
    SucceedFrame(s, o);
    OpenFrame(s.run, Succeed(s, o).run);
  }

  lemma JudgeKeeps(s: State, o: Outcome)
    requires RunInv(s.run) && s.run.pc.Judging?
    ensures RunInv(DoJudge(s, o).run)
  {
    var t := Emit(s, TurnEnd(o.stop, o.err));
    PlainKeeps(s, TurnEnd(o.stop, o.err));
    match o.err {
      case None => SucceedKeeps(t, o);
      case Some(e) =>
        AttemptKeeps(t, RequestFailed(s.run.attempts, s.run.maxAttempts));
        FailKeeps(if e == Cancelled then t else Emit(t, RequestFailed(s.run.attempts, s.run.maxAttempts)), e);
    }
  }

  lemma ScheduleRetries(s: State, delay: int)
    requires RetryInv(s.run) && s.run.pc == Retrying(delay)
    ensures RetryInv(DoSchedule(s, delay).run)
  {
  }

  lemma ScheduleFrame(s: State, delay: int)
    ensures var r, t := s.run, DoSchedule(s, delay).run;
            && t.step == r.step && t.cfg == r.cfg && t.recovered == r.recovered && t.denied == r.denied
            && if s.cancelled then t.trace == r.trace && t.pc == Returned(CtxDone)
               else t.trace == r.trace + [RetryScheduled(r.attempts + 1, r.maxAttempts, delay)] && t.pc == Sleeping(delay)
  {
  }

  lemma ScheduleKeeps(s: State, delay: int)
    requires RunInv(s.run) && s.run.pc == Retrying(delay)
    ensures RunInv(DoSchedule(s, delay).run)
  {
    var t := DoSchedule(s, delay).run;
    ScheduleRetries(s, delay);
    ScheduleFrame(s, delay);
    if s.cancelled {
      ClosedFrame(s.run, t, CtxDone);
    } else {
      var e := RetryScheduled(s.run.attempts + 1, s.run.maxAttempts, delay);
      AttemptKeeps(s, e);
      OpenFrame(Emit(s, e).run, t);
    }
  }

  lemma WakeKeeps(s: State, delay: int, noticed: bool)
    requires RunInv(s.run) && s.run.pc == Sleeping(delay)
    ensures RunInv(DoWake(s, delay, noticed).run)
  {
    var t := DoWake(s, delay, noticed).run;
    if t.pc.Returned? {
      ClosedFrame(s.run, t, CtxDone);
    } else {
      OpenFrame(s.run, t);
    }
  }

  lemma VerdictKeeps(s: State, v: Verdict)
    requires RunInv(s.run) && (s.run.pc.Weighing? || s.run.pc.Observing? || s.run.pc.Closing?)
    ensures RunInv(DoVerdict(s, v).run)
    ensures v != Halted ==> DoVerdict(s, v).run.pc == s.run.pc
  {
    PlainKeeps(s, RepetitionGuard(false));
    PlainKeeps(s, RepetitionGuard(true));
    FinishKeeps(Emit(s, RepetitionGuard(true)), Repetitive);
  }

  lemma WeighKeeps(s: State, v: Verdict)
    requires RunInv(s.run) && (s.run.pc.Weighing? || s.run.pc.Closing?)
    ensures RunInv(DoWeigh(s, v).run)
  {
    VerdictKeeps(s, v);
    if v != Halted {
      NextStepKeeps(DoVerdict(s, v));
    }
  }

  lemma FinishCallFrame(s: State, out: ToolOutcome, rejected: Option<Bytes>)
    ensures var r, t := s.run, DoFinishCall(s, out, rejected).run;
            && t.step == r.step && t.cfg == r.cfg && t.recovered == r.recovered && t.pc == r.pc
            && t.idle == r.idle && t.transient == r.transient && t.attempts == r.attempts && t.maxAttempts == r.maxAttempts
            && t.backoff == r.backoff
            && ((t.trace == r.trace && t.denied == r.denied) || (t.trace == r.trace + [ToolDenied] && t.denied))
  {
  }

  lemma DeniedKeeps(r: RunState, t: RunState)
    requires Open(r) && r.pc.Running? && t.pc == r.pc
    requires t.trace == r.trace + [ToolDenied] && t.denied
    requires t.step == r.step && t.cfg == r.cfg && t.recovered == r.recovered
    ensures Open(t)
  {
    Snoc(r.trace, ToolDenied);
  }

  lemma FinishCallKeeps(s: State, out: ToolOutcome, rejected: Option<Bytes>)
    requires RunInv(s.run) && s.run.pc.Running?
    ensures RunInv(DoFinishCall(s, out, rejected).run)
  {
    var t := DoFinishCall(s, out, rejected).run;
    FinishCallFrame(s, out, rejected);
    if t.trace == s.run.trace {
      OpenFrame(s.run, t);
    } else {
      DeniedKeeps(s.run, t);
    }
  }

  /** The one continuation a run may get. */
  lemma RecoveryKeeps(r: RunState)
    requires Open(r) && r.pc.Recovering?
    ensures Open(r.(trace := r.trace + [TurnRecovery], recovered := true, pc := Top, step := r.step + 1))
  {
    Snoc(r.trace, TurnRecovery);
  }

  lemma RecoverKeeps(s: State)
    requires RunInv(s.run) && s.run.pc.Recovering?
    ensures RunInv(DoLook(s).run)
  {
    if s.cancelled {
      FinishKeeps(s, CtxDone);
    } else {
      RecoveryKeeps(s.run);
    }
  }

  lemma EndTurnKeeps(s: State, stop: Stop, v: Verdict, incomplete: bool)
    requires RunInv(s.run) && s.run.pc == Closing(stop)
    ensures RunInv(DoEndTurn(s, stop, v, incomplete).run)
  {
    FinishKeeps(s, Finished);
    if stop == StopEnd && !s.run.denied {
      WeighKeeps(s, v);
      if s.run.recovered {
        FinishKeeps(s, Result.Incomplete);
      } else {
        MoveKeeps(s.run, Recovering);
      }
    }
  }

  predicate Reading(pc: Pc) {
    pc.Continuing? || pc.Ending? || pc.Counting? || pc.EndCounting?
  }

  /** Reading the context or the queue emits nothing. */
  lemma LookKeeps(s: State)
    requires RunInv(s.run) && (s.run.pc.Continuing? || s.run.pc.Ending?)
    ensures RunInv(DoLook(s).run)
  {
    if s.run.pc.Ending? {
      MoveKeeps(s.run, DoLook(s).run.pc);
    } else if s.cancelled {
      FinishKeeps(s, CtxDone);
    } else {
      MoveKeeps(s.run, Counting);
    }
  }

  lemma CountKeeps(s: State)
    requires RunInv(s.run) && (s.run.pc.Counting? || s.run.pc.EndCounting?)
    ensures RunInv(DoCount(s).run)
  {
    if s.q.queued == [] {
      MoveKeeps(s.run, DoCount(s).run.pc);
    } else {
      NextStepKeeps(s);
    }
  }

  // -------------------------------------------------------------- all the steps

  lemma OpeningKeeps(s: State, a: Action)
    requires RunInv(s.run) && (s.run.pc.Top? || s.run.pc.Delivering?)
    ensures RunInv(Advance(s, a).run)
  {
    if s.run.pc.Top? {
      EnterKeeps(s);
    } else if !s.run.pc.retry && a.Gate? {
      GateKeeps(s, a.stopped);
    }
  }

  lemma AskingKeeps(s: State, a: Action)
    requires RunInv(s.run) && (s.run.pc.Hooks? || s.run.pc.Composing? || s.run.pc.Calling?)
    ensures RunInv(Advance(s, a).run)
  {
    if s.run.pc.Hooks? {
      if a.Hook? {
        HookKeeps(s, a.allowed);
      }
    } else if s.run.pc.Calling? && a.Call? {
      CallKeeps(s, a.outcome);
    }
  }

  lemma EntryKeeps(s: State, a: Action)
    requires RunInv(s.run)
    requires s.run.pc.Top? || s.run.pc.Delivering? || s.run.pc.Hooks? || s.run.pc.Composing? || s.run.pc.Calling?
    ensures RunInv(Advance(s, a).run)
  {
    if s.run.pc.Top? || s.run.pc.Delivering? {
      OpeningKeeps(s, a);
    } else {
      AskingKeeps(s, a);
    }
  }

  lemma AttemptStepKeeps(s: State, a: Action)
    requires RunInv(s.run)
    requires s.run.pc.Judging? || s.run.pc.Retrying? || s.run.pc.Sleeping? || s.run.pc.Woken?
    ensures RunInv(Advance(s, a).run)
  {
    match s.run.pc {
      case Judging(o) => JudgeKeeps(s, o);
      case Retrying(delay) => ScheduleKeeps(s, delay);
      case Sleeping(delay) =>
        if a.Wake? {
          WakeKeeps(s, delay, a.noticed);
        }
      case _ =>
        OpenFrame(s.run, At(s, Delivering(true)).run);
    }
  }

  lemma ReadingKeeps(s: State, a: Action)
    requires RunInv(s.run) && Reading(s.run.pc)
    ensures RunInv(Advance(s, a).run)
  {
    if s.run.pc.Continuing? || s.run.pc.Ending? {
      LookKeeps(s);
    } else {
      CountKeeps(s);
    }
  }

  lemma DecidingKeeps(s: State, a: Action)
    requires RunInv(s.run) && (s.run.pc.Weighing? || s.run.pc.Closing? || s.run.pc.Recovering?)
    ensures RunInv(Advance(s, a).run)
  {
    if s.run.pc.Recovering? {
      RecoverKeeps(s);
    } else if s.run.pc.Weighing? && a.Observe? {
      WeighKeeps(s, a.verdict);
    } else if s.run.pc.Closing? && a.EndTurn? {
      EndTurnKeeps(s, s.run.pc.stop, a.verdict, a.incomplete);
    }
  }

  lemma StartCallKeeps(s: State)
    requires RunInv(s.run) && s.run.pc.Running?
    ensures RunInv(DoStartCall(s).run)
  {
    OpenFrame(s.run, DoStartCall(s).run);
  }

  lemma BatchDoneKeeps(s: State)
    requires RunInv(s.run) && s.run.pc.Running?
    ensures RunInv(DoBatchDone(s).run)
  {
    OpenFrame(s.run, DoBatchDone(s).run);
  }

  lemma RunningKeeps(s: State, a: Action)
    requires RunInv(s.run) && s.run.pc.Running?
    ensures RunInv(Advance(s, a).run)
  {
    if a.FinishCall? {
      FinishCallKeeps(s, a.out, a.rejected);
    } else if a == StartCall {
      StartCallKeeps(s);
    } else {
      BatchDoneKeeps(s);
    }
  }

  lemma ObservingKeeps(s: State, a: Action)
    requires RunInv(s.run) && s.run.pc.Observing?
    ensures RunInv(Advance(s, a).run)
  {
    NextStepKeeps(s);
    if a.Observe? {
      VerdictKeeps(s, a.verdict);
    }
  }

  lemma AfterToolsKeeps(s: State, a: Action)
    requires RunInv(s.run) && (s.run.pc.Sent? || s.run.pc.Observing?)
    ensures RunInv(Advance(s, a).run)
  {
    if s.run.pc.Sent? {
      if s.cancelled {
        FinishKeeps(s, CtxDone);
      } else {
        MoveKeeps(s.run, Observing);
      }
    } else {
      ObservingKeeps(s, a);
    }
  }

  lemma FreshRunKeeps(cfg: Config, base: nat)
    ensures RunInv(FreshRun(Top, cfg, base))
  {
  }

  lemma HostKeepsRun(s: State, a: Action)
    requires RunInv(s.run) && !ByLoop(a)
    ensures RunInv(Step(s, a).run)
  {
    if a.Begin? {
      FreshRunKeeps(a.cfg, |s.mem.messages|);
    }
  }

  lemma StepKeepsRun(s: State, a: Action)
    requires RunInv(s.run)
    ensures RunInv(Step(s, a).run)
  {
    if !ByLoop(a) {
      HostKeepsRun(s, a);
    } else if s.run.pc.Running? {
      RunningKeeps(s, a);
    } else if s.run.pc.Sent? || s.run.pc.Observing? {
      AfterToolsKeeps(s, a);
    } else if s.run.pc.Top? || s.run.pc.Delivering? || s.run.pc.Hooks? || s.run.pc.Composing? || s.run.pc.Calling? {
      EntryKeeps(s, a);
    } else if Reading(s.run.pc) {
      ReadingKeeps(s, a);
    } else if s.run.pc.Weighing? || s.run.pc.Closing? || s.run.pc.Recovering? {
      DecidingKeeps(s, a);
    } else if !s.run.pc.Idle? && !s.run.pc.Returned? {
      AttemptStepKeeps(s, a);
    }
  }

  lemma {:induction false} RunKeepsRun(messages: seq<Message>, acts: seq<Action>)
    ensures RunInv(Run(messages, acts).run)
  {
    if acts != [] {
      RunKeepsRun(messages, Init(acts));
      StepKeepsRun(Run(messages, Init(acts)), Last(acts));
    }
  }

  // ------------------------------------------------------------------- theorems

  /** Whatever the provider, the tools and the host do: step numbers are consecutive
      from 1 and stay within a positive limit; no attempt is reported beyond its
      reported maximum; recovery happens at most once and never after a denied call;
      nothing follows the closing event. */
  lemma TracesAreClosed(messages: seq<Message>, acts: seq<Action>, i: nat)
    requires i < |Run(messages, acts).run.trace|
    ensures var trace := Run(messages, acts).run.trace;
            && Allowed(trace[..i], trace[i])
            && Started(trace[..i]) <= Started(trace)
            && (0 < Run(messages, acts).run.cfg.maxSteps ==> Started(trace) <= Run(messages, acts).run.cfg.maxSteps)
  {
    RunKeepsRun(messages, acts);
    var trace := Run(messages, acts).run.trace;
    AllowedAt(trace, i);
    StartedGrows(trace, i);
  }

  lemma {:induction false} StartedGrows(trace: seq<Event>, i: nat)
    requires i <= |trace|
    ensures Started(trace[..i]) <= Started(trace)
  {
    if i < |trace| {
      StartedGrows(Init(trace), i);
      assert Init(trace)[..i] == trace[..i];
    } else {
      assert trace[..i] == trace;
    }
  }

  /** How a run may end: with the closing event unless an error or a cancellation cut
      it short, incomplete only after its one recovery, and at the step limit only
      when every step was used. */
  lemma Endings(messages: seq<Message>, acts: seq<Action>)
    requires Run(messages, acts).run.pc.Returned?
    ensures var r := Run(messages, acts).run;
            && (r.pc.result.Failed? || r.pc.result.CtxDone? || (r.trace != [] && Last(r.trace) == Done))
            && (r.pc.result.Incomplete? ==> TurnRecovery in r.trace && ToolDenied !in r.trace)
            && (r.pc.result.StepLimit? ==> Started(r.trace) == r.cfg.maxSteps > 0)
  {
    RunKeepsRun(messages, acts);
  }

  /** One step's attempts and back-off stay within what the configuration allows. */
  lemma RetriesAreBounded(messages: seq<Message>, acts: seq<Action>)
    ensures var r := Run(messages, acts).run;
            && r.attempts <= 1 + Max(r.cfg.maxRetries, 0) + Max(r.cfg.maxIdleRetries, 0)
            && r.backoff <= BaseDelay(r.cfg) * (Pow2(Max(r.cfg.maxRetries, 0)) - 1)
  {
    RunKeepsRun(messages, acts);
    var r := Run(messages, acts).run;
    var n := Max(r.cfg.maxRetries, 0);
    SleptGrows(r.cfg, r.transient, n);
    SleptBound(r.cfg, n);
    assert r.backoff <= Slept(r.cfg, r.transient);
  }

  lemma {:induction false} SleptGrows(cfg: Config, m: nat, n: nat)
    requires m <= n
    ensures Slept(cfg, m) <= Slept(cfg, n)
    decreases n
  {
    if m < n {
      SleptGrows(cfg, m, n - 1);
    }
  }

  lemma WrapIsLower(x: int)
    requires x >= 0
    ensures Wrap64(x) <= x
    ensures x < 0x8000_0000_0000_0000 ==> Wrap64(x) == x
  {
  }

  lemma AtLeast(base: int, p: int)
    requires base >= 1 && p >= 0
    ensures base * p >= p
  {
  }

  /** A 64-bit reading of a whole number: the one value in range that is as far from it as
      a multiple of 2^64. */
  lemma WrapIs(x: int) returns (k: int)
    ensures Wrap64(x) == x - k * 0x1_0000_0000_0000_0000
    ensures -0x8000_0000_0000_0000 <= Wrap64(x) < 0x8000_0000_0000_0000
  {
    k := (x + 0x8000_0000_0000_0000) / 0x1_0000_0000_0000_0000;
  }

  lemma Distributes(a: int, b: int, k: int, m: int)
    ensures a * (b - k * m) == a * b - (a * k) * m
  {
    assert a * (b - k * m) == a * b - a * (k * m);
    assert a * (k * m) == (a * k) * m;
  }

  /** The n-th delay is the 64-bit reading of the base times 2^n, overflow or not. */
  lemma DelayWraps(cfg: Config, n: nat) returns (k: int)
    ensures RetryDelay(cfg, n) == BaseDelay(cfg) * Pow2(n) - k * 0x1_0000_0000_0000_0000
    ensures -0x8000_0000_0000_0000 <= RetryDelay(cfg, n) < 0x8000_0000_0000_0000
  {
    var j := WrapIs(Pow2(n));
    var i := WrapIs(BaseDelay(cfg) * Wrap64(Pow2(n)));
    Distributes(BaseDelay(cfg), Pow2(n), j, 0x1_0000_0000_0000_0000);
    k := BaseDelay(cfg) * j + i;
  }

  /** The delay is the doubled base, or less when 64 bits are not enough. */
  lemma DelayBound(cfg: Config, k: nat)
    ensures BaseDelay(cfg) == if cfg.retryBaseDelay > 0 then cfg.retryBaseDelay else 2_000_000_000
    ensures Max(RetryDelay(cfg, k), 0) <= BaseDelay(cfg) * Pow2(k)
    ensures BaseDelay(cfg) * Pow2(k) < 0x8000_0000_0000_0000 ==> RetryDelay(cfg, k) == BaseDelay(cfg) * Pow2(k)
  {
    AtLeast(BaseDelay(cfg), Pow2(k));
    WrapIsLower(Pow2(k));
    if Pow2(k) < 0x8000_0000_0000_0000 {
      WrapIsLower(BaseDelay(cfg) * Pow2(k));
    }
  }

  lemma Doubled(base: int, p: int)
    ensures base * (2 * p - 1) == base * (p - 1) + base * p
  {
  }

  lemma {:induction false} SleptBound(cfg: Config, n: nat)
    ensures Slept(cfg, n) <= BaseDelay(cfg) * (Pow2(n) - 1)
  {
    if n == 0 {
      assert Pow2(0) - 1 == 0;
    } else {
      SleptBound(cfg, n - 1);
      DelayBound(cfg, n - 1);
      Doubled(BaseDelay(cfg), Pow2(n - 1));
    }
  }

  lemma Halved(base: int, p: int, limit: int)
    requires base >= 1 && p >= 0 && base * (2 * p) < limit
    ensures base * p < limit
  {
  }

  /** Without overflow the doubling is exact. */
  lemma {:induction false} SleptExact(cfg: Config, n: nat)
    requires n == 0 || BaseDelay(cfg) * Pow2(n - 1) < 0x8000_0000_0000_0000
    ensures Slept(cfg, n) == BaseDelay(cfg) * (Pow2(n) - 1)
  {
    if n == 0 {
      assert Pow2(0) - 1 == 0;
    } else {
      if n > 1 {
        Halved(BaseDelay(cfg), Pow2(n - 2), 0x8000_0000_0000_0000);
      }
      SleptExact(cfg, n - 1);
      DelayBound(cfg, n - 1);
      AtLeast(BaseDelay(cfg), Pow2(n - 1));
      Doubled(BaseDelay(cfg), Pow2(n - 1));
    }
  }

  /** While an attempt is judged, the time slept so far in this step is that of the
      transient retries already made, no more and no less. */
  lemma BackoffIsExact(messages: seq<Message>, acts: seq<Action>)
    requires Run(messages, acts).run.pc.Judging?
    ensures var r := Run(messages, acts).run;
            && r.backoff == Slept(r.cfg, r.transient)
            && r.attempts <= 1 + r.idle + r.transient
  {
    RunKeepsRun(messages, acts);
  }
}
