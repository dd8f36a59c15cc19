/** The order of the events a host sees (packages/core/agent.go:683-842, 900-935 and
    1203-1290): over every run, whatever happens, each event may only follow what it can
    follow, attempts are numbered without gaps, every maximum and every back-off is the
    one the failures before it call for, and the last event tells where the loop stands. */
module EngineEvents {
  import opened Transcript
  import opened Engine
  import EngineRuns

  // ------------------------------------------------------- counts of the current step

  function Tries(trace: seq<Event>): nat {
    if trace == [] || Last(trace).TurnStart? then 0
    else Tries(Init(trace)) + if Last(trace).RequestStarted? then 1 else 0
  }

  /** Attempts of the current step that ended with this error. */
  function Ends(trace: seq<Event>, e: Error): nat {
    if trace == [] || Last(trace).TurnStart? then 0
    else Ends(Init(trace), e) + if Last(trace).TurnEnd? && Last(trace).err == Some(e) then 1 else 0
  }

  /** One attempt and the retries allowed, and one more for each timeout of the stream. */
  function Limit(cfg: Config, trace: seq<Event>): int {
    1 + (if cfg.maxRetries > 0 then cfg.maxRetries else 0) + Ends(trace, IdleTimeout)
  }

  // ----------------------------------------------------------------------- the order

  /** A reply was taken, and perhaps its calls run and its repetition remarked on. */
  predicate Settled(trace: seq<Event>) {
    trace != [] && ((Last(trace).TurnEnd? && Last(trace).err == None) || Last(trace) == ToolDenied || Last(trace) == RepetitionGuard(false))
  }

  /** Between two steps. */
  predicate Between(trace: seq<Event>) {
    trace == [] || Settled(trace) || Last(trace) == TurnRecovery
  }

  predicate ToolsMayRun(trace: seq<Event>) {
    trace != [] && (Last(trace) == TurnEnd(StopToolUse, None) || Last(trace) == ToolDenied)
  }

  /** An attempt may begin: the first of its step, or one announced. */
  predicate MayAttempt(trace: seq<Event>) {
    trace != [] && (Last(trace).TurnStart? || Last(trace).RetryScheduled?)
  }

  /** The newest attempt failed with this error. */
  predicate FailedWith(trace: seq<Event>, e: Error) {
    |trace| >= 2 && Last(trace).RequestFailed? && trace[|trace| - 2].TurnEnd? && trace[|trace| - 2].err == Some(e)
  }

  /** How long to wait after such a failure: a timeout was waiting enough. */
  function DelayAfter(cfg: Config, trace: seq<Event>): int
    requires FailedWith(trace, IdleTimeout) || FailedWith(trace, Transient)
  {
    if FailedWith(trace, IdleTimeout) then 0 else RetryDelay(cfg, Ends(trace[..|trace| - 2], Transient))
  }

  /** What the events before `e` must be. */
  predicate Fits(cfg: Config, before: seq<Event>, e: Event) {
    match e
    case TurnStart(_) => Between(before)
    case RequestStarted(n, max) => MayAttempt(before) && n == Tries(before) + 1 && max == Limit(cfg, before)
    case TurnEnd(stop, err) =>
      before != [] && (Last(before).RequestStarted? || (Last(before).TurnStart? && e == TurnEnd(StopError, Some(Permanent))))
    case RequestFailed(n, max) =>
      && |before| >= 2 && Last(before).TurnEnd? && Last(before).err.Some? && Last(before).err.value != Cancelled
      && before[|before| - 2] == RequestStarted(n, max)
    case RetryScheduled(n, max, delay) =>
      && (FailedWith(before, IdleTimeout) || FailedWith(before, Transient)) && delay == DelayAfter(cfg, before)
      && n == Tries(before) + 1 && max == Limit(cfg, before)
    case ToolDenied => ToolsMayRun(before)
    case RepetitionGuard(_) => Settled(before)
    case TurnRecovery => before != [] && Last(before) == TurnEnd(StopEnd, None)
    case Done =>
      Between(before) || Last(before) == RepetitionGuard(true) || Last(before) == TurnEnd(StopError, Some(Permanent))
  }

  predicate Word(cfg: Config, trace: seq<Event>) {
    trace == [] || (Word(cfg, Init(trace)) && Fits(cfg, Init(trace), Last(trace)))
  }

  lemma WordSnoc(cfg: Config, trace: seq<Event>, e: Event)
    requires Word(cfg, trace) && Fits(cfg, trace, e)
    ensures Word(cfg, trace + [e]) && Last(trace + [e]) == e
  {
    assert Init(trace + [e]) == trace;
  }

  lemma CountsSnoc(trace: seq<Event>, e: Event)
    ensures Tries(trace + [e]) == if e.TurnStart? then 0 else Tries(trace) + if e.RequestStarted? then 1 else 0
    ensures forall x :: Ends(trace + [e], x)
                     == if e.TurnStart? then 0 else Ends(trace, x) + if e.TurnEnd? && e.err == Some(x) then 1 else 0
  {
    assert Init(trace + [e]) == trace;
  }

  lemma {:induction false} FitsAt(cfg: Config, trace: seq<Event>, i: nat)
    requires Word(cfg, trace) && i < |trace|
    ensures Fits(cfg, trace[..i], trace[i])
  {
    if i < |trace| - 1 {
      FitsAt(cfg, Init(trace), i);
      assert Init(trace)[..i] == trace[..i];
    }
  }

  // ----------------------------------------------------- where the loop stands

  /** The loop's counters are the counts of its trace. */
  predicate Counted(r: RunState) {
    && r.attempts == Tries(r.trace) && r.idle == Ends(r.trace, IdleTimeout) && r.transient == Ends(r.trace, Transient)
    && r.maxAttempts == Limit(r.cfg, r.trace)
  }

  predicate Fresh(trace: seq<Event>) {
    trace != [] && Last(trace).TurnStart?
  }

  predicate Announced(r: RunState) {
    Counted(r) && r.trace != [] && Last(r.trace).RetryScheduled?
  }

  /** The error a run failed with is that of its last attempt. */
  predicate Blames(trace: seq<Event>, e: Error) {
    if e == Cancelled then trace != [] && Last(trace).TurnEnd? && Last(trace).err == Some(e) else FailedWith(trace, e)
  }

  predicate LastIs(trace: seq<Event>, stop: Stop) {
    trace != [] && Last(trace) == TurnEnd(stop, None)
  }

  /** The last event, by where the loop is. */
  predicate Stands(r: RunState) {
    match r.pc
    case Idle => r.trace == []
    case Top => Between(r.trace)
    case Delivering(retry) => if retry then Announced(r) else Between(r.trace)
    case Hooks => Fresh(r.trace)
    case Composing => Fresh(r.trace)
    case Calling => Counted(r) && MayAttempt(r.trace)
    case Judging(_) => Counted(r) && r.trace != [] && Last(r.trace) == RequestStarted(r.attempts, r.maxAttempts)
    case Retrying(delay) =>
      Counted(r) && (FailedWith(r.trace, IdleTimeout) || FailedWith(r.trace, Transient)) && delay == DelayAfter(r.cfg, r.trace)
    case Sleeping(_) => Announced(r)
    case Woken => Announced(r)
    case Continuing => LastIs(r.trace, StopContinue)
    case Counting => LastIs(r.trace, StopContinue)
    case Weighing => LastIs(r.trace, StopContinue)
    case Running(_) => ToolsMayRun(r.trace)
    case Sent => ToolsMayRun(r.trace)
    case Observing => Settled(r.trace)
    case Ending(stop) => LastIs(r.trace, stop)
    case EndCounting(stop) => LastIs(r.trace, stop)
    case Closing(stop) => LastIs(r.trace, stop)
    case Recovering => LastIs(r.trace, StopEnd)
    case Returned(result) =>
      match result
      case Failed(e) => Blames(r.trace, e)
      case CtxDone => true
      case _ => r.trace != [] && Last(r.trace) == Done
  }

  predicate Ordered(r: RunState) {
    Word(r.cfg, r.trace) && Stands(r)
  }

  // ------------------------------------------------------------------ the steps

  lemma FinishOrders(s: State, result: Result)
    requires Word(s.run.cfg, s.run.trace) && Fits(s.run.cfg, s.run.trace, Done) && !result.Failed?
    ensures Ordered(Finish(s, result).run)
  {
    WordSnoc(s.run.cfg, s.run.trace, Done);
  }

  lemma NextOrders(s: State)
    requires Word(s.run.cfg, s.run.trace) && Between(s.run.trace)
    ensures Ordered(NextStep(s).run)
  {
  }

  lemma EnterOrders(s: State)
    requires Ordered(s.run) && s.run.pc == Top
    ensures Ordered(DoEnter(s).run)
  {
    FinishOrders(s, StepLimit);
  }

  lemma GateOrders(s: State, stopped: bool)
    requires Ordered(s.run) && s.run.pc == Delivering(false)
    ensures Ordered(DoGate(s, stopped).run)
  {
    if stopped {
      FinishOrders(s, Repetitive);
    } else {
      WordSnoc(s.run.cfg, s.run.trace, TurnStart(s.run.step));
    }
  }

  lemma HookOrders(s: State, allowed: bool)
    requires Ordered(s.run) && s.run.pc == Hooks
    ensures Ordered(DoHook(s, allowed).run)
  {
    if !allowed {
      WordSnoc(s.run.cfg, s.run.trace, TurnEnd(StopError, Some(Permanent)));
      FinishOrders(Emit(s, TurnEnd(StopError, Some(Permanent))), Finished);
    }
  }

  lemma {:induction false} FreshCounts(trace: seq<Event>)
    requires Fresh(trace)
    ensures Tries(trace) == 0 && forall e :: Ends(trace, e) == 0
  {
  }

  lemma ComposeOrders(s: State, text: Bytes)
    requires Ordered(s.run) && s.run.pc == Composing
    ensures Ordered(DoCompose(s, text).run)
  {
    FreshCounts(s.run.trace);
  }

  lemma CallOrders(s: State, o: Outcome)
    requires Ordered(s.run) && s.run.pc == Calling
    ensures Ordered(DoCall(s, o).run)
  {
    var e := RequestStarted(s.run.attempts + 1, s.run.maxAttempts);
    EngineRuns.CallFrame(s, o);
    WordSnoc(s.run.cfg, s.run.trace, e);
    CountsSnoc(s.run.trace, e);
  }

  lemma EndFits(r: RunState, o: Outcome)
    requires Ordered(r) && r.pc == Judging(o)
    ensures var t := r.trace + [TurnEnd(o.stop, o.err)];
            && Word(r.cfg, t) && Tries(t) == Tries(r.trace) && Init(t) == r.trace && Last(t) == TurnEnd(o.stop, o.err)
            && forall x :: Ends(t, x) == Ends(r.trace, x) + if o.err == Some(x) then 1 else 0
  {
    WordSnoc(r.cfg, r.trace, TurnEnd(o.stop, o.err));
    CountsSnoc(r.trace, TurnEnd(o.stop, o.err));
  }

  lemma FailureFits(cfg: Config, t: seq<Event>, n: int, max: int, e: Error)
    requires Word(cfg, t) && t != [] && Last(t).TurnEnd? && Last(t).err == Some(e) && e != Cancelled
    requires Init(t) != [] && Last(Init(t)) == RequestStarted(n, max)
    ensures var u := t + [RequestFailed(n, max)];
            Word(cfg, u) && Tries(u) == Tries(t) && (forall x :: Ends(u, x) == Ends(t, x)) && FailedWith(u, e) && u[..|u| - 2] == Init(t)
  {
    WordSnoc(cfg, t, RequestFailed(n, max));
    CountsSnoc(t, RequestFailed(n, max));
  }

  lemma FailCounts(s: State, e: Error)
    ensures var r, t := s.run, Fail(s, e).run;
            && t.trace == r.trace && t.cfg == r.cfg && t.attempts == r.attempts
            && (t.pc.Retrying? ==> e == IdleTimeout || e == Transient)
            && (t.pc.Retrying? && e == IdleTimeout ==>
                  t.pc.delay == 0 && t.idle == r.idle + 1 && t.maxAttempts == r.maxAttempts + 1 && t.transient == r.transient)
            && (t.pc.Retrying? && e == Transient ==>
                  t.pc.delay == RetryDelay(r.cfg, r.transient) && t.transient == r.transient + 1 && t.idle == r.idle
                  && t.maxAttempts == r.maxAttempts)
            && (t.pc.Retrying? || t.pc == Returned(Failed(e)) || t.pc == Returned(CtxDone))
  {
  }

  lemma SucceedLeads(s: State, o: Outcome)
    ensures var t := Succeed(s, o).run;
            && t.trace == s.run.trace && t.cfg == s.run.cfg
            && (t.pc == Continuing || t.pc == Running(o.content) || t.pc == Ending(o.stop))
            && (t.pc.Continuing? ==> o.stop == StopContinue) && (t.pc.Running? ==> o.stop == StopToolUse)
  {
  }

  lemma SucceedOrders(s: State, o: Outcome)
    requires Ordered(s.run) && s.run.pc == Judging(o) && o.err == None
    ensures Ordered(Succeed(Emit(s, TurnEnd(o.stop, None)), o).run)
  {
    EndFits(s.run, o);
    SucceedLeads(Emit(s, TurnEnd(o.stop, None)), o);
  }

  lemma CancelOrders(s: State, o: Outcome)
    requires Ordered(s.run) && s.run.pc == Judging(o) && o.err == Some(Cancelled)
    ensures Ordered(Fail(Emit(s, TurnEnd(o.stop, o.err)), Cancelled).run)
  {
    EndFits(s.run, o);
    FailCounts(Emit(s, TurnEnd(o.stop, o.err)), Cancelled);
  }

  /** Counters and delay of a failure, against the trace it leaves. */
  lemma RetryStands(r: RunState, t: RunState, e: Error)
    requires Counted(r) && FailedWith(t.trace, e) && (t.pc.Retrying? || t.pc == Returned(Failed(e)) || t.pc == Returned(CtxDone))
    requires t.cfg == r.cfg && t.attempts == r.attempts == Tries(t.trace) && e != Cancelled
    requires t.trace[..|t.trace| - 2] == r.trace
    requires forall x :: Ends(t.trace, x) == Ends(r.trace, x) + if e == x then 1 else 0
    requires t.pc.Retrying? ==> e == IdleTimeout || e == Transient
    requires t.pc.Retrying? && e == IdleTimeout ==>
               t.pc.delay == 0 && t.idle == r.idle + 1 && t.maxAttempts == r.maxAttempts + 1 && t.transient == r.transient
    requires t.pc.Retrying? && e == Transient ==>
               t.pc.delay == RetryDelay(r.cfg, r.transient) && t.transient == r.transient + 1 && t.idle == r.idle
               && t.maxAttempts == r.maxAttempts
    ensures Stands(t)
  {
  }

  lemma FailOrders(s: State, o: Outcome, e: Error)
    requires Ordered(s.run) && s.run.pc == Judging(o) && o.err == Some(e) && e != Cancelled
    ensures Ordered(Fail(Emit(Emit(s, TurnEnd(o.stop, o.err)), RequestFailed(s.run.attempts, s.run.maxAttempts)), e).run)
  {
    var t := Emit(s, TurnEnd(o.stop, o.err));
    var u := Emit(t, RequestFailed(s.run.attempts, s.run.maxAttempts));
    EndFits(s.run, o);
    FailureFits(s.run.cfg, t.run.trace, s.run.attempts, s.run.maxAttempts, e);
    FailCounts(u, e);
    RetryStands(s.run, Fail(u, e).run, e);
  }

  lemma JudgeOrders(s: State, o: Outcome)
    requires Ordered(s.run) && s.run.pc == Judging(o)
    ensures Ordered(DoJudge(s, o).run)
  {
    match o.err {
      case None => SucceedOrders(s, o);
      case Some(e) =>
        if e == Cancelled {
          CancelOrders(s, o);
        } else {
          FailOrders(s, o, e);
        }
    }
  }

  lemma ScheduleOrders(s: State, delay: int)
    requires Ordered(s.run) && s.run.pc == Retrying(delay)
    ensures Ordered(DoSchedule(s, delay).run)
  {
    var e := RetryScheduled(s.run.attempts + 1, s.run.maxAttempts, delay);
    WordSnoc(s.run.cfg, s.run.trace, e);
    CountsSnoc(s.run.trace, e);
  }

  lemma VerdictOrders(s: State, v: Verdict)
    requires Word(s.run.cfg, s.run.trace) && Settled(s.run.trace)
    ensures v == Halted ==> Ordered(DoVerdict(s, v).run)
    ensures v != Halted ==> Word(s.run.cfg, DoVerdict(s, v).run.trace) && Settled(DoVerdict(s, v).run.trace)
    ensures DoVerdict(s, v).run.cfg == s.run.cfg && (v != Halted ==> DoVerdict(s, v).run.pc == s.run.pc)
  {
    WordSnoc(s.run.cfg, s.run.trace, RepetitionGuard(v == Halted));
    if v == Halted {
      FinishOrders(Emit(s, RepetitionGuard(true)), Repetitive);
    }
  }

  lemma WeighOrders(s: State, v: Verdict)
    requires Word(s.run.cfg, s.run.trace) && Settled(s.run.trace)
    ensures Ordered(DoWeigh(s, v).run)
  {
    VerdictOrders(s, v);
    if v != Halted {
      NextOrders(DoVerdict(s, v));
    }
  }

  lemma FinishCallOrders(s: State, out: ToolOutcome, rejected: Option<Bytes>)
    requires Ordered(s.run) && s.run.pc.Running?
    ensures Ordered(DoFinishCall(s, out, rejected).run)
  {
    EngineRuns.FinishCallFrame(s, out, rejected);
    WordSnoc(s.run.cfg, s.run.trace, ToolDenied);
  }

  lemma EndTurnOrders(s: State, stop: Stop, v: Verdict, incomplete: bool)
    requires Ordered(s.run) && s.run.pc == Closing(stop)
    ensures Ordered(DoEndTurn(s, stop, v, incomplete).run)
  {
    FinishOrders(s, Finished);
    FinishOrders(s, Result.Incomplete);
    WeighOrders(s, v);
  }

  lemma RecoverOrders(s: State)
    requires Ordered(s.run) && s.run.pc.Recovering?
    ensures Ordered(DoLook(s).run)
  {
    if s.cancelled {
      FinishOrders(s, CtxDone);
    } else {
      WordSnoc(s.run.cfg, s.run.trace, TurnRecovery);
    }
  }

  lemma LookOrders(s: State)
    requires Ordered(s.run) && (s.run.pc.Continuing? || s.run.pc.Ending?)
    ensures Ordered(DoLook(s).run)
  {
    if s.run.pc.Continuing? && s.cancelled {
      FinishOrders(s, CtxDone);
    }
  }

  lemma CountOrders(s: State)
    requires Ordered(s.run) && (s.run.pc.Counting? || s.run.pc.EndCounting?)
    ensures Ordered(DoCount(s).run)
  {
    NextOrders(s);
  }

  // -------------------------------------------------------------- all the steps

  lemma OpeningOrders(s: State, a: Action)
    requires Ordered(s.run) && (s.run.pc.Top? || s.run.pc.Delivering?)
    ensures Ordered(Advance(s, a).run)
  {
    if s.run.pc.Top? {
      EnterOrders(s);
    } else if !s.run.pc.retry && a.Gate? {
      GateOrders(s, a.stopped);
    }
  }

  lemma AskingOrders(s: State, a: Action)
    requires Ordered(s.run) && (s.run.pc.Hooks? || s.run.pc.Composing? || s.run.pc.Calling?)
    ensures Ordered(Advance(s, a).run)
  {
    if s.run.pc.Hooks? {
      if a.Hook? {
        HookOrders(s, a.allowed);
      }
    } else if s.run.pc.Composing? {
      if a.Compose? {
        ComposeOrders(s, a.text);
      }
    } else if a.Call? {
      CallOrders(s, a.outcome);
    }
  }

  lemma AttemptOrders(s: State, a: Action)
    requires Ordered(s.run) && (s.run.pc.Judging? || s.run.pc.Retrying?)
    ensures Ordered(Advance(s, a).run)
  {
    if s.run.pc.Judging? {
      JudgeOrders(s, s.run.pc.outcome);
    } else {
      ScheduleOrders(s, s.run.pc.delay);
    }
  }

  lemma WakeOrders(s: State, delay: int, noticed: bool)
    requires Ordered(s.run) && s.run.pc == Sleeping(delay)
    ensures Ordered(DoWake(s, delay, noticed).run)
  {
  }

  lemma SleepOrders(s: State, a: Action)
    requires Ordered(s.run) && (s.run.pc.Sleeping? || s.run.pc.Woken?)
    ensures Ordered(Advance(s, a).run)
  {
    if s.run.pc.Sleeping? && a.Wake? {
      WakeOrders(s, s.run.pc.delay, a.noticed);
    }
  }

  lemma ReadingOrders(s: State, a: Action)
    requires Ordered(s.run) && EngineRuns.Reading(s.run.pc)
    ensures Ordered(Advance(s, a).run)
  {
    if s.run.pc.Continuing? || s.run.pc.Ending? {
      LookOrders(s);
    } else {
      CountOrders(s);
    }
  }

  lemma DecidingOrders(s: State, a: Action)
    requires Ordered(s.run) && (s.run.pc.Weighing? || s.run.pc.Closing? || s.run.pc.Recovering?)
    ensures Ordered(Advance(s, a).run)
  {
    if s.run.pc.Recovering? {
      RecoverOrders(s);
    } else if s.run.pc.Weighing? && a.Observe? {
      WeighOrders(s, a.verdict);
    } else if s.run.pc.Closing? && a.EndTurn? {
      EndTurnOrders(s, s.run.pc.stop, a.verdict, a.incomplete);
    }
  }

  lemma RunningOrders(s: State, a: Action)
    requires Ordered(s.run) && s.run.pc.Running?
    ensures Ordered(Advance(s, a).run)
  {
    if a.FinishCall? {
      FinishCallOrders(s, a.out, a.rejected);
    }
  }

  lemma AfterToolsOrders(s: State, a: Action)
    requires Ordered(s.run) && (s.run.pc.Sent? || s.run.pc.Observing?)
    ensures Ordered(Advance(s, a).run)
  {
    if s.run.pc.Sent? {
      FinishOrders(s, CtxDone);
    } else {
      NextOrders(s);
      if a.Observe? {
        VerdictOrders(s, a.verdict);
      }
    }
  }

  lemma HostOrders(s: State, a: Action)
    requires Ordered(s.run) && !ByLoop(a)
    ensures Ordered(Step(s, a).run)
  {
  }

  lemma StepOrders(s: State, a: Action)
    requires Ordered(s.run)
    ensures Ordered(Step(s, a).run)
  {
    if !ByLoop(a) {
      HostOrders(s, a);
    } else if s.run.pc.Running? {
      RunningOrders(s, a);
    } else if s.run.pc.Sent? || s.run.pc.Observing? {
      AfterToolsOrders(s, a);
    } else if s.run.pc.Top? || s.run.pc.Delivering? {
      OpeningOrders(s, a);
    } else if s.run.pc.Hooks? || s.run.pc.Composing? || s.run.pc.Calling? {
      AskingOrders(s, a);
    } else if EngineRuns.Reading(s.run.pc) {
      ReadingOrders(s, a);
    } else if s.run.pc.Weighing? || s.run.pc.Closing? || s.run.pc.Recovering? {
      DecidingOrders(s, a);
    } else if s.run.pc.Judging? || s.run.pc.Retrying? {
      AttemptOrders(s, a);
    } else if s.run.pc.Sleeping? || s.run.pc.Woken? {
      SleepOrders(s, a);
    }
  }

  lemma {:induction false} RunOrders(messages: seq<Message>, acts: seq<Action>)
    ensures Ordered(Run(messages, acts).run)
  {
    if acts != [] {
      RunOrders(messages, Init(acts));
      StepOrders(Run(messages, Init(acts)), Last(acts));
    }
  }

  // ------------------------------------------------------------------- theorems

  /** Each event follows what it may follow, with the numbers and the back-off that the
      events before it call for. */
  lemma EventsAreOrdered(messages: seq<Message>, acts: seq<Action>, i: nat)
    requires i < |Run(messages, acts).run.trace|
    ensures var r := Run(messages, acts).run; Fits(r.cfg, r.trace[..i], r.trace[i])
  {
    RunOrders(messages, acts);
    FitsAt(Run(messages, acts).run.cfg, Run(messages, acts).run.trace, i);
  }

  /** The last event tells where the loop stands, and how a failed run failed. */
  lemma LastEventTells(messages: seq<Message>, acts: seq<Action>)
    ensures Stands(Run(messages, acts).run)
  {
    RunOrders(messages, acts);
  }
}
