/** The states a run of the engine passes through, as a list that grows by one step
    at a time. Module Agent keeps one as ghost state; each lemma here adds one action. */
module Trail {
  import opened Transcript
  import opened Engine
  import Memory
  import Queue

  ghost predicate Follows(s: State, t: State) {
    exists a :: t == Step(s, a)
  }

  ghost predicate Path(messages: seq<Message>, states: seq<State>) {
    && states != []
    && states[0] == Start(messages)
    && forall i {:trigger Follows(states[i - 1], states[i])} :: 0 < i < |states| ==> Follows(states[i - 1], states[i])
  }

  /** Every state on a path is reached by some run. */
  lemma {:induction false} PathIsRun(messages: seq<Message>, states: seq<State>) returns (acts: seq<Action>)
    requires Path(messages, states)
    ensures Run(messages, acts) == Last(states)
  {
    if |states| == 1 {
      acts := [];
    } else {
      var n := |states| - 1;
      forall i | 0 < i < n ensures Follows(states[..n][i - 1], states[..n][i]) {
        assert Follows(states[i - 1], states[i]);
      }
      var before := PathIsRun(messages, states[..n]);
      assert Follows(states[n - 1], states[n]);
      var a :| states[n] == Step(states[n - 1], a);
      acts := before + [a];
      assert Init(acts) == before;
    }
  }

  lemma Extend(messages: seq<Message>, states: seq<State>, a: Action)
    requires Path(messages, states)
    ensures Path(messages, states + [Step(Last(states), a)])
  {
    var longer := states + [Step(Last(states), a)];
    forall i | 0 < i < |longer| ensures Follows(longer[i - 1], longer[i]) {
      if i < |states| {
        assert Follows(states[i - 1], states[i]);
      } else {
        assert longer[i] == Step(longer[i - 1], a);
      }
    }
  }

  predicate Ready(states: seq<State>) {
    states != [] && Last(states).mem.unsent == []
  }

  // ------------------------------------------------------------- other threads

  lemma Accepts(messages: seq<Message>, states: seq<State>, m: Queue.QueuedMessage) returns (t: State)
    requires Path(messages, states)
    ensures var s := Last(states); t == s.(q := Queue.Accept(s.q, m)) && Path(messages, states + [t])
  {
    t := Step(Last(states), Accept(m));
    Extend(messages, states, Accept(m));
  }

  lemma Pops(messages: seq<Message>, states: seq<State>) returns (t: State)
    requires Path(messages, states)
    ensures var s := Last(states); t == s.(q := Queue.Pop(s.q)) && Path(messages, states + [t])
  {
    t := Step(Last(states), Pop);
    Extend(messages, states, Pop);
  }

  lemma PopsUser(messages: seq<Message>, states: seq<State>) returns (t: State)
    requires Path(messages, states)
    ensures var s := Last(states); t == s.(q := Queue.PopUser(s.q)) && Path(messages, states + [t])
  {
    t := Step(Last(states), PopUser);
    Extend(messages, states, PopUser);
  }

  lemma TakesAll(messages: seq<Message>, states: seq<State>) returns (t: State)
    requires Path(messages, states)
    ensures var s := Last(states); t == s.(q := Queue.TakeAll(s.q)) && Path(messages, states + [t])
  {
    t := Step(Last(states), TakeAll);
    Extend(messages, states, TakeAll);
  }

  lemma Cancels(messages: seq<Message>, states: seq<State>) returns (t: State)
    requires Path(messages, states)
    ensures t == Last(states).(cancelled := true) && Path(messages, states + [t])
  {
    t := Step(Last(states), Cancel);
    Extend(messages, states, Cancel);
  }

  lemma Flushes(messages: seq<Message>, states: seq<State>) returns (t: State)
    requires Path(messages, states)
    ensures var s := Last(states); t == s.(mem := Memory.Flush(s.mem)) && Path(messages, states + [t])
  {
    t := Step(Last(states), Flush);
    Extend(messages, states, Flush);
  }

  // ------------------------------------------------------------------- the loop

  lemma Begins(messages: seq<Message>, states: seq<State>, prompt: Option<Prompt>, cfg: Config) returns (t: State)
    requires Path(messages, states) && Resting(Last(states))
    ensures t == DoBegin(Last(states), prompt, cfg) && Path(messages, states + [t])
  {
    t := Step(Last(states), Begin(prompt, cfg));
    Extend(messages, states, Begin(prompt, cfg));
  }

  lemma Compacts(messages: seq<Message>, states: seq<State>, next: seq<Message>) returns (t: State)
    requires Path(messages, states) && Resting(Last(states))
    ensures var s := Last(states); t == s.(mem := Memory.Replace(s.mem, next)) && Path(messages, states + [t])
  {
    t := Step(Last(states), CompactTo(next));
    Extend(messages, states, CompactTo(next));
  }

  lemma Enters(messages: seq<Message>, states: seq<State>) returns (t: State)
    requires Path(messages, states) && Ready(states) && Last(states).run.pc == Top
    ensures t == DoEnter(Last(states)) && Path(messages, states + [t])
  {
    t := Step(Last(states), Enter);
    Extend(messages, states, Enter);
  }

  lemma Delivers(messages: seq<Message>, states: seq<State>) returns (t: State)
    requires Path(messages, states) && Ready(states) && Last(states).run.pc.Delivering?
    ensures t == DoDeliver(Last(states)) && Path(messages, states + [t])
  {
    t := Step(Last(states), Deliver);
    Extend(messages, states, Deliver);
  }

  lemma Proceeds(messages: seq<Message>, states: seq<State>) returns (t: State)
    requires Path(messages, states) && Ready(states) && Last(states).run.pc == Delivering(true)
    requires Last(states).q.inflight == []
    ensures t == At(Last(states), Calling) && Path(messages, states + [t])
  {
    t := Step(Last(states), Proceed);
    Extend(messages, states, Proceed);
  }

  lemma Gates(messages: seq<Message>, states: seq<State>, stopped: bool) returns (t: State)
    requires Path(messages, states) && Ready(states) && Last(states).run.pc == Delivering(false)
    requires Last(states).q.inflight == []
    ensures t == DoGate(Last(states), stopped) && Path(messages, states + [t])
  {
    t := Step(Last(states), Gate(stopped));
    Extend(messages, states, Gate(stopped));
  }

  lemma HooksRun(messages: seq<Message>, states: seq<State>, allowed: bool) returns (t: State)
    requires Path(messages, states) && Ready(states) && Last(states).run.pc == Hooks
    ensures t == DoHook(Last(states), allowed) && Path(messages, states + [t])
  {
    t := Step(Last(states), Hook(allowed));
    Extend(messages, states, Hook(allowed));
  }

  lemma Composes(messages: seq<Message>, states: seq<State>, text: Bytes) returns (t: State)
    requires Path(messages, states) && Ready(states) && Last(states).run.pc == Composing
    ensures t == DoCompose(Last(states), text) && Path(messages, states + [t])
  {
    t := Step(Last(states), Compose(text));
    Extend(messages, states, Compose(text));
  }

  lemma Calls(messages: seq<Message>, states: seq<State>, o: Outcome) returns (t: State)
    requires Path(messages, states) && Ready(states) && Last(states).run.pc == Calling
    ensures t == DoCall(Last(states), o) && Path(messages, states + [t])
  {
    t := Step(Last(states), Call(o));
    Extend(messages, states, Call(o));
  }

  ghost predicate Counters(r: RunState, idle: nat, transient: nat, attempts: nat, maxAttempts: int) {
    r.idle == idle && r.transient == transient && r.attempts == attempts && r.maxAttempts == maxAttempts
  }

  ghost predicate SameLoop(r: RunState, t: RunState) {
    t.cfg == r.cfg && t.step == r.step && t.recovered == r.recovered && t.denied == r.denied
  }

  /** Where a successful reply leads. */
  function After(o: Outcome): Pc {
    match o.stop
    case StopContinue => Continuing
    case StopToolUse => Running(o.content)
    case stop => Ending(stop)
  }

  /** A step ended: the run is over, or the next step is due. */
  ghost predicate Onward(r: RunState, t: RunState, result: Option<Result>) {
    && t.cfg == r.cfg && t.recovered == r.recovered
    && if result.Some? then t.pc == Returned(result.value) else t.pc == Top && t.step == r.step + 1
  }

  lemma Judges(messages: seq<Message>, states: seq<State>, o: Outcome)
    requires Path(messages, states) && Ready(states) && Last(states).run.pc == Judging(o)
    ensures Path(messages, states + [DoJudge(Last(states), o)])
  {
    Extend(messages, states, Judge);
  }

  lemma JudgesSuccess(messages: seq<Message>, states: seq<State>, o: Outcome) returns (t: State)
    requires Path(messages, states) && Ready(states) && Last(states).run.pc == Judging(o) && o.err == None
    ensures Path(messages, states + [t])
    ensures var s := Last(states); t.mem == s.mem && t.q == s.q && t.cancelled == s.cancelled
    ensures SameLoop(Last(states).run, t.run) && t.run.pc == After(o)
    ensures o.stop == StopToolUse ==> t.run.batch == NO_BATCH.(calls := ToolCalls(o.content))
  {
    t := DoJudge(Last(states), o);
    Judges(messages, states, o);
  }

  /** What a failed attempt leads to. */
  ghost predicate Failure(s: State, t: State, e: Error) {
    && t.q == s.q && t.cancelled == s.cancelled && SameLoop(s.run, t.run)
    && if CanRetry(s.run, e) && !s.cancelled
       then t.mem == Memory.DropReply(s.mem, |s.run.snapshot|)
            && if e == IdleTimeout
               then t.run.pc == Retrying(0)
                    && Counters(t.run, s.run.idle + 1, s.run.transient, s.run.attempts, s.run.maxAttempts + 1)
               else t.run.pc == Retrying(RetryDelay(s.run.cfg, s.run.transient))
                    && Counters(t.run, s.run.idle, s.run.transient + 1, s.run.attempts, s.run.maxAttempts)
       else t.mem == s.mem && t.run.pc == Returned(if CanRetry(s.run, e) then CtxDone else Failed(e))
  }

  lemma FailIsFailure(s: State, e: Error)
    ensures Failure(s, Fail(s, e), e)
  {
  }

  lemma JudgesFailure(messages: seq<Message>, states: seq<State>, o: Outcome) returns (t: State)
    requires Path(messages, states) && Ready(states) && Last(states).run.pc == Judging(o) && o.err.Some?
    ensures Path(messages, states + [t]) && Failure(Last(states), t, o.err.value)
  {
    var s := Last(states);
    t := DoJudge(s, o);
    Judges(messages, states, o);
    var e := o.err.value;
    var u := Emit(s, TurnEnd(o.stop, o.err));
    FailIsFailure(if e == Cancelled then u else Emit(u, RequestFailed(s.run.attempts, s.run.maxAttempts)), e);
  }

  lemma Schedules(messages: seq<Message>, states: seq<State>, delay: int) returns (t: State)
    requires Path(messages, states) && Ready(states) && Last(states).run.pc == Retrying(delay)
    ensures t == DoSchedule(Last(states), delay) && Path(messages, states + [t])
  {
    t := Step(Last(states), Schedule);
    Extend(messages, states, Schedule);
  }

  lemma Wakes(messages: seq<Message>, states: seq<State>, delay: int, noticed: bool) returns (t: State)
    requires Path(messages, states) && Ready(states) && Last(states).run.pc == Sleeping(delay)
    ensures t == DoWake(Last(states), delay, noticed) && Path(messages, states + [t])
  {
    t := Step(Last(states), Wake(noticed));
    Extend(messages, states, Wake(noticed));
  }

  lemma Refills(messages: seq<Message>, states: seq<State>) returns (t: State)
    requires Path(messages, states) && Ready(states) && Last(states).run.pc == Woken
    ensures var s := Last(states);
            t == At(s.(q := Queue.Drain(s.q)), Delivering(true)) && Path(messages, states + [t])
  {
    t := Step(Last(states), Refill);
    Extend(messages, states, Refill);
  }

  /** Only the program point moved, and perhaps the trace grew. */
  ghost predicate Moved(s: State, t: State, pc: Pc) {
    && t.mem == s.mem && t.q == s.q && t.cancelled == s.cancelled
    && SameLoop(s.run, t.run) && t.run.pc == pc
  }

  /** The guard spoke; `pc` is where the loop is unless it halted. */
  ghost predicate Spoke(s: State, t: State, v: Verdict) {
    && t.mem == (if v.Warned? then Memory.Append(s.mem, UserText(v.prompt)) else s.mem)
    && t.q == s.q && t.cancelled == s.cancelled
    && t.run.cfg == s.run.cfg && t.run.recovered == s.run.recovered && t.run.denied == s.run.denied
    && (v == Halted ==> t.run.pc == Returned(Repetitive))
  }

  lemma LooksOn(messages: seq<Message>, states: seq<State>) returns (t: State)
    requires Path(messages, states) && Ready(states) && Last(states).run.pc == Continuing
    ensures Path(messages, states + [t])
    ensures Moved(Last(states), t, if Last(states).cancelled then Returned(CtxDone) else Counting)
  {
    t := DoLook(Last(states));
    Extend(messages, states, Look);
  }

  lemma LooksAtEnd(messages: seq<Message>, states: seq<State>, stop: Stop) returns (t: State)
    requires Path(messages, states) && Ready(states) && Last(states).run.pc == Ending(stop)
    ensures Path(messages, states + [t])
    ensures Moved(Last(states), t, if Last(states).cancelled then Closing(stop) else EndCounting(stop))
  {
    t := DoLook(Last(states));
    Extend(messages, states, Look);
  }

  lemma LooksToRecover(messages: seq<Message>, states: seq<State>) returns (t: State)
    requires Path(messages, states) && Ready(states) && Last(states).run.pc == Recovering
    ensures Path(messages, states + [t])
    ensures var s := Last(states);
            if s.cancelled then Moved(s, t, Returned(CtxDone))
            else t.mem == Memory.Append(s.mem, UserText(s.run.cfg.texts.recovery)) && t.q == s.q && t.cancelled == s.cancelled
                 && t.run.cfg == s.run.cfg && t.run.denied == s.run.denied
                 && t.run.pc == Top && t.run.step == s.run.step + 1 && t.run.recovered
  {
    t := DoLook(Last(states));
    Extend(messages, states, Look);
  }

  /** The queue is read: late input starts the next step. */
  lemma Counts(messages: seq<Message>, states: seq<State>) returns (t: State)
    requires Path(messages, states) && Ready(states)
    requires Last(states).run.pc.Counting? || Last(states).run.pc.EndCounting?
    ensures Path(messages, states + [t])
    ensures var s := Last(states);
            if s.q.queued == [] then Moved(s, t, if s.run.pc.Counting? then Weighing else Closing(s.run.pc.stop))
            else t.mem == s.mem && t.q == s.q && t.cancelled == s.cancelled && Onward(s.run, t.run, None) && t.run.denied == s.run.denied
  {
    t := DoCount(Last(states));
    Extend(messages, states, Count);
  }

  lemma Weighs(messages: seq<Message>, states: seq<State>, v: Verdict) returns (t: State)
    requires Path(messages, states) && Ready(states) && Last(states).run.pc == Weighing
    ensures Path(messages, states + [t])
    ensures Spoke(Last(states), t, v) && (v != Halted ==> Onward(Last(states).run, t.run, None))
  {
    t := Step(Last(states), Observe(v));
    Extend(messages, states, Observe(v));
  }

  lemma Observes(messages: seq<Message>, states: seq<State>, v: Verdict) returns (t: State)
    requires Path(messages, states) && Ready(states) && Last(states).run.pc == Observing
    ensures Path(messages, states + [t])
    ensures Spoke(Last(states), t, v) && (v != Halted ==> t.run.pc == Observing && t.run.step == Last(states).run.step)
  {
    t := Step(Last(states), Observe(v));
    Extend(messages, states, Observe(v));
  }

  lemma ObservesAll(messages: seq<Message>, states: seq<State>) returns (t: State)
    requires Path(messages, states) && Ready(states) && Last(states).run.pc == Observing
    ensures Path(messages, states + [t])
    ensures var s := Last(states);
            t.mem == s.mem && t.q == s.q && t.cancelled == s.cancelled && Onward(s.run, t.run, None) && t.run.denied == s.run.denied
  {
    t := Step(Last(states), ObserveDone);
    Extend(messages, states, ObserveDone);
  }

  lemma StartsCall(messages: seq<Message>, states: seq<State>) returns (t: State)
    requires Path(messages, states) && Ready(states) && Last(states).run.pc.Running?
    ensures t == DoStartCall(Last(states)) && Path(messages, states + [t])
  {
    t := Step(Last(states), StartCall);
    Extend(messages, states, StartCall);
  }

  lemma FinishesCall(messages: seq<Message>, states: seq<State>, out: ToolOutcome, rejected: Option<Bytes>) returns (t: State)
    requires Path(messages, states) && Ready(states) && Last(states).run.pc.Running?
    ensures t == DoFinishCall(Last(states), out, rejected) && Path(messages, states + [t])
  {
    t := Step(Last(states), FinishCall(out, rejected));
    Extend(messages, states, FinishCall(out, rejected));
  }

  lemma FinishesBatch(messages: seq<Message>, states: seq<State>) returns (t: State)
    requires Path(messages, states) && Ready(states) && Last(states).run.pc.Running?
    ensures t == DoBatchDone(Last(states)) && Path(messages, states + [t])
  {
    t := Step(Last(states), BatchDone);
    Extend(messages, states, BatchDone);
  }

  lemma Leaves(messages: seq<Message>, states: seq<State>) returns (t: State)
    requires Path(messages, states) && Ready(states) && Last(states).run.pc == Sent
    ensures Path(messages, states + [t])
    ensures Moved(Last(states), t, if Last(states).cancelled then Returned(CtxDone) else Observing)
  {
    t := Step(Last(states), AfterBatch);
    Extend(messages, states, AfterBatch);
  }

  lemma EndsTurn(messages: seq<Message>, states: seq<State>, v: Verdict, incomplete: bool) returns (t: State)
    requires Path(messages, states) && Ready(states) && Last(states).run.pc.Closing?
    ensures Path(messages, states + [t])
    ensures var s := Last(states);
            if s.run.pc.stop != StopEnd || s.run.denied then Moved(s, t, Returned(Finished))
            else if v != Quiet then Spoke(s, t, v) && (v != Halted ==> Onward(s.run, t.run, None))
            else Moved(s, t, if !incomplete then Returned(Finished)
                             else if s.run.recovered then Returned(Result.Incomplete) else Recovering)
  {
    t := Step(Last(states), EndTurn(v, incomplete));
    Extend(messages, states, EndTurn(v, incomplete));
  }
}
