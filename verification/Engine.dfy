/** The agent turn engine as a state machine (packages/core/agent.go:640-935 and
    1203-1536): what each step of a run does, with the provider, the tools, the
    hooks, the guard and cancellation as arguments of the actions.

    A run is any list of actions. Actions of other threads (queueing, taking
    messages back, cancelling) may come anywhere in it; an action the engine is not
    ready for does nothing. Modules EngineLog, EnginePairs, EngineRuns, EngineBatch and
    EngineCauses prove what every run keeps, module Agent runs the same steps on mutable
    fields. */
module Engine {
  import opened Transcript
  import Memory
  import Queue

  /** Why a reply stopped; `StopNone` is a stream that closed without saying. */
  datatype Stop = StopEnd | StopToolUse | StopContinue | StopLength | StopError | StopAborted | StopNone

  /** Error classes the loop tells apart; matching error text is not modelled. */
  datatype Error = Cancelled | DeadlineExceeded | OpenFailed | IdleTimeout | Transient | Permanent

  /** What one call of the model came to. */
  datatype Outcome = Outcome(content: seq<Content>, stop: Stop, err: Option<Error>)

  /** The guard's answer to an observation. */
  datatype Verdict = Quiet | Warned(prompt: Bytes) | Halted

  datatype ToolOutcome = ToolOutcome(content: seq<Content>, isError: bool, timing: Option<Bytes>, context: ToolContext,
                                     added: seq<string>, denied: bool)

  datatype Result = Finished | Failed(err: Error) | CtxDone | StepLimit | Incomplete | Repetitive

  datatype Event =
    | TurnStart(step: int)
    | RequestStarted(attempt: int, maxAttempts: int)
    | TurnEnd(stop: Stop, err: Option<Error>)
    | RequestFailed(attempt: int, maxAttempts: int)
    | RetryScheduled(attempt: int, maxAttempts: int, delay: int)
    | ToolDenied
    | TurnRecovery
    | RepetitionGuard(halted: bool)
    | Done

  datatype Prompt = Prompt(text: Bytes, images: seq<Bytes>)

  /** Fixed texts of the loop; module Agent fills in the ones the program uses. */
  datatype Texts = Texts(skip: Bytes, recovery: Bytes, mirror: Bytes)

  datatype Config = Config(maxSteps: int, maxRetries: int, maxIdleRetries: int, retryBaseDelay: int, mirrorsImages: bool,
                           texts: Texts)

  datatype Pc =
    | Idle
    | Top
    | Delivering(retry: bool)
    | Hooks
    | Composing
    | Calling
    | Judging(outcome: Outcome)
    | Retrying(delay: int)
    | Sleeping(delay: int)
    | Woken
    | Continuing
    | Counting
    | Weighing
    | Running(reply: seq<Content>)
    | Sent
    | Observing
    | Ending(stop: Stop)
    | EndCounting(stop: Stop)
    | Closing(stop: Stop)
    | Recovering
    | Returned(result: Result)

  /** One batch of tool calls: per call started, whether it ran and whether user input
      was waiting when it came up; per call finished, what the tool gave and whether the
      host refused to persist it. */
  datatype Batch = Batch(calls: seq<Content>, results: seq<Content>, added: seq<string>, skipping: bool,
                         ran: seq<bool>, userWaiting: seq<bool>, outs: seq<ToolOutcome>, rejections: seq<Option<Bytes>>)

  const NO_BATCH := Batch([], [], [], false, [], [], [], [])

  /** Local variables of runLoop and oneTurn, and the events of this run.
      `base` is where this run's messages begin, `snapshot` the transcript before
      the current attempt, `loose` the successful replies whose calls nobody ran. */
  datatype RunState = RunState(
    pc: Pc,
    cfg: Config,
    step: int,
    recovered: bool,
    denied: bool,
    idle: nat,
    transient: nat,
    attempts: nat,
    maxAttempts: int,
    backoff: nat,
    snapshot: seq<Message>,
    base: nat,
    loose: nat,
    batch: Batch,
    trace: seq<Event>)

  /** `spots` are the log positions of the delivered queue entries. */
  datatype State = State(mem: Memory.Mem, q: Queue.Q, cancelled: bool, spots: seq<nat>, run: RunState)

  const NO_CONFIG := Config(0, 0, 0, 0, false, Texts([], [], []))

  function FreshRun(pc: Pc, cfg: Config, base: nat): RunState {
    RunState(pc, cfg, 1, false, false, 0, 0, 0, FirstMax(cfg), 0, [], base, 0, NO_BATCH, [])
  }

  function Start(messages: seq<Message>): State {
    State(Memory.Mem(messages, [Memory.Replaced(messages)], [], 0), Queue.Q([], [], [], {}, 0), false, [],
          FreshRun(Idle, NO_CONFIG, 0))
  }

  datatype Action =
    // other threads
    | Accept(message: Queue.QueuedMessage) | Pop | PopUser | TakeAll | Cancel
    // the host, between runs
    | Begin(prompt: Option<Prompt>, cfg: Config) | CompactTo(next: seq<Message>)
    // a hook call made outside the lock
    | Flush
    // the loop
    | Enter | Deliver | Proceed | Gate(stopped: bool) | Hook(allowed: bool) | Compose(text: Bytes)
    | Call(outcome: Outcome) | Judge | Schedule | Wake(noticed: bool) | Refill
    | Look | Count
    | Observe(verdict: Verdict) | ObserveDone
    | StartCall | FinishCall(out: ToolOutcome, rejected: Option<Bytes>) | BatchDone | AfterBatch
    | EndTurn(verdict: Verdict, incomplete: bool)

  // ------------------------------------------------------------ small helpers

  function Max(a: int, b: int): int {
    if a > b then a else b
  }

  function FirstMax(cfg: Config): int {
    Max(cfg.maxRetries + 1, 1)
  }

  /** Two's-complement wrap-around of a 64-bit duration. */
  function Wrap64(x: int): int {
    (x + 0x8000_0000_0000_0000) % 0x1_0000_0000_0000_0000 - 0x8000_0000_0000_0000
  }

  function Pow2(n: nat): (p: nat)
    ensures p >= 1
  {
    if n == 0 then 1 else 2 * Pow2(n - 1)
  }

  /** Two seconds in nanoseconds, when no base delay is configured. */
  function BaseDelay(cfg: Config): int {
    if cfg.retryBaseDelay <= 0 then 2_000_000_000 else cfg.retryBaseDelay
  }

  function RetryDelay(cfg: Config, attempt: nat): int {
    Wrap64(BaseDelay(cfg) * Wrap64(Pow2(attempt)))
  }

  predicate CanRetryError(cfg: Config, e: Error, retries: nat) {
    match e
    case IdleTimeout => retries < cfg.maxIdleRetries
    case Transient => cfg.maxRetries > 0 && retries < cfg.maxRetries
    case _ => false
  }

  predicate CanRetry(r: RunState, e: Error) {
    CanRetryError(r.cfg, e, if e == IdleTimeout then r.idle else r.transient)
  }

  function ToolCalls(content: seq<Content>): (calls: seq<Content>)
    ensures forall c :: c in calls ==> c.ToolCall?
  {
    if content == [] then []
    else (if content[0].ToolCall? then [content[0]] else []) + ToolCalls(content[1..])
  }

  /** A reply enters the transcript unless it is empty or an aborted one with calls. */
  predicate Kept(o: Outcome) {
    o.content != [] && !(o.stop == StopAborted && ToolCalls(o.content) != [])
  }

  function Reply(content: seq<Content>): Message {
    Message(Assistant, content, [], false)
  }

  function UserText(text: Bytes): Message {
    Message(User, [Text(text)], [], false)
  }

  /** What the mirror shows of a result's block: images, and texts short enough. */
  predicate Shown(c: Content) {
    c.Image? || (c.Text? && 0 < |c.text| <= 500)
  }

  function MirrorParts(inner: seq<Content>): seq<Content> {
    if inner == [] then [] else (if Shown(inner[0]) then [inner[0]] else []) + MirrorParts(inner[1..])
  }

  function ResultParts(r: Content): seq<Content> {
    if r.ToolResult? then MirrorParts(r.content) else []
  }

  function MirrorContent(results: seq<Content>): seq<Content> {
    if results == [] then [] else ResultParts(results[0]) + MirrorContent(results[1..])
  }

  function AddNames(have: seq<string>, names: seq<string>): seq<string>
    decreases |names|
  {
    if names == [] then have
    else AddNames(if names[0] in have then have else have + [names[0]], names[1..])
  }

  ghost predicate NoRepeats(names: seq<string>) {
    forall i, j :: 0 <= i < j < |names| ==> names[i] != names[j]
  }

  lemma {:induction false} AddNamesAdds(have: seq<string>, names: seq<string>)
    ensures forall n :: n in AddNames(have, names) <==> n in have || n in names
    ensures NoRepeats(have) ==> NoRepeats(AddNames(have, names))
    ensures have <= AddNames(have, names)
    decreases |names|
  {
    if names != [] {
      AddNamesAdds(if names[0] in have then have else have + [names[0]], names[1..]);
      assert names == [names[0]] + names[1..];
    }
  }

  // ---------------------------------------------------------------- the steps

  function Emit(s: State, e: Event): State {
    s.(run := s.run.(trace := s.run.trace + [e]))
  }

  function At(s: State, pc: Pc): State {
    s.(run := s.run.(pc := pc))
  }

  function Return(s: State, r: Result): State {
    At(s, Returned(r))
  }

  function Finish(s: State, r: Result): State {
    Return(Emit(s, Done), r)
  }

  function Say(s: State, m: Message): State {
    s.(mem := Memory.Append(s.mem, m))
  }

  function NextStep(s: State): State {
    s.(run := s.run.(pc := Top, step := s.run.step + 1))
  }

  /** Program points at which the loop has the reply and its results behind it. */
  predicate Deciding(pc: Pc) {
    pc.Weighing? || pc.Observing? || pc.Closing? || pc.Recovering?
  }

  predicate Active(pc: Pc) {
    !pc.Idle? && !pc.Returned?
  }

  predicate Resting(s: State) {
    (s.run.pc == Idle || s.run.pc.Returned?) && s.mem.unsent == []
  }

  /** A prompt with neither text nor images is refused; none at all continues. */
  function DoBegin(s: State, prompt: Option<Prompt>, cfg: Config): State {
    var t := s.(cancelled := false, run := FreshRun(Top, cfg, |s.mem.messages|));
    if prompt == None then t
    else if prompt.value == Prompt([], []) then s
    else Say(t, Message(User, Queue.Blocks(prompt.value.text, prompt.value.images), [], false))
  }

  function DoEnter(s: State): State {
    if 0 < s.run.cfg.maxSteps < s.run.step then Finish(s, StepLimit)
    else At(s.(q := Queue.Drain(s.q)), Delivering(false))
  }

  function DoDeliver(s: State): State {
    if s.q.inflight == [] then s
    else s.(mem := Memory.Append(s.mem, Queue.UserMessage(s.q.inflight[0])), q := Queue.Deliver(s.q),
            spots := s.spots + [|Memory.Log(s.mem)|])
  }

  function DoGate(s: State, stopped: bool): State {
    if stopped then Finish(s, Repetitive) else At(Emit(s, TurnStart(s.run.step)), Hooks)
  }

  function DoHook(s: State, allowed: bool): State {
    if allowed then At(s, Composing) else Finish(Emit(s, TurnEnd(StopError, Some(Permanent))), Finished)
  }

  function DoCompose(s: State, text: Bytes): State {
    var mem := Memory.AddContext(s.mem, text);
    var shift := if Memory.HasContext(s.mem.messages) then 0 else |mem.messages| - |s.mem.messages|;
    s.(mem := mem, run := s.run.(pc := Calling, base := s.run.base + shift, idle := 0, transient := 0, attempts := 0,
                                 maxAttempts := FirstMax(s.run.cfg), backoff := 0))
  }

  function DoCall(s: State, o: Outcome): State {
    var t := Emit(s, RequestStarted(s.run.attempts + 1, s.run.maxAttempts));
    var u := if Kept(o) then Say(t, Reply(o.content)) else t;
    u.(run := u.run.(pc := Judging(o), snapshot := s.mem.messages, attempts := s.run.attempts + 1))
  }

  function DoJudge(s: State, o: Outcome): State {
    var t := Emit(s, TurnEnd(o.stop, o.err));
    match o.err
    case None => Succeed(t, o)
    case Some(e) => Fail(if e == Cancelled then t else Emit(t, RequestFailed(s.run.attempts, s.run.maxAttempts)), e)
  }

  function Succeed(s: State, o: Outcome): State {
    match o.stop
    case StopContinue => At(Loosen(s, o), Continuing)
    case StopToolUse =>
      s.(run := s.run.(pc := Running(o.content), batch := NO_BATCH.(calls := ToolCalls(o.content))))
    case stop => At(Loosen(s, o), Ending(stop))
  }

  function Loosen(s: State, o: Outcome): State {
    if Kept(o) && ToolCalls(o.content) != [] then s.(run := s.run.(loose := s.run.loose + 1)) else s
  }

  function Fail(s: State, e: Error): State {
    if !CanRetry(s.run, e) then Return(s, Failed(e))
    else if s.cancelled then Return(s, CtxDone)
    else
      var t := s.(mem := Memory.DropReply(s.mem, |s.run.snapshot|));
      if e == IdleTimeout
      then t.(run := t.run.(pc := Retrying(0), idle := t.run.idle + 1, maxAttempts := t.run.maxAttempts + 1))
      else t.(run := t.run.(pc := Retrying(RetryDelay(t.run.cfg, t.run.transient)), transient := t.run.transient + 1))
  }

  function DoSchedule(s: State, delay: int): State {
    if s.cancelled then Return(s, CtxDone)
    else
      var t := Emit(s, RetryScheduled(s.run.attempts + 1, s.run.maxAttempts, delay));
      t.(run := t.run.(pc := Sleeping(delay), backoff := t.run.backoff + Max(delay, 0)))
  }

  /** A sleeping retry may or may not notice a cancellation first; without a delay it must. */
  function DoWake(s: State, delay: int, noticed: bool): State {
    if s.cancelled && (noticed || delay <= 0) then Return(s, CtxDone) else At(s, Woken)
  }

  /** The guard's verdict: a warning becomes a prompt, a halt ends the run. */
  function DoVerdict(s: State, v: Verdict): State {
    match v
    case Quiet => s
    case Warned(prompt) => Say(Emit(s, RepetitionGuard(false)), UserText(prompt))
    case Halted => Finish(Emit(s, RepetitionGuard(true)), Repetitive)
  }

  /** A verdict on the newest reply: unless it halts, the loop goes on. */
  function DoWeigh(s: State, v: Verdict): State {
    if v == Halted then DoVerdict(s, v) else NextStep(DoVerdict(s, v))
  }

  /** The context is read on its own, and so is the queue: either may change between. */
  function DoLook(s: State): State {
    match s.run.pc
    case Continuing => if s.cancelled then Finish(s, CtxDone) else At(s, Counting)
    case Ending(stop) => At(s, if s.cancelled then Closing(stop) else EndCounting(stop))
    case Recovering => if s.cancelled then Finish(s, CtxDone) else DoRecover(s)
    case _ => s
  }

  function DoCount(s: State): State {
    if s.q.queued != [] then NextStep(s)
    else
      match s.run.pc
      case EndCounting(stop) => At(s, Closing(stop))
      case _ => At(s, Weighing)
  }

  /** The one continuation of a run that ended without an answer. */
  function DoRecover(s: State): State {
    NextStep(Say(Emit(s.(run := s.run.(recovered := true)), TurnRecovery), UserText(s.run.cfg.texts.recovery)))
  }

  predicate Executing(b: Batch) {
    |b.ran| > |b.results|
  }

  /** Ordinary input waiting in the queue skips every call but the first. */
  function DoStartCall(s: State): State {
    var b := s.run.batch;
    if Executing(b) || |b.results| >= |b.calls| then s
    else
      var waiting := Queue.HasUser(s.q.queued);
      var skipping := b.skipping || (|b.results| > 0 && waiting);
      s.(run := s.run.(batch := b.(skipping := skipping, ran := b.ran + [!skipping], userWaiting := b.userWaiting + [waiting])))
  }

  function Skipped(text: Bytes): ToolOutcome {
    ToolOutcome([Text(text)], true, None, ToolContext([], [], []), [], false)
  }

  /** A host that cannot persist a result replaces it by an error and its message. */
  function Committed(id: string, out: ToolOutcome, rejected: Option<Bytes>): Content {
    match rejected
    case None => ToolResult(id, out.content, out.isError, out.timing, out.context)
    case Some(message) => ToolResult(id, [Text(message)], true, out.timing, ToolContext([], [], []))
  }

  predicate Finishable(b: Batch) {
    Executing(b) && |b.results| < |b.calls| && b.calls[|b.results|].ToolCall?
  }

  /** The batch with one more result, the tool's own or, for a skipped call, the notice. */
  function WithResult(b: Batch, skip: Bytes, out: ToolOutcome, rejected: Option<Bytes>): Batch
    requires Finishable(b)
  {
    var shown := if Last(b.ran) then out else Skipped(skip);
    b.(results := b.results + [Committed(b.calls[|b.results|].id, shown, rejected)],
       added := if rejected.None? then AddNames(b.added, shown.added) else b.added,
       outs := b.outs + [out], rejections := b.rejections + [rejected])
  }

  function DoFinishCall(s: State, out: ToolOutcome, rejected: Option<Bytes>): State {
    var b := s.run.batch;
    if !Finishable(b) then s
    else
      var t := s.(run := s.run.(batch := WithResult(b, s.run.cfg.texts.skip, out, rejected)));
      if Last(b.ran) && out.denied then Emit(t.(run := t.run.(denied := true)), ToolDenied) else t
  }

  function ToolMessage(b: Batch): Message {
    Message(Tool, b.results, b.added, false)
  }

  function DoBatchDone(s: State): State {
    var b := s.run.batch;
    if Executing(b) || |b.results| < |b.calls| then s
    else
      var t := Say(s, ToolMessage(b));
      var mirror := MirrorContent(b.results);
      At(if s.run.cfg.mirrorsImages && mirror != [] then Say(t, Message(User, [Text(s.run.cfg.texts.mirror)] + mirror, [], false)) else t,
         Sent)
  }

  function DoEndTurn(s: State, stop: Stop, v: Verdict, incomplete: bool): State {
    if stop != StopEnd || s.run.denied then Finish(s, Finished)
    else if v != Quiet then DoWeigh(s, v)
    else if !incomplete then Finish(s, Finished)
    else if s.run.recovered then Finish(s, Result.Incomplete)
    else At(s, Recovering)
  }

  /** A step of the loop itself, once its hook calls have been made. */
  function Advance(s: State, a: Action): State {
    match s.run.pc
    case Top => if a == Enter then DoEnter(s) else s
    case Delivering(retry) =>
      if a == Deliver then DoDeliver(s)
      else if s.q.inflight != [] then s
      else if retry then if a == Proceed then At(s, Calling) else s
      else if a.Gate? then DoGate(s, a.stopped) else s
    case Hooks => if a.Hook? then DoHook(s, a.allowed) else s
    case Composing => if a.Compose? then DoCompose(s, a.text) else s
    case Calling => if a.Call? then DoCall(s, a.outcome) else s
    case Judging(o) => if a == Judge then DoJudge(s, o) else s
    case Retrying(delay) => if a == Schedule then DoSchedule(s, delay) else s
    case Sleeping(delay) => if a.Wake? then DoWake(s, delay, a.noticed) else s
    case Woken => if a == Refill then At(s.(q := Queue.Drain(s.q)), Delivering(true)) else s
    case Weighing => if a.Observe? then DoWeigh(s, a.verdict) else s
    case Running(_) =>
      if a == StartCall then DoStartCall(s)
      else if a.FinishCall? then DoFinishCall(s, a.out, a.rejected)
      else if a == BatchDone then DoBatchDone(s) else s
    case Sent => if a == AfterBatch then if s.cancelled then Finish(s, CtxDone) else At(s, Observing) else s
    case Observing =>
      if a == ObserveDone then NextStep(s)
      else if a.Observe? then DoVerdict(s, a.verdict) else s
    case Closing(stop) => if a.EndTurn? then DoEndTurn(s, stop, a.verdict, a.incomplete) else s
    case Counting => if a == Count then DoCount(s) else s
    case EndCounting(_) => if a == Count then DoCount(s) else s
    case _ => if a == Look then DoLook(s) else s
  }

  /** Everything but the other threads, the host between runs and the hook calls. */
  predicate ByLoop(a: Action) {
    !(a.Accept? || a.Pop? || a.PopUser? || a.TakeAll? || a.Cancel? || a.Flush? || a.Begin? || a.CompactTo?)
  }

  function Step(s: State, a: Action): State {
    match a
    case Accept(m) => s.(q := Queue.Accept(s.q, m))
    case Pop => s.(q := Queue.Pop(s.q))
    case PopUser => s.(q := Queue.PopUser(s.q))
    case TakeAll => s.(q := Queue.TakeAll(s.q))
    case Cancel => s.(cancelled := true)
    case Flush => s.(mem := Memory.Flush(s.mem))
    case Begin(prompt, cfg) => if Resting(s) then DoBegin(s, prompt, cfg) else s
    case CompactTo(next) => if Resting(s) then s.(mem := Memory.Replace(s.mem, next)) else s
    case _ => if s.mem.unsent == [] then Advance(s, a) else s
  }

  function Run(messages: seq<Message>, acts: seq<Action>): State {
    if acts == [] then Start(messages) else Step(Run(messages, Init(acts)), Last(acts))
  }
}
