/** The agent's mutable object (packages/core/agent.go): its fields, the methods other
    threads call on its queue, and the run loop. Ghost state `trail` records the engine
    states the fields pass through; every method keeps the fields equal to the last
    one, so whatever holds of every engine run holds of the object.

    What the object does not decide itself comes from a World, indexed by a counter
    of questions asked: provider replies, tool and hook results, guard verdicts, and
    what other threads did since the lock was last held. */
module Agent {
  import opened Transcript
  import opened Engine
  import Compaction
  import Memory
  import EngineCauses
  import EngineLog
  import EngineResults
  import Plan
  import Queue
  import Trail

  datatype ThreadCall = Queues(message: Queue.QueuedMessage) | TakesNewest | TakesNewestUser | TakesEverything | Cancels

  datatype World = World(
    meanwhile: nat -> seq<ThreadCall>,
    outcome: nat -> Outcome,
    stopped: nat -> bool,
    allowed: nat -> bool,
    context: nat -> Bytes,
    noticed: nat -> bool,
    verdict: nat -> Verdict,
    observations: nat -> nat,
    tool: nat -> ToolOutcome,
    rejected: nat -> Option<Bytes>,
    incomplete: nat -> bool)

  const STANDARD_TEXTS := Texts(
    Ascii("Skipped: the user sent a new message before this tool ran. Read it, then re-run this tool if still needed."),
    Ascii("The request ended without a final answer. Continue the authorized work if it remains actionable. Otherwise provide the result, the concrete blocker, or the specific decision required. Do not merely promise to continue. Respect the user's scope, tool permissions, required confirmations, and any pending required work."),
    Ascii("Tool output included the following image content:"))

  /** Only what other threads may change differs. */
  ghost predicate OthersActed(s: State, t: State) {
    && t.mem == s.mem && t.run == s.run && t.spots == s.spots
    && t.q.inflight == s.q.inflight && t.q.delivered == s.q.delivered
    && (s.cancelled ==> t.cancelled)
  }

  /** The row appends a user's message with the request's text and images. */
  ghost predicate Requests(row: Memory.Row, prompt: Prompt) {
    row.Appended? && Queue.Says(row.message, prompt.text, prompt.images)
  }

  /** `now` has one user's message more per entry, in order, with its text and images. */
  ghost predicate Arrived(before: seq<Message>, now: seq<Message>, entries: seq<Queue.Entry>) {
    && |now| == |before| + |entries| && before <= now
    && forall i :: 0 <= i < |entries| ==> ArrivedAs(now[|before| + i], entries[i])
  }

  ghost predicate ArrivedAs(m: Message, e: Queue.Entry) {
    Queue.Says(m, e.message.text, e.message.images)
  }

  lemma DeliveredArrive(before: seq<Message>, entries: seq<Queue.Entry>)
    ensures Arrived(before, before + Delivered(entries), entries)
  {
    forall i | 0 <= i < |entries| ensures ArrivedAs(Delivered(entries)[i], entries[i]) {
      Queue.BlocksSay(entries[i].message.text, entries[i].message.images);
    }
  }

  /** How a reply that stopped for good leaves the turn. */
  datatype Ending = Ends(result: Result) | GoesOn | Recovers

  /** A plain end is weighed by the guard and may be continued once; any other stop, or
      a denied call, ends the turn as it is. */
  function EndingOf(stop: Stop, denied: bool, recovered: bool, v: Verdict, incomplete: bool): Ending {
    if stop != StopEnd || denied then Ends(Finished)
    else if v == Halted then Ends(Repetitive)
    else if v.Warned? then GoesOn
    else if !incomplete then Ends(Finished)
    else if recovered then Ends(Result.Incomplete)
    else Recovers
  }

  predicate EndingIs(e: Ending, result: Option<Result>, recovering: bool) {
    result == (if e.Ends? then Some(e.result) else None) && recovering == e.Recovers?
  }

  /** The prompt a warning becomes. */
  function Warning(v: Verdict): seq<Message> {
    if v.Warned? then [Message(User, [Text(v.prompt)], [], false)] else []
  }

  function Warnings(verdicts: seq<Verdict>): seq<Message> {
    if verdicts == [] then [] else Warnings(Init(verdicts)) + Warning(Last(verdicts))
  }

  function EndWarning(stop: Stop, denied: bool, v: Verdict): seq<Message> {
    if stop != StopEnd || denied then [] else Warning(v)
  }

  lemma WarningsSnoc(verdicts: seq<Verdict>, v: Verdict)
    ensures Warnings(verdicts + [v]) == Warnings(verdicts) + Warning(v)
  {
    assert Init(verdicts + [v]) == verdicts;
  }

  /** Verdicts in turn: only the last one halts, and does so if the loop halted. */
  predicate Told(verdicts: seq<Verdict>, halted: bool) {
    if halted then verdicts != [] && Last(verdicts) == Halted && Halted !in Init(verdicts) else Halted !in verdicts
  }

  lemma ToldSnoc(verdicts: seq<Verdict>, v: Verdict)
    requires Told(verdicts, false)
    ensures Told(verdicts + [v], v == Halted)
  {
    assert Init(verdicts + [v]) == verdicts && Last(verdicts + [v]) == v;
  }

  class Agent {
    const cfg: Config
    const world: World
    var messages: seq<Message>
    var queued: seq<Queue.Entry>
    var denied: bool
    /** The acceptance clock, the context's cancellation and the journal behind the hooks. */
    var clock: nat
    var cancelled: bool
    var journal: seq<Memory.Row>
    var asked: nat
    ghost const start: seq<Message>
    ghost var trail: seq<State>
    /** The journal up to and with the newest request. */
    ghost var opening: seq<Memory.Row>

    ghost function Now(): State
      requires trail != []
      reads this
    {
      Last(trail)
    }

    ghost predicate Shows(s: State)
      reads this
    {
      && s.mem.messages == messages && s.mem.rows == journal && s.q.queued == queued && s.q.clock == clock
      && s.cancelled == cancelled && s.run.denied == denied
    }

    ghost predicate Valid()
      reads this
      ensures Valid() ==> trail != []
    {
      && Trail.Path(start, trail)
      && Shows(Last(trail))
      && opening <= journal
    }

    /** The loop's fixed texts are the program's own, whatever `limits` carries. */
    constructor (limits: Config, world: World, messages: seq<Message>)
      ensures Valid() && this.messages == messages && this.world == world && start == messages
      ensures cfg == limits.(texts := STANDARD_TEXTS)
      ensures Now() == Start(messages)
    {
      this.cfg, this.world, this.messages, start := limits.(texts := STANDARD_TEXTS), world, messages, messages;
      queued, denied, clock, cancelled, journal, asked := [], false, 0, false, [Memory.Replaced(messages)], 0;
      trail, opening := [Start(messages)], [];
    }

    // --------------------------------------------------------------- the queue

    method QueuePrompt(message: Queue.QueuedMessage) returns (ok: bool)
      requires Valid()
      modifies this`queued, this`clock, this`trail
      ensures Valid() && OthersActed(old(Now()), Now())
      ensures ok == (Queue.Trim(message.text) != [] || message.images != [])
      ensures ok ==> queued == old(queued) + [Queue.Entry(message.(text := Queue.Trim(message.text)), old(clock))]
      ensures Queue.TrimmedTo(message.text, Queue.Trim(message.text))
      ensures !ok ==> queued == old(queued)
    {
      ghost var t := Trail.Accepts(start, trail, message);
      trail := trail + [t];
      var text := Queue.Trim(message.text);
      Queue.TrimIs(message.text);
      if text == [] && message.images == [] {
        return false;
      }
      queued := queued + [Queue.Entry(message.(text := text), clock)];
      clock := clock + 1;
      return true;
    }

    method PopQueuedMessage() returns (out: Option<Queue.QueuedMessage>)
      requires Valid()
      modifies this`queued, this`trail
      ensures Valid() && OthersActed(old(Now()), Now())
      ensures if old(queued) == [] then out == None && queued == []
              else out == Some(Last(old(queued)).message) && queued == Init(old(queued))
    {
      ghost var t := Trail.Pops(start, trail);
      trail := trail + [t];
      var n := |queued|;
      if n == 0 {
        return None;
      }
      out := Some(queued[n - 1].message);
      queued := queued[..n - 1];
      assert Queue.Without(old(queued), n - 1) == queued;
    }

    /** Leaves host evidence in place and keeps the order of the rest. */
    method PopQueuedUserMessage() returns (out: Option<Queue.QueuedMessage>)
      requires Valid()
      modifies this`queued, this`trail
      ensures Valid() && OthersActed(old(Now()), Now())
      ensures var i := Queue.NewestUser(old(queued));
              if i == |old(queued)| then out == None && queued == old(queued)
              else out == Some(old(queued)[i].message) && queued == old(queued)[..i] + old(queued)[i + 1..]
    {
      ghost var t := Trail.PopsUser(start, trail);
      trail := trail + [t];
      var index := |queued|;
      while index > 0
        invariant 0 <= index <= |queued| && queued == old(queued)
        invariant forall k :: index <= k < |queued| ==> queued[k].message.hostEvent
      {
        index := index - 1;
        if !queued[index].message.hostEvent {
          out := Some(queued[index].message);
          queued := queued[..index] + queued[index + 1..];
          return;
        }
      }
      return None;
    }

    method DrainQueuedMessages() returns (out: seq<Queue.Entry>)
      requires Valid()
      modifies this`queued, this`trail
      ensures Valid() && OthersActed(old(Now()), Now())
      ensures out == old(queued) && queued == []
    {
      ghost var t := Trail.TakesAll(start, trail);
      trail := trail + [t];
      out := queued;
      queued := [];
    }

    method CancelRun()
      requires Valid()
      modifies this`cancelled, this`trail
      ensures Valid() && OthersActed(old(Now()), Now()) && cancelled
    {
      ghost var t := Trail.Cancels(start, trail);
      trail := trail + [t];
      cancelled := true;
    }

    method Perform(call: ThreadCall)
      requires Valid()
      modifies this`queued, this`clock, this`cancelled, this`trail
      ensures Valid() && OthersActed(old(Now()), Now())
    {
      match call {
        case Queues(m) => var _ := QueuePrompt(m);
        case TakesNewest => var _ := PopQueuedMessage();
        case TakesNewestUser => var _ := PopQueuedUserMessage();
        case TakesEverything => var _ := DrainQueuedMessages();
        case Cancels => CancelRun();
      }
    }

    /** The lock is free: other threads run. */
    method Unlocked()
      requires Valid()
      modifies this`queued, this`clock, this`cancelled, this`asked, this`trail
      ensures Valid() && OthersActed(old(Now()), Now()) && asked == old(asked) + 1
    {
      var calls := world.meanwhile(asked);
      asked := asked + 1;
      for i := 0 to |calls|
        invariant Valid() && OthersActed(old(Now()), Now()) && asked == old(asked) + 1
      {
        Perform(calls[i]);
      }
    }

    // ------------------------------------------------------- the hooks' journal

    /** A hook call, outside the lock, for the oldest change not reported yet. */
    method Fire(row: Memory.Row)
      requires Valid() && Now().mem.unsent != [] && Now().mem.unsent[0] == row
      modifies this`journal, this`queued, this`clock, this`cancelled, this`asked, this`trail
      ensures Valid() && OthersActed(old(Now()).(mem := Memory.Flush(old(Now()).mem)), Now())
      ensures journal == old(journal) + [row]
    {
      journal := journal + [row];
      ghost var t := Trail.Flushes(start, trail);
      trail := trail + [t];
      Unlocked();
    }

    /** Appends one message, as the engine step to `t` does, and reports it. */
    method AppendMessage(message: Message, ghost t: State)
      requires Valid() && Trail.Ready(trail) && Trail.Path(start, trail + [t])
      requires t.mem == Memory.Append(Now().mem, message)
      requires t.q.queued == queued && t.q.clock == clock && t.cancelled == cancelled && t.run.denied == denied
      modifies this`messages, this`journal, this`queued, this`clock, this`cancelled, this`asked, this`trail
      ensures Valid() && Trail.Ready(trail) && messages == old(messages) + [message]
      ensures Now().run == t.run && Now().q.inflight == t.q.inflight && (t.cancelled ==> cancelled)
    {
      trail := trail + [t];
      messages := messages + [message];
      Fire(Memory.Appended(message));
    }

    // ---------------------------------------------------- delivery of the queue

    /** Appends queued input to the transcript, one message and one hook call at a time. */
    method DeliverQueued(pending: seq<Queue.Entry>)
      requires Valid() && Trail.Ready(trail) && Now().run.pc.Delivering? && Now().q.inflight == pending
      modifies this`messages, this`journal, this`queued, this`clock, this`cancelled, this`asked, this`trail
      ensures Valid() && Trail.Ready(trail) && Now().run == old(Now()).run && Now().q.inflight == []
      ensures messages == old(messages) + Delivered(pending) && Arrived(old(messages), messages, pending)
    {
      assert pending[..0] == [] && pending[0..] == pending;
      for i := 0 to |pending|
        invariant Valid() && Trail.Ready(trail) && Now().run == old(Now()).run && Now().q.inflight == pending[i..]
        invariant messages == old(messages) + Delivered(pending[..i])
      {
        var message := Queue.UserMessage(pending[i]);
        ghost var t := Trail.Delivers(start, trail);
        AppendMessage(message, t);
        assert Delivered(pending[..i + 1]) == Delivered(pending[..i]) + [message];
      }
      assert pending[..|pending|] == pending;
      DeliveredArrive(old(messages), pending);
    }

    /** Top of a step: late input is delivered before the model is asked. */
    method DeliverAtStep(step: int)
      requires Valid() && Trail.Ready(trail) && Now().run.pc == Top && Now().q.inflight == []
      requires Now().run.step == step && !(0 < Now().run.cfg.maxSteps < step)
      modifies this`messages, this`journal, this`queued, this`clock, this`cancelled, this`asked, this`trail
      ensures Valid() && Trail.Ready(trail) && Now().run == old(Now()).run.(pc := Delivering(false)) && Now().q.inflight == []
      ensures messages == old(messages) + Delivered(old(queued)) && Arrived(old(messages), messages, old(queued))
    {
      var pending := queued;
      ghost var t := Trail.Enters(start, trail);
      trail := trail + [t];
      queued := [];
      assert [] + pending == pending;
      DeliverQueued(pending);
    }

    /** After a retry's delay, the same. */
    method DeliverAtRetry()
      requires Valid() && Trail.Ready(trail) && Now().run.pc == Woken && Now().q.inflight == []
      modifies this`messages, this`journal, this`queued, this`clock, this`cancelled, this`asked, this`trail
      ensures Valid() && Trail.Ready(trail) && Now().run == old(Now()).run.(pc := Calling) && Now().q.inflight == []
      ensures messages == old(messages) + Delivered(old(queued)) && Arrived(old(messages), messages, old(queued))
    {
      var pending := queued;
      ghost var t := Trail.Refills(start, trail);
      trail := trail + [t];
      queued := [];
      assert [] + pending == pending;
      DeliverQueued(pending);
      ghost var u := Trail.Proceeds(start, trail);
      trail := trail + [u];
    }

    // -------------------------------------------------------- opening of a step

    method PassGate() returns (stopped: bool)
      requires Valid() && Trail.Ready(trail) && Now().run.pc == Delivering(false) && Now().q.inflight == []
      modifies this`queued, this`clock, this`cancelled, this`asked, this`trail
      ensures Valid() && Trail.Ready(trail) && Now().q.inflight == [] && Now().mem == old(Now()).mem
      ensures stopped == world.stopped(old(asked)) && asked == old(asked) + 1
      ensures if stopped then Now().run.pc == Returned(Repetitive)
              else Now().run == old(Now()).run.(pc := Hooks, trace := old(Now()).run.trace + [TurnStart(old(Now()).run.step)])
    {
      stopped := world.stopped(asked);
      ghost var t := Trail.Gates(start, trail, stopped);
      trail := trail + [t];
      Unlocked();
    }

    /** The guard's gate and the host's turn hook. */
    method OpenTurn() returns (result: Option<Result>)
      requires Valid() && Trail.Ready(trail) && Now().run.pc == Delivering(false) && Now().q.inflight == []
      modifies this`queued, this`clock, this`cancelled, this`asked, this`trail
      ensures Valid() && Trail.Ready(trail) && Now().q.inflight == [] && messages == old(messages)
      ensures result == if world.stopped(old(asked)) then Some(Repetitive)
                        else if world.allowed(old(asked) + 1) then None else Some(Finished)
      ensures if result.Some? then Now().run.pc == Returned(result.value)
              else Now().run == old(Now()).run.(pc := Composing, trace := old(Now()).run.trace + [TurnStart(old(Now()).run.step)])
    {
      var stopped := PassGate();
      if stopped {
        return Some(Repetitive);
      }
      var allowed := world.allowed(asked);
      ghost var u := Trail.HooksRun(start, trail, allowed);
      trail := trail + [u];
      if !allowed {
        return Some(Finished);
      }
      return None;
    }

    method FindContext() returns (latest: Option<Message>)
      ensures latest == Memory.LatestContext(messages)
    {
      var i := |messages|;
      assert messages[..i] == messages;
      while i > 0
        invariant 0 <= i <= |messages|
        invariant Memory.LatestContext(messages) == Memory.LatestContext(messages[..i])
      {
        i := i - 1;
        assert Last(messages[..i + 1]) == messages[i] && Init(messages[..i + 1]) == messages[..i];
        if Memory.IsContext(messages[i]) {
          return Some(messages[i]);
        }
      }
      return None;
    }

    /** Records the host's context for this step unless the newest one says the same. */
    method AppendDynamicContext(text: Bytes)
      requires Valid() && Trail.Ready(trail) && Now().run.pc == Composing && Now().q.inflight == []
      modifies this`messages, this`journal, this`queued, this`clock, this`cancelled, this`asked, this`trail
      ensures Valid() && Trail.Ready(trail) && Now().q.inflight == []
      ensures Now().run == DoCompose(old(Now()), text).run
      ensures messages == Memory.AddContext(old(Now().mem), text).messages && Memory.Records(old(messages), messages, text)
    {
      Memory.LatestIffAny(messages);
      Memory.AddContextRecords(Now().mem, text);
      ghost var t := Trail.Composes(start, trail, text);
      trail := trail + [t];
      if text == [] {
        return;
      }
      var latest := FindContext();
      if latest.Some? && Memory.ContextText(latest.value) == text {
        return;
      }
      var message := Memory.ContextMessage(text);
      if latest == None {
        messages := [message] + messages;
        Fire(Memory.Replaced(messages));
      } else {
        messages := messages + [message];
        Fire(Memory.Appended(message));
      }
    }

    /** The host is asked what the model should know now. */
    method ComposeContext()
      requires Valid() && Trail.Ready(trail) && Now().run.pc == Composing && Now().q.inflight == [] && Now().run.cfg == cfg
      modifies this`messages, this`journal, this`queued, this`clock, this`cancelled, this`asked, this`trail
      ensures Valid() && Trail.Ready(trail) && Now().q.inflight == []
      ensures Trail.SameLoop(old(Now()).run, Now().run) && Now().run.pc == Calling
      ensures Trail.Counters(Now().run, 0, 0, 0, FirstMax(cfg))
      ensures Memory.Records(old(messages), messages, world.context(old(asked)))
    {
      AppendDynamicContext(world.context(asked));
    }

    // ------------------------------------------------------------- one model call

    method AskModel() returns (o: Outcome)
      requires Valid()
      modifies this`queued, this`clock, this`cancelled, this`asked, this`trail
      ensures Valid() && OthersActed(old(Now()), Now()) && o == world.outcome(old(asked) + 1)
    {
      Unlocked();
      o := world.outcome(asked);
    }

    /** Sends the request and appends the reply if it is worth keeping. */
    method OneTurn(attempt: nat, maxAttempts: int) returns (o: Outcome)
      requires Valid() && Trail.Ready(trail) && Now().run.pc == Calling && Now().q.inflight == []
      requires attempt == Now().run.attempts && maxAttempts == Now().run.maxAttempts
      modifies this`messages, this`journal, this`queued, this`clock, this`cancelled, this`asked, this`trail
      ensures Valid() && Trail.Ready(trail) && Now().q.inflight == []
      ensures Trail.SameLoop(old(Now()).run, Now().run) && Now().run.pc == Judging(o) && Now().run.snapshot == old(messages)
      ensures Trail.Counters(Now().run, old(Now()).run.idle, old(Now()).run.transient, attempt + 1, maxAttempts)
      ensures o == world.outcome(old(asked) + 1)
      ensures messages == old(messages) + if WorthKeeping(o) then [Message(Assistant, o.content, [], false)] else []
    {
      o := AskModel();
      var keep := KeepsReply(o);
      ghost var t := Trail.Calls(start, trail, o);
      if keep {
        AppendMessage(Reply(o.content), t);
      } else {
        trail := trail + [t];
      }
    }

    /** Removes the reply a failed attempt appended. */
    method DropAssistantMessageAfter(before: nat)
      modifies this`messages
      ensures messages == if |old(messages)| > before && Last(old(messages)).role == Assistant
                          then Init(old(messages)) else old(messages)
    {
      var n := |messages|;
      if n > before && messages[n - 1].role == Assistant {
        messages := messages[..n - 1];
      }
    }

    /** Waits out a back-off; without a delay it only looks at the context. */
    method SleepRetry(delay: int) returns (aborted: bool)
      requires Valid() && Trail.Ready(trail) && Now().run.pc == Sleeping(delay) && Now().q.inflight == []
      modifies this`queued, this`clock, this`cancelled, this`asked, this`trail
      ensures Valid() && Trail.Ready(trail) && Now().q.inflight == [] && Now().mem == old(Now()).mem
      ensures Now().run == old(Now()).run.(pc := if aborted then Returned(CtxDone) else Woken)
      ensures aborted == (cancelled && (delay <= 0 || world.noticed(old(asked) + 1)))
    {
      Unlocked();
      var noticed := delay <= 0 || world.noticed(asked);
      aborted := cancelled && noticed;
      ghost var t := Trail.Wakes(start, trail, delay, noticed);
      trail := trail + [t];
    }

    /** A failed attempt: gives up, or drops its reply and schedules the next one. */
    method GiveUpOrDrop(o: Outcome, before: nat, retries: nat) returns (retry: bool, failure: Result)
      requires Valid() && Trail.Ready(trail) && Now().q.inflight == []
      requires Now().run.pc == Judging(o) && o.err.Some? && Now().run.cfg == cfg && before == |Now().run.snapshot|
      requires retries == if o.err == Some(IdleTimeout) then Now().run.idle else Now().run.transient
      modifies this`messages, this`trail
      ensures Valid() && Trail.Ready(trail) && Now().q.inflight == []
      ensures Trail.SameLoop(old(Now()).run, Now().run)
      ensures !retry ==> Now().run.pc == Returned(failure) && messages == old(messages)
      ensures retry == (MayRetry(cfg, o.err.value, retries) && !cancelled)
      ensures !retry ==> failure == if MayRetry(cfg, o.err.value, retries) then CtxDone else Failed(o.err.value)
      ensures retry ==> messages == if |old(messages)| > before && Last(old(messages)).role == Assistant
                                    then Init(old(messages)) else old(messages)
      ensures var r := old(Now()).run;
              retry ==> if o.err == Some(IdleTimeout)
                           then Now().run.pc == Retrying(0)
                                && Trail.Counters(Now().run, r.idle + 1, r.transient, r.attempts, r.maxAttempts + 1)
                           else Now().run.pc == Retrying(RetryDelay(cfg, r.transient))
                                && Trail.Counters(Now().run, r.idle, r.transient + 1, r.attempts, r.maxAttempts)
    {
      ghost var t := Trail.JudgesFailure(start, trail, o);
      var retryable := CanRetryError(cfg, o.err.value, retries);
      failure := if retryable then CtxDone else Failed(o.err.value);
      retry := retryable && !cancelled;
      if retry {
        DropAssistantMessageAfter(before);
      }
      trail := trail + [t];
    }

    /** From a scheduled retry to the next attempt, unless the context ends first. `late`
        is what was queued when the wait was over. */
    method AwaitRetry(delay: int) returns (ready: bool, ghost late: seq<Queue.Entry>)
      requires Valid() && Trail.Ready(trail) && Now().run.pc == Retrying(delay) && Now().q.inflight == []
      modifies this`messages, this`journal, this`queued, this`clock, this`cancelled, this`asked, this`trail
      ensures Valid() && Trail.Ready(trail) && Now().q.inflight == []
      ensures Trail.SameLoop(old(Now()).run, Now().run)
      ensures var r := old(Now()).run; Trail.Counters(Now().run, r.idle, r.transient, r.attempts, r.maxAttempts)
      ensures Now().run.pc == if ready then Calling else Returned(CtxDone)
      ensures if ready then messages == old(messages) + Delivered(late) else cancelled && messages == old(messages)
    {
      Unlocked();
      ghost var u := Trail.Schedules(start, trail, delay);
      trail := trail + [u];
      if cancelled {
        return false, [];
      }
      var aborted := SleepRetry(delay);
      if aborted {
        return false, [];
      }
      late := queued;
      DeliverAtRetry();
      ready := true;
    }

    /** One attempt: its reply is kept, or given up, or taken back for the next attempt. */
    method OneAttempt(attempt: nat, idle: nat, transient: nat, maxAttempts: int) returns (o: Outcome, retry: bool, failure: Result)
      requires Valid() && Trail.Ready(trail) && Now().q.inflight == [] && Now().run.pc == Calling && Now().run.cfg == cfg
      requires Trail.Counters(Now().run, idle, transient, attempt, maxAttempts)
      modifies this`messages, this`journal, this`queued, this`clock, this`cancelled, this`asked, this`trail
      ensures Valid() && Trail.Ready(trail) && Now().q.inflight == []
      ensures Trail.SameLoop(old(Now()).run, Now().run)
      ensures o == world.outcome(old(asked) + 1)
      ensures o.err == None ==> !retry && Now().run.pc == Trail.After(o)
      ensures o.err == None && o.stop == StopToolUse ==> Now().run.batch == NO_BATCH.(calls := ToolCalls(o.content))
      ensures o.err.Some? && !retry ==> Now().run.pc == Returned(failure)
      ensures messages == old(messages) + if !retry && WorthKeeping(o) then [Message(Assistant, o.content, [], false)] else []
      ensures retry ==> MayRetry(cfg, o.err.value, if o.err == Some(IdleTimeout) then idle else transient)
      ensures retry ==> if o.err == Some(IdleTimeout)
                           then Now().run.pc == Retrying(0) && Trail.Counters(Now().run, idle + 1, transient, attempt + 1, maxAttempts + 1)
                           else Now().run.pc == Retrying(RetryDelay(cfg, transient))
                                && Trail.Counters(Now().run, idle, transient + 1, attempt + 1, maxAttempts)
    {
      var before := |messages|;
      o := OneTurn(attempt, maxAttempts);
      if o.err == None {
        Accept(o);
        return o, false, Finished;
      }
      retry, failure := GiveUpOrDrop(o, before, if o.err == Some(IdleTimeout) then idle else transient);
    }

    /** The attempt loop of one step: the outcome of the attempt that succeeded. Failed
        attempts leave nothing but the input that arrived meanwhile. */
    method Attempts()
      returns (o: Option<Outcome>, failure: Result, ghost late: seq<Queue.Entry>, ghost reply: seq<Message>)
      requires Valid() && Trail.Ready(trail) && Now().q.inflight == [] && Now().run.cfg == cfg
      requires Now().run.pc == Calling && Trail.Counters(Now().run, 0, 0, 0, FirstMax(cfg))
      modifies this`messages, this`journal, this`queued, this`clock, this`cancelled, this`asked, this`trail
      ensures Valid() && Trail.Ready(trail) && Now().q.inflight == []
      ensures Trail.SameLoop(old(Now()).run, Now().run)
      ensures o == None ==> Now().run.pc == Returned(failure)
      ensures o.Some? ==> o.value.err == None && Now().run.pc == Trail.After(o.value)
      ensures o.Some? && o.value.stop == StopToolUse ==> Now().run.batch == NO_BATCH.(calls := ToolCalls(o.value.content))
      ensures Left(old(messages), messages, late, reply)
      ensures o.Some? ==> reply == if WorthKeeping(o.value) then [Message(Assistant, o.value.content, [], false)] else []
    {
      var maxAttempts := FirstMax(cfg);
      var attempt, idle, transient := 0, 0, 0;
      late, reply := [], [];
      while true
        invariant Valid() && Trail.Ready(trail) && Now().q.inflight == [] && Now().run.pc == Calling
        invariant Trail.SameLoop(old(Now()).run, Now().run) && Now().run.cfg == cfg
        invariant Trail.Counters(Now().run, idle, transient, attempt, maxAttempts)
        invariant idle <= Max(cfg.maxIdleRetries, 0) && transient <= Max(cfg.maxRetries, 0)
        invariant reply == [] && Left(old(messages), messages, late, [])
        decreases Max(cfg.maxIdleRetries, 0) + Max(cfg.maxRetries, 0) - idle - transient
      {
        ghost var before := messages;
        var outcome, retry;
        outcome, retry, failure := OneAttempt(attempt, idle, transient, maxAttempts);
        if !retry {
          reply := messages[|before|..];
          LeftReply(old(messages), before, messages, late, reply);
          return if outcome.err == None then Some(outcome) else None, failure, late, reply;
        }
        var delay := 0;
        if outcome.err == Some(IdleTimeout) {
          idle, maxAttempts := idle + 1, maxAttempts + 1;
        } else {
          delay := RetryDelay(cfg, transient);
          transient := transient + 1;
        }
        var ready;
        ghost var more;
        ready, more := AwaitRetry(delay);
        if !ready {
          return None, CtxDone, late, [];
        }
        LeftMore(old(messages), before, messages, late, more);
        late := late + more;
        attempt := attempt + 1;
      }
    }

    method Accept(o: Outcome)
      requires Valid() && Trail.Ready(trail) && Now().q.inflight == [] && Now().run.pc == Judging(o) && o.err == None
      modifies this`trail
      ensures Valid() && Trail.Ready(trail) && Now().q.inflight == []
      ensures Trail.SameLoop(old(Now()).run, Now().run) && Now().run.pc == Trail.After(o)
      ensures o.stop == StopToolUse ==> Now().run.batch == NO_BATCH.(calls := ToolCalls(o.content))
    {
      ghost var t := Trail.JudgesSuccess(start, trail, o);
      trail := trail + [t];
    }

    // ------------------------------------------------------------- tool execution

    /** Whether ordinary input is waiting; host evidence does not count. */
    method UserWaiting() returns (waiting: bool)
      ensures waiting == Queue.HasUser(queued)
      ensures waiting <==> exists i :: 0 <= i < |queued| && !queued[i].message.hostEvent
    {
      for i := 0 to |queued|
        invariant forall k :: 0 <= k < i ==> queued[k].message.hostEvent
      {
        if !queued[i].message.hostEvent {
          assert queued[i] in queued;
          return true;
        }
      }
      return false;
    }

    /** Decides whether the next call runs. */
    method StartOneCall(results: nat, skipping: bool) returns (skip: bool)
      requires Valid() && Trail.Ready(trail) && Now().run.pc.Running? && Now().q.inflight == []
      requires var b := Now().run.batch;
               |b.ran| == |b.results| == results < |b.calls| && b.skipping == skipping
      modifies this`trail
      ensures Valid() && Trail.Ready(trail) && Now().q.inflight == [] && Now().mem == old(Now()).mem
      ensures Trail.SameLoop(old(Now()).run, Now().run) && Now().run.pc == old(Now()).run.pc
      ensures skip == (skipping || (results > 0 && Queue.HasUser(queued)))
      ensures var b := old(Now()).run.batch;
              Now().run.batch == b.(skipping := skip, ran := b.ran + [!skip], userWaiting := b.userWaiting + [Queue.HasUser(queued)])
    {
      skip := skipping;
      if results > 0 && !skipping {
        skip := UserWaiting();
      }
      ghost var t := Trail.StartsCall(start, trail);
      trail := trail + [t];
    }

    /** What the call gives, and whether the host takes it. */
    method AskTool(skip: bool) returns (out: ToolOutcome, rejected: Option<Bytes>)
      requires Valid()
      modifies this`queued, this`clock, this`cancelled, this`asked, this`trail
      ensures Valid() && OthersActed(old(Now()), Now())
      ensures if skip then out == Skipped(cfg.texts.skip) else out == world.tool(old(asked) + 1)
      ensures rejected == world.rejected(old(asked) + if skip then 0 else 1)
    {
      if skip {
        out := Skipped(cfg.texts.skip);
      } else {
        Unlocked();
        out := world.tool(asked);
      }
      rejected := world.rejected(asked);
    }

    method RecordCall(call: Content, skip: bool, out: ToolOutcome, rejected: Option<Bytes>)
      requires Valid() && Trail.Ready(trail) && Now().run.pc.Running? && Now().q.inflight == [] && Now().run.cfg == cfg
      requires var b := Now().run.batch;
               Finishable(b) && b.calls[|b.results|] == call && Last(b.ran) == !skip
      modifies this`denied, this`trail
      ensures Valid() && Trail.Ready(trail) && Now().q.inflight == [] && Now().mem == old(Now()).mem
      ensures Now().run.cfg == cfg && Now().run.step == old(Now()).run.step && Now().run.recovered == old(Now()).run.recovered
      ensures Now().run.pc == old(Now()).run.pc
      ensures denied == (old(denied) || (!skip && out.denied))
      ensures Now().run.batch == WithResult(old(Now()).run.batch, cfg.texts.skip, out, rejected)
    {
      ghost var t := Trail.FinishesCall(start, trail, out, rejected);
      if !skip && out.denied {
        denied := true;
      }
      trail := trail + [t];
    }

    /** Runs the call or reports it skipped, and records what the host could persist. */
    method FinishOneCall(call: Content, skip: bool) returns (out: ToolOutcome, rejected: Option<Bytes>)
      requires Valid() && Trail.Ready(trail) && Now().run.pc.Running? && Now().q.inflight == [] && Now().run.cfg == cfg
      requires var b := Now().run.batch;
               Finishable(b) && b.calls[|b.results|] == call && Last(b.ran) == !skip
      modifies this`queued, this`clock, this`cancelled, this`asked, this`denied, this`trail
      ensures Valid() && Trail.Ready(trail) && Now().q.inflight == [] && Now().mem == old(Now()).mem
      ensures Now().run.cfg == cfg && Now().run.step == old(Now()).run.step && Now().run.recovered == old(Now()).run.recovered
      ensures Now().run.pc == old(Now()).run.pc
      ensures denied == (old(denied) || (!skip && out.denied))
      ensures if skip then out == Skipped(cfg.texts.skip) else out == world.tool(old(asked) + 1)
      ensures rejected == world.rejected(old(asked) + if skip then 0 else 1)
      ensures Now().run.batch == WithResult(old(Now()).run.batch, cfg.texts.skip, out, rejected)
      ensures var b, c := old(Now()).run.batch, Now().run.batch;
              && EngineResults.Grows(b, c, out, rejected)
              && EngineResults.Reports(Last(c.results), call, !skip, out, rejected, cfg.texts.skip)
    {
      EngineResults.WithResultReports(Now().run.batch, cfg.texts.skip);
      out, rejected := AskTool(skip);
      RecordCall(call, skip, out, rejected);
    }

    /** What the loop over the reply's blocks has done up to block i. */
    ghost predicate Executed(content: seq<Content>, i: nat, results: seq<Content>, added: seq<string>, skipping: bool)
      requires i <= |content|
      reads this
    {
      && Valid() && Trail.Ready(trail) && Now().q.inflight == [] && Now().run.pc == Running(content) && Now().run.cfg == cfg
      && var b := Now().run.batch;
         && b.calls == ToolCalls(content) && b.results == results && b.added == added && b.skipping == skipping
         && |b.ran| == |results| == |ToolCalls(content[..i])|
         && EngineResults.ResultsInv(b, cfg.texts.skip)
    }

    method ExecuteOne(content: seq<Content>, i: nat, results: seq<Content>, added: seq<string>, skipping: bool)
      returns (results': seq<Content>, added': seq<string>, skipping': bool)
      requires i < |content| && content[i].ToolCall? && Executed(content, i, results, added, skipping)
      modifies this`queued, this`clock, this`cancelled, this`asked, this`denied, this`trail
      ensures Executed(content, i + 1, results', added', skipping')
      ensures Now().mem == old(Now()).mem && Now().run.step == old(Now()).run.step
      ensures Now().run.recovered == old(Now()).run.recovered
    {
      CallsSplit(content, i);
      ghost var b0 := Now().run.batch;
      skipping' := StartOneCall(|results|, skipping);
      ghost var b1 := Now().run.batch;
      EngineResults.StartKeeps(b0, b1, cfg.texts.skip);
      var out, rejected := FinishOneCall(content[i], skipping');
      EngineResults.FinishKeeps(b1, cfg.texts.skip, out, rejected);
      results' := results + [Committed(content[i].id, out, rejected)];
      added' := if rejected.None? then AddNames(added, out.added) else added;
    }

    /** One result per call, in call order. */
    method ExecuteTools(content: seq<Content>) returns (results: seq<Content>, added: seq<string>)
      requires Valid() && Trail.Ready(trail) && Now().q.inflight == [] && Now().run.cfg == cfg
      requires Now().run.pc == Running(content) && Now().run.batch == NO_BATCH.(calls := ToolCalls(content))
      modifies this`queued, this`clock, this`cancelled, this`asked, this`denied, this`trail
      ensures Valid() && Executed(content, |content|, results, added, Now().run.batch.skipping)
      ensures |results| == |ToolCalls(content)|
      ensures var b := Now().run.batch;
              && |b.outs| == |b.rejections| == |b.ran| == |results|
              && (forall i :: 0 <= i < |results| ==> ResultIs(results[i], ToolCalls(content)[i], b, i))
              && forall name :: name in added <==> exists i :: EngineResults.Activated(b, name, i)
      ensures Now().mem == old(Now()).mem && Now().run.step == old(Now()).run.step
      ensures Now().run.recovered == old(Now()).run.recovered
    {
      results, added := [], [];
      EngineResults.FreshBatch(ToolCalls(content), cfg.texts.skip);
      var skipping := false;
      for i := 0 to |content|
        invariant Executed(content, i, results, added, skipping)
        invariant Now().mem == old(Now()).mem && Now().run.step == old(Now()).run.step
        invariant Now().run.recovered == old(Now()).run.recovered
      {
        if content[i].ToolCall? {
          results, added, skipping := ExecuteOne(content, i, results, added, skipping);
        } else {
          CallsSplit(content, i);
        }
      }
      assert content[..|content|] == content;
      forall i | 0 <= i < |results| ensures ResultIs(results[i], ToolCalls(content)[i], Now().run.batch, i) {
        assert EngineResults.ReportsAt(Now().run.batch, cfg.texts.skip, i);
      }
    }

    /** The i-th result of the batch is that of this call. */
    ghost predicate ResultIs(r: Content, call: Content, b: Batch, i: nat) {
      && i < |b.ran| && i < |b.outs| && i < |b.rejections|
      && EngineResults.Reports(r, call, b.ran[i], b.outs[i], b.rejections[i], cfg.texts.skip)
    }

    /** Appends the tool message, and its image mirror in the same lock section. */
    method SendResults(results: seq<Content>, added: seq<string>)
      requires Valid() && Trail.Ready(trail) && Now().q.inflight == [] && Now().run.pc.Running? && Now().run.cfg == cfg
      requires var b := Now().run.batch;
               b.results == results && b.added == added && |b.calls| == |results| == |b.ran|
      modifies this`messages, this`journal, this`queued, this`clock, this`cancelled, this`asked, this`trail
      ensures Valid() && Trail.Ready(trail) && Now().q.inflight == [] && Now().run == old(Now()).run.(pc := Sent)
      ensures var parts := MirrorContent(results);
              messages == old(messages) + [Message(Tool, results, added, false)]
                          + if cfg.mirrorsImages && parts != [] then [Message(User, [Text(cfg.texts.mirror)] + parts, [], false)] else []
    {
      var toolMessage := Message(Tool, results, added, false);
      var mirror := [];
      if cfg.mirrorsImages {
        mirror := MirrorToolImages(results);
      }
      ghost var t := Trail.FinishesBatch(start, trail);
      trail := trail + [t];
      messages := messages + [toolMessage];
      if mirror != [] {
        var message := Message(User, [Text(cfg.texts.mirror)] + mirror, [], false);
        messages := messages + [message];
        Fire(Memory.Appended(toolMessage));
        Fire(Memory.Appended(message));
      } else {
        Fire(Memory.Appended(toolMessage));
      }
    }

    /** A guard's verdict on an observation, before it moves the loop on. */
    method HandleVerdict(v: Verdict, ghost t: State) returns (halted: bool)
      requires Valid() && Trail.Ready(trail) && Trail.Path(start, trail + [t])
      requires Trail.Spoke(Now(), t, v)
      modifies this`messages, this`journal, this`queued, this`clock, this`cancelled, this`asked, this`trail
      ensures Valid() && Trail.Ready(trail) && Now().run == t.run && Now().q.inflight == t.q.inflight
      ensures halted == (v == Halted)
      ensures messages == old(messages) + Warning(v)
    {
      match v {
        case Warned(prompt) => AppendMessage(UserText(prompt), t);
        case _ => trail := trail + [t];
      }
      return v == Halted;
    }

    method ObserveCall() returns (halted: bool, ghost v: Verdict)
      requires Valid() && Trail.Ready(trail) && Now().q.inflight == [] && Now().run.pc == Observing
      modifies this`messages, this`journal, this`queued, this`clock, this`cancelled, this`asked, this`trail
      ensures Valid() && Trail.Ready(trail) && Now().q.inflight == []
      ensures Now().run.cfg == old(Now()).run.cfg && Now().run.recovered == old(Now()).run.recovered
      ensures if halted then Now().run.pc == Returned(Repetitive)
              else Now().run.pc == Observing && Now().run.step == old(Now()).run.step
      ensures v == world.verdict(old(asked)) && halted == (v == Halted) && messages == old(messages) + Warning(v)
    {
      var verdict := world.verdict(asked);
      v := verdict;
      ghost var u := Trail.Observes(start, trail, verdict);
      halted := HandleVerdict(verdict, u);
      asked := asked + 1;
    }

    /** The guard sees every executed call in turn, until it halts. */
    method ObserveCalls() returns (halted: bool, ghost verdicts: seq<Verdict>)
      requires Valid() && Trail.Ready(trail) && Now().q.inflight == [] && Now().run.pc == Observing
      modifies this`messages, this`journal, this`queued, this`clock, this`cancelled, this`asked, this`trail
      ensures Valid() && Trail.Ready(trail) && Now().q.inflight == []
      ensures Now().run.cfg == old(Now()).run.cfg && Now().run.recovered == old(Now()).run.recovered
      ensures if halted then Now().run.pc == Returned(Repetitive)
              else Now().run.pc == Observing && Now().run.step == old(Now()).run.step
      ensures Told(verdicts, halted) && (!halted ==> |verdicts| == world.observations(old(asked)))
      ensures messages == old(messages) + Warnings(verdicts)
    {
      verdicts := [];
      var count := world.observations(asked);
      for i := 0 to count
        invariant |verdicts| == i && Told(verdicts, false) && messages == old(messages) + Warnings(verdicts)
        invariant Valid() && Trail.Ready(trail) && Now().q.inflight == [] && Now().run.pc == Observing
        invariant Now().run.cfg == old(Now()).run.cfg && Now().run.recovered == old(Now()).run.recovered
        invariant Now().run.step == old(Now()).run.step
      {
        ghost var v;
        halted, v := ObserveCall();
        WarningsSnoc(verdicts, v);
        ToldSnoc(verdicts, v);
        verdicts := verdicts + [v];
        if halted {
          return;
        }
      }
      return false, verdicts;
    }

    /** After a batch: a cancelled context ends the run before the guard is asked. */
    method AfterTools() returns (result: Option<Result>, ghost verdicts: seq<Verdict>)
      requires Valid() && Trail.Ready(trail) && Now().q.inflight == [] && Now().run.pc == Sent
      modifies this`messages, this`journal, this`queued, this`clock, this`cancelled, this`asked, this`trail
      ensures Valid() && Trail.Ready(trail) && Now().q.inflight == []
      ensures Trail.Onward(old(Now()).run, Now().run, result)
      ensures old(cancelled) ==> result == Some(CtxDone) && messages == old(messages)
      ensures !old(cancelled) ==>
                && result == (if Halted in verdicts then Some(Repetitive) else None)
                && Told(verdicts, Halted in verdicts)
                && (Halted !in verdicts ==> |verdicts| == world.observations(old(asked) + 1))
                && messages == old(messages) + Warnings(verdicts)
    {
      ghost var t := Trail.Leaves(start, trail);
      trail := trail + [t];
      if cancelled {
        return Some(CtxDone), [];
      }
      Unlocked();
      result, verdicts := GuardBatch();
    }

    method GuardBatch() returns (result: Option<Result>, ghost verdicts: seq<Verdict>)
      requires Valid() && Trail.Ready(trail) && Now().q.inflight == [] && Now().run.pc == Observing
      modifies this`messages, this`journal, this`queued, this`clock, this`cancelled, this`asked, this`trail
      ensures Valid() && Trail.Ready(trail) && Now().q.inflight == []
      ensures Trail.Onward(old(Now()).run, Now().run, result)
      ensures result == (if Halted in verdicts then Some(Repetitive) else None)
      ensures Told(verdicts, Halted in verdicts)
      ensures Halted !in verdicts ==> |verdicts| == world.observations(old(asked))
      ensures messages == old(messages) + Warnings(verdicts)
    {
      var halted;
      halted, verdicts := ObserveCalls();
      if halted {
        return Some(Repetitive), verdicts;
      }
      ghost var w := Trail.ObservesAll(start, trail);
      trail := trail + [w];
      return None, verdicts;
    }

    /** Late input starts the next step instead of ending the turn. */
    method QueueWaiting() returns (late: bool)
      requires Valid() && Trail.Ready(trail) && Now().q.inflight == []
      requires Now().run.pc.Counting? || Now().run.pc.EndCounting?
      modifies this`queued, this`clock, this`cancelled, this`asked, this`trail
      ensures Valid() && Trail.Ready(trail) && Now().q.inflight == []
      ensures late == (queued != []) && asked == old(asked) + 1
      ensures if late then Trail.Onward(old(Now()).run, Now().run, None)
              else Trail.SameLoop(old(Now()).run, Now().run) && Now().run.step == old(Now()).run.step
                   && Now().run.pc == if old(Now()).run.pc.Counting? then Weighing else Closing(old(Now()).run.pc.stop)
    {
      Unlocked();
      ghost var u := Trail.Counts(start, trail);
      trail := trail + [u];
      return |queued| > 0;
    }

    /** A reply the provider will continue. `waiting` is the queue when it is read. */
    method ContinueReply() returns (result: Option<Result>, ghost waiting: seq<Queue.Entry>)
      requires Valid() && Trail.Ready(trail) && Now().q.inflight == [] && Now().run.pc == Continuing
      modifies this`messages, this`journal, this`queued, this`clock, this`cancelled, this`asked, this`trail
      ensures Valid() && Trail.Ready(trail) && Now().q.inflight == []
      ensures Trail.Onward(old(Now()).run, Now().run, result)
      ensures old(cancelled) ==> result == Some(CtxDone) && messages == old(messages)
      ensures !old(cancelled) && waiting != [] ==> result == None && messages == old(messages) && queued == waiting
      ensures !old(cancelled) && waiting == [] ==>
                var v := world.verdict(old(asked) + 2);
                && result == (if v == Halted then Some(Repetitive) else None)
                && messages == old(messages) + Warning(v)
    {
      ghost var t := Trail.LooksOn(start, trail);
      trail := trail + [t];
      if cancelled {
        return Some(CtxDone), queued;
      }
      result, waiting := ContinueLive();
    }

    method ContinueLive() returns (result: Option<Result>, ghost waiting: seq<Queue.Entry>)
      requires Valid() && Trail.Ready(trail) && Now().q.inflight == [] && Now().run.pc == Counting
      modifies this`messages, this`journal, this`queued, this`clock, this`cancelled, this`asked, this`trail
      ensures Valid() && Trail.Ready(trail) && Now().q.inflight == []
      ensures Trail.Onward(old(Now()).run, Now().run, result)
      ensures waiting != [] ==> result == None && messages == old(messages) && queued == waiting
      ensures waiting == [] ==>
                var v := world.verdict(old(asked) + 2);
                && result == (if v == Halted then Some(Repetitive) else None)
                && messages == old(messages) + Warning(v)
    {
      var late := QueueWaiting();
      waiting := queued;
      if late {
        return None, waiting;
      }
      result := WeighReply();
    }

    method WeighReply() returns (result: Option<Result>)
      requires Valid() && Trail.Ready(trail) && Now().q.inflight == [] && Now().run.pc == Weighing
      modifies this`messages, this`journal, this`queued, this`clock, this`cancelled, this`asked, this`trail
      ensures Valid() && Trail.Ready(trail) && Now().q.inflight == []
      ensures Trail.Onward(old(Now()).run, Now().run, result)
      ensures var v := world.verdict(old(asked) + 1);
              && result == (if v == Halted then Some(Repetitive) else None)
              && messages == old(messages) + Warning(v)
    {
      Unlocked();
      var v := world.verdict(asked);
      ghost var w := Trail.Weighs(start, trail, v);
      var halted := HandleVerdict(v, w);
      return if halted then Some(Repetitive) else None;
    }

    /** With the context over nobody looks at the queue. */
    method LookAtEnd(stop: Stop) returns (live: bool)
      requires Valid() && Trail.Ready(trail) && Now().q.inflight == [] && Now().run.pc == Ending(stop)
      modifies this`trail
      ensures Valid() && Trail.Ready(trail) && Now().q.inflight == []
      ensures live == !cancelled && Trail.SameLoop(old(Now()).run, Now().run)
      ensures Now().run.pc == if live then EndCounting(stop) else Closing(stop)
    {
      ghost var t := Trail.LooksAtEnd(start, trail, stop);
      trail := trail + [t];
      return !cancelled;
    }

    /** A reply that ends the turn, unless late input or the guard keeps it going.
        `waiting` is the queue when it is read, `at` the question the guard answers. */
    method EndReply(stop: Stop, recovered: bool)
      returns (result: Option<Result>, recovering: bool, ghost waiting: seq<Queue.Entry>, ghost how: Ending, ghost at: nat)
      requires Valid() && Trail.Ready(trail) && Now().q.inflight == [] && Now().run.pc == Ending(stop)
      requires Now().run.recovered == recovered
      modifies this`messages, this`journal, this`queued, this`clock, this`cancelled, this`asked, this`trail
      ensures Valid() && Trail.Ready(trail) && Now().q.inflight == []
      ensures !recovering ==> Trail.Onward(old(Now()).run, Now().run, result)
      ensures recovering ==> result == None && Now().run.pc == Recovering && !recovered
                             && Trail.SameLoop(old(Now()).run, Now().run)
      ensures !old(cancelled) && waiting != [] ==> result == None && !recovering && messages == old(messages) && queued == waiting
      ensures old(cancelled) || waiting == [] ==>
                && at == old(asked) + (if old(cancelled) then 1 else 2)
                && how == EndingOf(stop, old(denied), recovered, world.verdict(at), world.incomplete(at))
                && EndingIs(how, result, recovering)
                && messages == old(messages) + EndWarning(stop, old(denied), world.verdict(at))
    {
      var live := LookAtEnd(stop);
      if live {
        result, recovering, waiting, how, at := EndLive(stop, recovered);
      } else {
        waiting := [];
        result, recovering, how, at := CloseLater(stop, recovered);
      }
    }

    method EndLive(stop: Stop, recovered: bool)
      returns (result: Option<Result>, recovering: bool, ghost waiting: seq<Queue.Entry>, ghost how: Ending, ghost at: nat)
      requires Valid() && Trail.Ready(trail) && Now().q.inflight == [] && Now().run.pc == EndCounting(stop)
      requires Now().run.recovered == recovered
      modifies this`messages, this`journal, this`queued, this`clock, this`cancelled, this`asked, this`trail
      ensures Valid() && Trail.Ready(trail) && Now().q.inflight == []
      ensures !recovering ==> Trail.Onward(old(Now()).run, Now().run, result)
      ensures recovering ==> result == None && Now().run.pc == Recovering && !recovered
                             && Trail.SameLoop(old(Now()).run, Now().run)
      ensures waiting != [] ==> result == None && !recovering && messages == old(messages) && queued == waiting
      ensures waiting == [] ==>
                && at == old(asked) + 2
                && how == EndingOf(stop, old(denied), recovered, world.verdict(at), world.incomplete(at))
                && EndingIs(how, result, recovering)
                && messages == old(messages) + EndWarning(stop, old(denied), world.verdict(at))
    {
      var late := QueueWaiting();
      waiting := queued;
      if late {
        return None, false, waiting, GoesOn, asked;
      }
      result, recovering, how, at := CloseLater(stop, recovered);
    }

    method CloseLater(stop: Stop, recovered: bool) returns (result: Option<Result>, recovering: bool, ghost how: Ending, ghost at: nat)
      requires Valid() && Trail.Ready(trail) && Now().q.inflight == [] && Now().run.pc == Closing(stop)
      requires Now().run.recovered == recovered
      modifies this`messages, this`journal, this`queued, this`clock, this`cancelled, this`asked, this`trail
      ensures Valid() && Trail.Ready(trail) && Now().q.inflight == []
      ensures !recovering ==> Trail.Onward(old(Now()).run, Now().run, result)
      ensures recovering ==> result == None && Now().run.pc == Recovering && !recovered
                             && Trail.SameLoop(old(Now()).run, Now().run)
      ensures at == old(asked) + 1
      ensures how == EndingOf(stop, old(denied), recovered, world.verdict(at), world.incomplete(at))
      ensures EndingIs(how, result, recovering)
      ensures messages == old(messages) + EndWarning(stop, old(denied), world.verdict(at))
    {
      Unlocked();
      at := asked;
      result, recovering, how := CloseReply(stop, recovered);
    }

    method CloseReply(stop: Stop, recovered: bool) returns (result: Option<Result>, recovering: bool, ghost how: Ending)
      requires Valid() && Trail.Ready(trail) && Now().q.inflight == [] && Now().run.pc == Closing(stop)
      requires Now().run.recovered == recovered
      modifies this`messages, this`journal, this`queued, this`clock, this`cancelled, this`asked, this`trail
      ensures Valid() && Trail.Ready(trail) && Now().q.inflight == []
      ensures !recovering ==> Trail.Onward(old(Now()).run, Now().run, result)
      ensures recovering ==> result == None && Now().run.pc == Recovering && !recovered
                             && Trail.SameLoop(old(Now()).run, Now().run)
      ensures how == EndingOf(stop, old(denied), recovered, world.verdict(old(asked)), world.incomplete(old(asked)))
      ensures EndingIs(how, result, recovering)
      ensures messages == old(messages) + EndWarning(stop, old(denied), world.verdict(old(asked)))
    {
      var v, incomplete := world.verdict(asked), world.incomplete(asked);
      how := EndingOf(stop, denied, recovered, v, incomplete);
      ghost var t := Trail.EndsTurn(start, trail, v, incomplete);
      if stop != StopEnd || denied {
        trail := trail + [t];
        return Some(Finished), false, how;
      }
      if v != Quiet {
        var halted := HandleVerdict(v, t);
        return if halted then Some(Repetitive) else None, false, how;
      }
      trail := trail + [t];
      if !incomplete {
        return Some(Finished), false, how;
      }
      if recovered {
        return Some(Result.Incomplete), false, how;
      }
      return None, true, how;
    }

    /** The one continuation after an answerless end, unless the context is over. */
    method RecoverTurn() returns (result: Option<Result>)
      requires Valid() && Trail.Ready(trail) && Now().q.inflight == [] && Now().run.pc == Recovering && Now().run.cfg == cfg
      modifies this`messages, this`journal, this`queued, this`clock, this`cancelled, this`asked, this`trail
      ensures Valid() && Trail.Ready(trail) && Now().q.inflight == []
      ensures if result.Some? then Now().run.pc == Returned(result.value)
              else Now().run.pc == Top && Now().run.step == old(Now()).run.step + 1 && Now().run.recovered
                   && Now().run.cfg == cfg
                   && messages == old(messages) + [Message(User, [Text(cfg.texts.recovery)], [], false)]
    {
      ghost var t := Trail.LooksToRecover(start, trail);
      if cancelled {
        trail := trail + [t];
        return Some(CtxDone);
      }
      AppendMessage(UserText(cfg.texts.recovery), t);
      return None;
    }

    // --------------------------------------------------------------- the run loop

    /** Dispatches a successful reply by its stop reason. */
    method AfterReply(o: Outcome, recovered: bool) returns (result: Option<Result>, recovered': bool)
      requires Valid() && Trail.Ready(trail) && Now().q.inflight == [] && Now().run.cfg == cfg
      requires Now().run.pc == Trail.After(o) && Now().run.recovered == recovered
      requires o.stop == StopToolUse ==> Now().run.batch == NO_BATCH.(calls := ToolCalls(o.content))
      modifies this
      ensures opening == old(opening)
      ensures Valid() && Trail.Ready(trail) && Now().q.inflight == [] && (result == None ==> Now().run.cfg == cfg)
      ensures if result.Some? then Now().run.pc == Returned(result.value)
              else Now().run.pc == Top && Now().run.step == old(Now()).run.step + 1 && Now().run.recovered == recovered'
    {
      recovered' := recovered;
      if o.stop == StopContinue {
        ghost var waiting;
        result, waiting := ContinueReply();
      } else if o.stop == StopToolUse {
        var results, added := ExecuteTools(o.content);
        SendResults(results, added);
        ghost var verdicts;
        result, verdicts := AfterTools();
      } else {
        var recovering;
        ghost var waiting, how, at;
        result, recovering, waiting, how, at := EndReply(o.stop, recovered);
        if recovering {
          result := RecoverTurn();
          recovered' := true;
        }
      }
    }

    /** One step: deliver, open, ask the model, act on the answer. */
    method OneStep(step: int, recovered: bool) returns (result: Option<Result>, recovered': bool)
      requires Valid() && Trail.Ready(trail) && Now().q.inflight == [] && Now().run.cfg == cfg && Now().run.pc == Top
      requires Now().run.step == step && Now().run.recovered == recovered && !(0 < cfg.maxSteps < step)
      modifies this
      ensures opening == old(opening)
      ensures Valid() && Trail.Ready(trail) && Now().q.inflight == [] && (result == None ==> Now().run.cfg == cfg)
      ensures if result.Some? then Now().run.pc == Returned(result.value)
              else Now().run.pc == Top && Now().run.step == step + 1 && Now().run.recovered == recovered'
    {
      DeliverAtStep(step);
      result := OpenTurn();
      recovered' := recovered;
      if result.Some? {
        return;
      }
      ComposeContext();
      var o, failure;
      ghost var late, reply;
      o, failure, late, reply := Attempts();
      if o == None {
        result := Some(failure);
        return;
      }
      result, recovered' := AfterReply(o.value, recovered);
    }

    /** The loop, for at most `horizon` steps; a positive step limit below the horizon
        always lets it finish. */
    method RunLoop(horizon: nat) returns (result: Option<Result>)
      requires Valid() && Trail.Ready(trail) && Now().q.inflight == [] && Now().run.cfg == cfg
      requires Now().run.pc == Top && Now().run.step == 1 && !Now().run.recovered
      modifies this
      ensures opening == old(opening)
      ensures Valid() && Trail.Ready(trail) && Now().q.inflight == []
      ensures result.Some? ==> Now().run.pc == Returned(result.value)
      ensures 0 < cfg.maxSteps < horizon ==> result.Some?
    {
      var recovered := false;
      for k := 0 to horizon
        invariant Valid() && Trail.Ready(trail) && Now().q.inflight == [] && Now().run.cfg == cfg
        invariant Now().run.pc == Top && Now().run.step == k + 1 && Now().run.recovered == recovered
        invariant opening == old(opening)
        invariant 0 < cfg.maxSteps ==> k <= cfg.maxSteps
      {
        if 0 < cfg.maxSteps < k + 1 {
          ghost var t := Trail.Enters(start, trail);
          trail := trail + [t];
          return Some(StepLimit);
        }
        result, recovered := OneStep(k + 1, recovered);
        if result.Some? {
          return;
        }
      }
      return None;
    }

    /** A fresh context, and the request's message behind the transcript. */
    method Submit(prompt: Prompt) returns (message: Message)
      requires Valid() && Resting(Now()) && Now().q.inflight == [] && prompt != Prompt([], [])
      modifies this`messages, this`journal, this`queued, this`clock, this`cancelled, this`denied, this`asked, this`trail
      ensures Valid() && Trail.Ready(trail) && Now().q.inflight == [] && Now().run.cfg == cfg
      ensures Now().run.pc == Top && Now().run.step == 1 && !Now().run.recovered
      ensures message == Message(User, Queue.Blocks(prompt.text, prompt.images), [], false)
      ensures messages == old(messages) + [message] && journal == old(journal) + [Memory.Appended(message)]
    {
      message := Message(User, Queue.Blocks(prompt.text, prompt.images), [], false);
      ghost var t := Trail.Begins(start, trail, Some(prompt), cfg);
      trail := trail + [t];
      cancelled, denied := false, false;
      messages := messages + [message];
      Fire(Memory.Appended(message));
    }

    /** A top-level request: its own context, its own message, then the loop. The
        request is the first row written. */
    method SendPrompt(prompt: Prompt, horizon: nat) returns (refused: bool, result: Option<Result>)
      requires Valid() && Resting(Now()) && Now().q.inflight == []
      modifies this
      ensures Valid() && Trail.Ready(trail) && Now().q.inflight == []
      ensures refused == (prompt.text == [] && prompt.images == [])
      ensures refused ==> messages == old(messages) && journal == old(journal) && result == None
      ensures !refused ==>
                |old(journal)| < |journal| && old(journal) <= journal && Requests(journal[|old(journal)|], prompt)
      ensures !refused ==> |opening| == |old(journal)| + 1 && opening <= journal
      ensures refused ==> opening == old(opening)
      ensures result.Some? ==> Now().run.pc == Returned(result.value)
      ensures !refused && 0 < cfg.maxSteps < horizon ==> result.Some?
    {
      if prompt == Prompt([], []) {
        return true, None;
      }
      var message := Submit(prompt);
      opening := journal;
      Queue.BlocksSay(prompt.text, prompt.images);
      result := RunLoop(horizon);
      refused := false;
    }

    /** The loop on the transcript as it stands. */
    method Continue(horizon: nat) returns (result: Option<Result>)
      requires Valid() && Resting(Now()) && Now().q.inflight == []
      modifies this
      ensures opening == old(opening)
      ensures Valid() && Trail.Ready(trail) && Now().q.inflight == []
      ensures result.Some? ==> Now().run.pc == Returned(result.value)
      ensures 0 < cfg.maxSteps < horizon ==> result.Some?
    {
      ghost var t := Trail.Begins(start, trail, None, cfg);
      trail := trail + [t];
      cancelled, denied := false, false;
      result := RunLoop(horizon);
    }

    // ------------------------------------------------------------------ compaction

    /** Between runs; the transcript changes only once the summary is there. */
    method Compact(keepTail: int, r: Compaction.Response, plan: seq<Plan.PlanStep>) returns (b: Compaction.Built)
      requires Valid() && Resting(Now()) && Now().q.inflight == []
      modifies this`messages, this`journal, this`queued, this`clock, this`cancelled, this`asked, this`trail
      ensures Valid() && Resting(Now()) && Now().q.inflight == []
      ensures Compaction.Builds(old(messages), keepTail, r, plan, b)
      ensures b.Compacted? ==>
                var front := Compaction.Front(old(messages));
                front < |messages| && Compaction.Tells(messages[front], b.summary)
      ensures b.Refused? ==> messages == old(messages) && journal == old(journal)
      ensures b.Compacted? ==> messages == b.next && journal == old(journal) + [Memory.Replaced(b.next)] && Now().mem.drops == 0
    {
      var before := messages;
      Unlocked();
      b := Compaction.Build(before, keepTail, r, plan);
      if b.Compacted? {
        ReplaceMessages(b.next);
      }
    }

    method ReplaceMessages(next: seq<Message>)
      requires Valid() && Resting(Now()) && Now().q.inflight == []
      modifies this`messages, this`journal, this`queued, this`clock, this`cancelled, this`asked, this`trail
      ensures Valid() && Resting(Now()) && Now().q.inflight == []
      ensures messages == next && journal == old(journal) + [Memory.Replaced(next)] && Now().mem.drops == 0
    {
      ghost var t := Trail.Compacts(start, trail, next);
      trail := trail + [t];
      messages := next;
      Fire(Memory.Replaced(next));
    }

    // ----------------------------------------- what every reachable object satisfies

    /** With no hook call outstanding, the journal replays to the transcript exactly
        when no retry since the last replacement row took back a reply already written. */
    lemma JournalReplays() returns (acts: seq<Action>)
      requires Valid() && Trail.Ready(trail)
      ensures Run(start, acts) == Now()
      ensures Memory.Replay(journal) == messages
              <==> forall i :: !EngineCauses.Stands(EngineCauses.DropMarks(start, acts), i)
    {
      acts := Trail.PathIsRun(start, trail);
      EngineCauses.LogAgreesIff(start, acts);
    }

    /** No accepted message is lost: it was delivered, waits in `queued`, or was taken back. */
    lemma NothingQueuedIsLost(stamp: nat)
      requires Valid() && Now().q.inflight == [] && stamp < clock
      ensures stamp in Queue.Stamps(Now().q.delivered) || stamp in Queue.Stamps(queued) || stamp in Now().q.taken
      ensures Queue.Increasing(Now().q.delivered + queued)
    {
      var acts := Trail.PathIsRun(start, trail);
      EngineLog.QueueConserved(start, acts, stamp);
      var q := Now().q;
      assert q.inflight + q.queued == q.queued && q.delivered + q.inflight == q.delivered;
      assert EngineLog.IsAt(q, stamp, EngineLog.Delivered) || EngineLog.IsAt(q, stamp, EngineLog.Pending)
             || EngineLog.IsAt(q, stamp, EngineLog.Taken);
    }
  }

  lemma ToolCallsCons(content: seq<Content>)
    requires content != []
    ensures ToolCalls(content) == (if content[0].ToolCall? then [content[0]] + ToolCalls(content[1..]) else ToolCalls(content[1..]))
  {
  }

  lemma {:induction false} CallsConcat(a: seq<Content>, b: seq<Content>)
    ensures ToolCalls(a + b) == ToolCalls(a) + ToolCalls(b)
  {
    if a == [] {
      assert a + b == b;
    } else {
      assert (a + b)[0] == a[0] && (a + b)[1..] == a[1..] + b;
      CallsConcat(a[1..], b);
      ToolCallsCons(a + b);
      ToolCallsCons(a);
      ConcatAssociates([a[0]], ToolCalls(a[1..]), ToolCalls(b));
    }
  }

  lemma CallsPrefix(content: seq<Content>, i: nat)
    requires i < |content|
    ensures ToolCalls(content[..i + 1]) == ToolCalls(content[..i]) + if content[i].ToolCall? then [content[i]] else []
  {
    assert content[..i + 1] == content[..i] + [content[i]];
    CallsConcat(content[..i], [content[i]]);
    ToolCallsCons([content[i]]);
    assert [content[i]][1..] == [];
  }

  /** The i-th block among a reply's calls. */
  lemma CallsSplit(content: seq<Content>, i: nat)
    requires i < |content|
    ensures var before := ToolCalls(content[..i]);
            && |before| <= |ToolCalls(content)|
            && ToolCalls(content[..i + 1]) == (if content[i].ToolCall? then before + [content[i]] else before)
            && (content[i].ToolCall? ==> |before| < |ToolCalls(content)| && ToolCalls(content)[|before|] == content[i])
  {
    CallsPrefix(content, i);
    assert content == content[..i] + content[i..];
    CallsConcat(content[..i], content[i..]);
    ToolCallsCons(content[i..]);
  }

  function Mirror(cfg: Config, results: seq<Content>): seq<Message> {
    var parts := MirrorContent(results);
    if cfg.mirrorsImages && parts != [] then [Message(User, [Text(cfg.texts.mirror)] + parts, [], false)] else []
  }

  lemma {:induction false} MirrorContentConcat(a: seq<Content>, b: seq<Content>)
    ensures MirrorContent(a + b) == MirrorContent(a) + MirrorContent(b)
  {
    if a == [] {
      assert a + b == b;
    } else {
      assert (a + b)[1..] == a[1..] + b;
      MirrorContentConcat(a[1..], b);
      ConcatAssociates(ResultParts(a[0]), MirrorContent(a[1..]), MirrorContent(b));
    }
  }

  lemma MirrorPartsConcat(a: seq<Content>, b: seq<Content>)
    ensures MirrorParts(a + b) == MirrorParts(a) + MirrorParts(b)
  {
    if a == [] {
      assert a + b == b;
    } else {
      assert (a + b)[1..] == a[1..] + b;
    }
  }

  /** A block is mirrored alone if it is an image or a short text; with the two lemmas
      before, the mirror is the results' images and short texts, in order. */
  lemma MirrorOne(r: Content, c: Content)
    ensures MirrorContent([r]) == if r.ToolResult? then MirrorParts(r.content) else []
    ensures MirrorParts([c]) == if c.Image? || (c.Text? && 0 < |c.text| <= 500) then [c] else []
    ensures MirrorContent([]) == [] && MirrorParts([]) == []
  {
    assert [r][1..] == [] && [c][1..] == [];
  }

  /** The block c is in one of the results. */
  ghost predicate Carries(results: seq<Content>, c: Content) {
    exists i :: 0 <= i < |results| && results[i].ToolResult? && c in results[i].content
  }

  ghost predicate HasImage(results: seq<Content>) {
    exists c :: Carries(results, c) && c.Image?
  }

  ghost predicate HasShortText(results: seq<Content>) {
    exists c :: Carries(results, c) && c.Text? && 0 < |c.text| <= 500
  }

  lemma {:induction false} MirrorPartsAre(inner: seq<Content>, c: Content)
    ensures c in MirrorParts(inner) <==> c in inner && Shown(c)
  {
    if inner != [] {
      MirrorPartsAre(inner[1..], c);
      assert inner == [inner[0]] + inner[1..];
    }
  }

  /** The mirror shows the results' images and short texts, and no other block. */
  lemma {:induction false} MirrorShows(results: seq<Content>, c: Content)
    ensures c in MirrorContent(results) <==> Carries(results, c) && Shown(c)
  {
    if results != [] {
      var rest := results[1..];
      MirrorShows(rest, c);
      if results[0].ToolResult? {
        MirrorPartsAre(results[0].content, c);
      }
      if Carries(rest, c) {
        var i :| 0 <= i < |rest| && rest[i].ToolResult? && c in rest[i].content;
        assert results[i + 1] == rest[i];
      }
      if Carries(results, c) {
        var i :| 0 <= i < |results| && results[i].ToolResult? && c in results[i].content;
        assert i > 0 ==> rest[i - 1] == results[i];
      }
    }
  }

  /** When the mirror is sent only because there is an image: always if the model takes
      images from tools, else exactly if there is an image or no short text either. */
  lemma MirrorOnlyForImagesIff(cfg: Config, results: seq<Content>)
    ensures (Mirror(cfg, results) != [] ==> HasImage(results))
            <==> !cfg.mirrorsImages || HasImage(results) || !HasShortText(results)
    ensures Mirror(cfg, results) != [] <==> cfg.mirrorsImages && (HasImage(results) || HasShortText(results))
  {
    var parts := MirrorContent(results);
    if parts != [] {
      MirrorShows(results, parts[0]);
    }
    forall c ensures c in parts <==> Carries(results, c) && Shown(c) {
      MirrorShows(results, c);
    }
  }

  /** Short text alone is mirrored too, though nothing in it is an image. */
  lemma TextAloneIsMirrored(cfg: Config, id: string, text: Bytes)
    requires cfg.mirrorsImages && 0 < |text| <= 500
    ensures var r := ToolResult(id, [Text(text)], false, None, ToolContext([], [], []));
            Mirror(cfg, [r]) == [Message(User, [Text(cfg.texts.mirror), Text(text)], [], false)]
  {
    var r := ToolResult(id, [Text(text)], false, None, ToolContext([], [], []));
    assert MirrorParts([Text(text)]) == [Text(text)];
    assert MirrorContent([r]) == ResultParts(r) + MirrorContent([r][1..]) && [r][1..] == [];
    assert [Text(cfg.texts.mirror)] + [Text(text)] == [Text(cfg.texts.mirror), Text(text)];
  }

  method MirrorResult(inner: seq<Content>) returns (content: seq<Content>)
    ensures content == MirrorParts(inner)
  {
    content := [];
    for j := 0 to |inner|
      invariant content == MirrorParts(inner[..j])
    {
      assert inner[..j + 1] == inner[..j] + [inner[j]];
      MirrorPartsConcat(inner[..j], [inner[j]]);
      match inner[j] {
        case Text(text) =>
          if 0 < |text| <= 500 {
            content := content + [inner[j]];
          }
        case Image(_) => content := content + [inner[j]];
        case _ =>
      }
    }
    assert inner[..|inner|] == inner;
  }

  /** Short texts and images of the results, for models that take images only from users. */
  method MirrorToolImages(results: seq<Content>) returns (content: seq<Content>)
    ensures content == MirrorContent(results)
  {
    content := [];
    for i := 0 to |results|
      invariant content == MirrorContent(results[..i])
    {
      assert results[..i + 1] == results[..i] + [results[i]];
      MirrorContentConcat(results[..i], [results[i]]);
      if results[i].ToolResult? {
        var parts := MirrorResult(results[i].content);
        content := content + parts;
      }
    }
    assert results[..|results|] == results;
  }

  /** Timeouts and passing errors are retried while their own budget lasts, nothing else is. */
  predicate MayRetry(cfg: Config, e: Error, retries: nat) {
    (e == IdleTimeout && retries < cfg.maxIdleRetries) || (e == Transient && retries < cfg.maxRetries)
  }

  /** Not empty, and not broken off with calls in it. */
  ghost predicate WorthKeeping(o: Outcome) {
    o.content != [] && (o.stop == StopAborted ==> forall c :: c in o.content ==> !c.ToolCall?)
  }

  method KeepsReply(o: Outcome) returns (keep: bool)
    ensures keep == Kept(o) == WorthKeeping(o)
  {
    keep := o.content != [];
    if o.stop == StopAborted && keep {
      var hasToolCall := HasToolCall(o.content);
      if hasToolCall {
        keep := false;
      }
    }
  }

  method HasToolCall(content: seq<Content>) returns (found: bool)
    ensures found <==> ToolCalls(content) != []
    ensures found <==> exists c :: c in content && c.ToolCall?
  {
    for i := 0 to |content|
      invariant forall k :: 0 <= k < i ==> !content[k].ToolCall?
    {
      if content[i].ToolCall? {
        CallFound(content, i);
        return true;
      }
    }
    NoCallFound(content);
    return false;
  }

  lemma CallFound(content: seq<Content>, i: nat)
    requires i < |content| && content[i].ToolCall?
    ensures ToolCalls(content) != []
  {
    if i > 0 {
      CallFound(content[1..], i - 1);
    }
  }

  lemma NoCallFound(content: seq<Content>)
    requires forall k :: 0 <= k < |content| ==> !content[k].ToolCall?
    ensures ToolCalls(content) == []
  {
  }

  /** The late input, and at most one reply behind it. */
  ghost predicate Left(before: seq<Message>, now: seq<Message>, late: seq<Queue.Entry>, reply: seq<Message>) {
    now == before + Delivered(late) + reply && |reply| <= 1
  }

  lemma LeftReply(start: seq<Message>, before: seq<Message>, now: seq<Message>, late: seq<Queue.Entry>, reply: seq<Message>)
    requires Left(start, before, late, []) && now == before + reply && |reply| <= 1
    ensures Left(start, now, late, reply)
  {
  }

  lemma LeftMore(start: seq<Message>, before: seq<Message>, now: seq<Message>, late: seq<Queue.Entry>, more: seq<Queue.Entry>)
    requires Left(start, before, late, []) && now == before + Delivered(more)
    ensures Left(start, now, late + more, [])
  {
    DeliveredConcat(late, more);
    ConcatAssociates(start, Delivered(late), Delivered(more));
  }

  lemma DeliveredConcat(a: seq<Queue.Entry>, b: seq<Queue.Entry>)
    ensures Delivered(a + b) == Delivered(a) + Delivered(b)
  {
  }

  function Delivered(entries: seq<Queue.Entry>): seq<Message> {
    seq(|entries|, i requires 0 <= i < |entries| => Queue.UserMessage(entries[i]))
  }
}
