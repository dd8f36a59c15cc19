/** The resident child runner (packages/agent/subagent_factory.go:31-83, 149-264): one
    agent, one turn at a time, steered from outside under the runner's own lock, with
    one compaction recovery per turn within an explicit step limit.

    Each section between lock and unlock, and each unlocked stretch in which only this
    goroutine touches the transcript, is one action; the agent's own steps are those of
    module Engine. A run is any list of actions. */
module Resident {
  import opened Transcript
  import E = Engine
  import Memory
  import Queue
  import Repair

  const RECOVERY_MINIMUM := 4

  datatype Failure = TurnFailed(result: E.Result) | JournalFailure

  datatype Phase =
    | Free
    | Turn
    | Overflowed(result: E.Result)
    | Checkpointing(result: E.Result, before: seq<Message>)
    | Closing(err: Option<Failure>)
    | Ended(err: Option<Failure>)

  /** `maxSteps` is the agent's limit as it stands, `limit` the child's own. `used` is
      the step high-water mark of the turn, `spent` the steps of the turn's first part
      once it has recovered. `overflown` is the transcript the provider last rejected,
      `checkpoint` the last one the child's journal took. `returned` lists what
      DrainSteers gave back. The agent of a child has no persistence hooks, so the
      engine's log is not looked at here. */
  datatype State = State(
    eng: E.State,
    running: bool,
    phase: Phase,
    dead: bool,
    cfg: E.Config,
    maxSteps: int,
    limit: int,
    used: int,
    spent: int,
    recovered: bool,
    journalFailed: bool,
    overflown: seq<Message>,
    checkpoint: seq<Message>,
    continuations: nat,
    returned: seq<Queue.Entry>)

  function Start(messages: seq<Message>, cfg: E.Config): State {
    State(E.Start(messages), false, Free, false, cfg, cfg.maxSteps, cfg.maxSteps, 0, 0, false, false, [], [], 0, [])
  }

  datatype Action =
    | RunTurn(prompt: Bytes)
    | Steer(message: Queue.QueuedMessage)
    | DrainSteers
    | CancelParent
    | FailJournal
    | Loop(step: E.Action)
    | TurnReturns(overflow: bool)
    | Compact(next: Option<seq<Message>>)
    | Record(ok: bool)
    | CloseWindow

  // ------------------------------------------------------------------ the steps

  /** The agent starts a run; its context is the turn's, already over if the parent's is. */
  function Launch(s: State, prompt: Option<E.Prompt>): E.State {
    var t := E.Step(s.eng, E.Begin(prompt, s.cfg.(maxSteps := s.maxSteps)));
    if s.dead || s.journalFailed then E.Step(t, E.Cancel) else t
  }

  /** A fresh turn: its own counters, the agent's prompt or a continuation. */
  function BeginTurn(s: State, prompt: Option<E.Prompt>): State {
    var t := s.(phase := Turn, used := 0, spent := 0, recovered := false, journalFailed := false);
    t.(eng := Launch(t, prompt))
  }

  function DoRun(s: State, prompt: Bytes): State {
    BeginTurn(s.(running := true), if prompt == [] then None else Some(E.Prompt(prompt, [])))
  }

  function DoSteer(s: State, m: Queue.QueuedMessage): State {
    if s.running then s.(eng := E.Step(s.eng, E.Accept(m))) else s
  }

  function DoDrain(s: State): State {
    s.(eng := E.Step(s.eng, E.TakeAll), returned := s.returned + s.eng.q.queued)
  }

  /** The sink's high-water mark after a step. */
  function Seen(before: seq<E.Event>, after: seq<E.Event>, used: int): int {
    if |after| > |before| && Last(after).TurnStart? then E.Max(used, Last(after).step) else used
  }

  function DoLoop(s: State, a: E.Action): State {
    var t := E.Step(s.eng, a);
    s.(eng := t, used := Seen(s.eng.run.trace, t.run.trace, s.used))
  }

  function ErrorOf(result: E.Result): Option<Failure> {
    if result == E.Finished then None else Some(TurnFailed(result))
  }

  function Close(s: State, err: Option<Failure>): State {
    s.(phase := Closing(if s.journalFailed then Some(JournalFailure) else err), maxSteps := s.limit)
  }

  function DoTurnReturns(s: State, result: E.Result, overflow: bool): State {
    if s.journalFailed || s.recovered || result == E.Finished || s.eng.cancelled || !overflow
    then Close(s, ErrorOf(result))
    else s.(phase := Overflowed(result), overflown := s.eng.mem.messages)
  }

  /** Another transcript takes the place of the agent's. */
  function WithMessages(s: State, next: seq<Message>): State {
    s.(eng := E.Step(E.Step(s.eng, E.CompactTo(next)), E.Flush))
  }

  /** The second part of a turn, with what is left of the limit. */
  function Resumed(s: State): State {
    var t := s.(phase := Turn, recovered := true, spent := s.used,
                maxSteps := if s.limit > 0 then s.limit - s.used else s.maxSteps);
    t.(eng := Launch(t, None))
  }

  predicate Exhausted(s: State) {
    s.limit > 0 && s.limit - s.used <= 0
  }

  /** A transcript too short is not summarized. A compaction that fails is undone by
      putting the messages back that were there before. */
  function DoCompact(s: State, result: E.Result, next: Option<seq<Message>>): State {
    var before := s.eng.mem.messages;
    if |before| < RECOVERY_MINIMUM then Close(s, ErrorOf(result))
    else if next == None then Close(WithMessages(s, before), ErrorOf(result))
    else WithMessages(s, next.value).(phase := Checkpointing(result, before))
  }

  /** Memory must not run ahead of the journal: without the checkpoint the old
      transcript comes back. Host context is not journaled. */
  function DoRecord(s: State, result: E.Result, before: seq<Message>, ok: bool): State {
    if !ok then Close(WithMessages(s, before), ErrorOf(result))
    else
      var t := s.(checkpoint := Repair.Select(s.eng.mem.messages, Memory.IsTalk));
      if Exhausted(t) then Close(t, ErrorOf(result)) else Resumed(t)
  }

  function DoClose(s: State, err: Option<Failure>): State {
    if err.Some? || s.dead || s.eng.q.queued == [] then s.(running := false, phase := Ended(err))
    else BeginTurn(s.(continuations := s.continuations + 1), None)
  }

  predicate Done(s: State) {
    s.eng.run.pc.Returned? && s.eng.mem.unsent == []
  }

  predicate AgentStep(a: E.Action) {
    E.ByLoop(a) || a.Flush?
  }

  function Step(s: State, a: Action): State {
    match a
    case RunTurn(prompt) => if s.phase.Free? || s.phase.Ended? then DoRun(s, prompt) else s
    case Steer(m) => DoSteer(s, m)
    case DrainSteers => DoDrain(s)
    case CancelParent => s.(dead := true, eng := E.Step(s.eng, E.Cancel))
    case FailJournal => if s.phase.Turn? || s.phase.Overflowed? || s.phase.Checkpointing? then s.(journalFailed := true, eng := E.Step(s.eng, E.Cancel)) else s
    case Loop(b) => if s.phase.Turn? && AgentStep(b) then DoLoop(s, b) else s
    case TurnReturns(overflow) => if s.phase.Turn? && Done(s) then DoTurnReturns(s, s.eng.run.pc.result, overflow) else s
    case Compact(next) => if s.phase.Overflowed? then DoCompact(s, s.phase.result, next) else s
    case Record(ok) => if s.phase.Checkpointing? then DoRecord(s, s.phase.result, s.phase.before, ok) else s
    case CloseWindow => if s.phase.Closing? then DoClose(s, s.phase.err) else s
  }

  function Run(messages: seq<Message>, cfg: E.Config, acts: seq<Action>): State {
    if acts == [] then Start(messages, cfg) else Step(Run(messages, cfg, Init(acts)), Last(acts))
  }
}
