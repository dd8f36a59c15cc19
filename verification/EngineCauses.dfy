/** What makes the two exceptions of the engine happen: which steps part the log from
    the transcript, and which leave calls without results. Both are traced back to the
    outcomes the provider gave, over every run. */
module EngineCauses {
  import opened Transcript
  import opened Engine
  import opened EnginePairs
  import EngineBatch
  import EngineLog
  import Memory
  import Queue

  /** What one step does to a promise: it can break it, or make it good again. */
  datatype Mark = Neither | Causes | Clears

  /** The i-th step broke the promise and nothing since made it good. */
  ghost predicate Stands(marks: seq<Mark>, i: int) {
    0 <= i < |marks| && marks[i] == Causes && forall j :: i < j < |marks| ==> marks[j] != Clears
  }

  lemma StandsSnoc(marks: seq<Mark>, m: Mark)
    ensures (exists i :: Stands(marks + [m], i)) <==> m == Causes || (m != Clears && exists i :: Stands(marks, i))
  {
    var longer := marks + [m];
    if i :| Stands(longer, i) {
      assert longer[|marks|] == m;
      forall j | i < j < |marks| ensures marks[j] != Clears {
        assert longer[j] == marks[j];
      }
      assert i < |marks| ==> Stands(marks, i);
    }
    if m == Causes {
      assert Stands(longer, |marks|);
    }
    if i :| Stands(marks, i) && m != Clears {
      assert Stands(longer, i);
    }
  }

  // -------------------------------------------------- replies taken back in memory

  /** A failed attempt is retried although part of its reply was kept. */
  predicate Retracts(s: State, a: Action) {
    && a == Judge && s.mem.unsent == [] && s.run.pc.Judging?
    && Retracted(s, s.run.pc.outcome)
  }

  predicate Retracted(s: State, o: Outcome) {
    o.err.Some? && Kept(o) && CanRetry(s.run, o.err.value) && !s.cancelled
  }

  /** A row with the whole transcript is written: a compaction, or the first context. */
  predicate Replaces(s: State, a: Action) {
    || (a.CompactTo? && Resting(s))
    || (a.Compose? && s.mem.unsent == [] && s.run.pc == Composing && a.text != [] && !Memory.HasContext(s.mem.messages))
  }

  lemma JudgeDrops(s: State, o: Outcome)
    requires s.run.pc == Judging(o) && EngineBatch.RestoreInv(s)
    ensures DoJudge(s, o).mem.drops == s.mem.drops + if Retracted(s, o) then 1 else 0
  {
    if Kept(o) {
      assert Last(s.mem.messages) == Reply(o.content);
    }
  }

  lemma ComposeDrops(s: State, text: Bytes)
    ensures DoCompose(s, text).mem.drops
         == if text != [] && !Memory.HasContext(s.mem.messages) then 0 else s.mem.drops
  {
    Memory.LatestIffAny(s.mem.messages);
  }

  lemma LoopDrops(s: State, a: Action)
    requires ByLoop(a) && s.mem.unsent == [] && EngineBatch.RestoreInv(s)
    ensures Step(s, a).mem.drops == if Replaces(s, a) then 0 else s.mem.drops + if Retracts(s, a) then 1 else 0
  {
    if s.run.pc.Judging? && a == Judge {
      JudgeDrops(s, s.run.pc.outcome);
    } else if s.run.pc.Composing? && a.Compose? {
      ComposeDrops(s, a.text);
    } else {
      var c := EngineLog.AdvanceMem(s, a);
    }
  }

  /** The drop count moves at these steps and no others. */
  lemma StepDrops(s: State, a: Action)
    requires EngineBatch.RestoreInv(s)
    ensures Step(s, a).mem.drops == if Replaces(s, a) then 0 else s.mem.drops + if Retracts(s, a) then 1 else 0
  {
    if ByLoop(a) && s.mem.unsent == [] {
      LoopDrops(s, a);
    }
  }

  function DropMark(s: State, a: Action): Mark {
    if Replaces(s, a) then Clears else if Retracts(s, a) then Causes else Neither
  }

  /** What each step of the run does to the agreement of log and transcript. */
  function DropMarks(messages: seq<Message>, acts: seq<Action>): seq<Mark> {
    seq(|acts|, i requires 0 <= i < |acts| => DropMark(Run(messages, acts[..i]), acts[i]))
  }

  lemma DropMarksSnoc(messages: seq<Message>, acts: seq<Action>)
    requires acts != []
    ensures DropMarks(messages, acts) == DropMarks(messages, Init(acts)) + [DropMark(Run(messages, Init(acts)), Last(acts))]
  {
    forall i | 0 <= i < |acts| - 1 ensures Init(acts)[..i] == acts[..i] {
    }
  }

  lemma {:induction false} DropsAreRetractions(messages: seq<Message>, acts: seq<Action>)
    ensures Run(messages, acts).mem.drops > 0 <==> exists i :: Stands(DropMarks(messages, acts), i)
  {
    if acts != [] {
      DropsAreRetractions(messages, Init(acts));
      DropMarksSnoc(messages, acts);
      StandsSnoc(DropMarks(messages, Init(acts)), DropMark(Run(messages, Init(acts)), Last(acts)));
      EngineBatch.RunRestores(messages, Init(acts));
      StepDrops(Run(messages, Init(acts)), Last(acts));
    }
  }

  /** After any run, once every hook call has been made: the persisted log replays to
      the transcript if and only if, since the last row that replaced everything, no
      failed attempt was retried after part of its reply had been kept. */
  lemma LogAgreesIff(messages: seq<Message>, acts: seq<Action>)
    requires Run(messages, acts).mem.unsent == []
    ensures var m := Run(messages, acts).mem;
            Memory.Replay(m.rows) == m.messages <==> forall i :: !Stands(DropMarks(messages, acts), i)
  {
    EngineLog.LogAgreement(messages, acts);
    DropsAreRetractions(messages, acts);
  }

  // ------------------------------------------------------------ calls nobody runs

  /** A successful reply with calls under another stop reason than tool use. */
  predicate Dangles(o: Outcome) {
    o.err == None && Kept(o) && ToolCalls(o.content) != [] && o.stop != StopToolUse
  }

  predicate LeavesCalls(s: State, a: Action) {
    a == Judge && s.mem.unsent == [] && s.run.pc.Judging? && Dangles(s.run.pc.outcome)
  }

  /** A run starts, with the messages so far behind it. */
  predicate StartsRun(s: State, a: Action) {
    a.Begin? && Resting(s) && a.prompt != Some(Prompt([], []))
  }

  lemma JudgeLoose(s: State, o: Outcome)
    ensures DoJudge(s, o).run.loose == s.run.loose + if Dangles(o) then 1 else 0
  {
    if o.err.Some? {
      var t := Emit(s, TurnEnd(o.stop, o.err));
      FailFrame(if o.err.value == Cancelled then t else Emit(t, RequestFailed(s.run.attempts, s.run.maxAttempts)), o.err.value);
    }
  }

  lemma RunningLoose(s: State, a: Action)
    requires s.run.pc.Running?
    ensures Advance(s, a).run.loose == s.run.loose
  {
    if a.FinishCall? {
      FinishCallFrame(s, a.out, a.rejected);
    }
  }

  lemma DecidingLoose(s: State, a: Action)
    requires Deciding(s.run.pc)
    ensures Advance(s, a).run.loose == s.run.loose
  {
  }

  lemma LookingLoose(s: State, a: Action)
    requires EngineBatch.LooksOnly(s.run.pc)
    ensures Advance(s, a).run.loose == s.run.loose
  {
  }

  lemma AskingLoose(s: State, a: Action)
    requires !EngineBatch.LooksOnly(s.run.pc) && !Deciding(s.run.pc) && !s.run.pc.Running? && !s.run.pc.Judging?
    ensures Advance(s, a).run.loose == s.run.loose
  {
  }

  lemma AdvanceLoose(s: State, a: Action)
    ensures Advance(s, a).run.loose
         == s.run.loose + if s.run.pc.Judging? && a == Judge && Dangles(s.run.pc.outcome) then 1 else 0
  {
    if s.run.pc.Judging? {
      JudgeLoose(s, s.run.pc.outcome);
    } else if s.run.pc.Running? {
      RunningLoose(s, a);
    } else if Deciding(s.run.pc) {
      DecidingLoose(s, a);
    } else if EngineBatch.LooksOnly(s.run.pc) {
      LookingLoose(s, a);
    } else {
      AskingLoose(s, a);
    }
  }

  /** The count of such replies moves at these steps and no others. */
  lemma StepLoose(s: State, a: Action)
    ensures Step(s, a).run.loose == if StartsRun(s, a) then 0 else s.run.loose + if LeavesCalls(s, a) then 1 else 0
  {
    if ByLoop(a) && s.mem.unsent == [] {
      AdvanceLoose(s, a);
    }
  }

  function CallMark(s: State, a: Action): Mark {
    if StartsRun(s, a) then Clears else if LeavesCalls(s, a) then Causes else Neither
  }

  /** What each step does to the answering of calls. */
  function CallMarks(messages: seq<Message>, acts: seq<Action>): seq<Mark> {
    seq(|acts|, i requires 0 <= i < |acts| => CallMark(Run(messages, acts[..i]), acts[i]))
  }

  lemma CallMarksSnoc(messages: seq<Message>, acts: seq<Action>)
    requires acts != []
    ensures CallMarks(messages, acts) == CallMarks(messages, Init(acts)) + [CallMark(Run(messages, Init(acts)), Last(acts))]
  {
    forall i | 0 <= i < |acts| - 1 ensures Init(acts)[..i] == acts[..i] {
    }
  }

  lemma {:induction false} LooseAreDangling(messages: seq<Message>, acts: seq<Action>)
    ensures Run(messages, acts).run.loose > 0 <==> exists i :: Stands(CallMarks(messages, acts), i)
  {
    if acts != [] {
      LooseAreDangling(messages, Init(acts));
      CallMarksSnoc(messages, acts);
      StandsSnoc(CallMarks(messages, Init(acts)), CallMark(Run(messages, Init(acts)), Last(acts)));
      StepLoose(Run(messages, Init(acts)), Last(acts));
    }
  }

  /** At every model call: the run's calls are all answered by the message behind them,
      in call order, if and only if every successful reply of the run that carried calls
      stopped for tool use. */
  lemma PairsIff(messages: seq<Message>, acts: seq<Action>)
    requires Run(messages, acts).run.pc == Calling
    ensures var s := Run(messages, acts);
            && s.run.base <= |s.mem.messages|
            && (AllAnswered(Tail(s)) <==> forall i :: !Stands(CallMarks(messages, acts), i))
  {
    ToolPairing(messages, acts);
    LooseAreDangling(messages, acts);
  }

  // --------------------------------------------------------- runs that show both

  /** A step that asks the model, with nothing queued and no host context. */
  const ASKING: seq<Action> := [Enter, Gate(false), Hook(true), Compose([])]

  function Steps(s: State, acts: seq<Action>): State
    decreases |acts|
  {
    if acts == [] then s else Steps(Step(s, acts[0]), acts[1..])
  }

  lemma {:induction false} StepsAreRun(messages: seq<Message>, before: seq<Action>, acts: seq<Action>)
    ensures Run(messages, before + acts) == Steps(Run(messages, before), acts)
    decreases |acts|
  {
    if acts == [] {
      assert before + acts == before;
    } else {
      var next := before + [acts[0]];
      assert Init(next) == before;
      StepsAreRun(messages, next, acts[1..]);
      assert next + acts[1..] == before + acts;
    }
  }

  lemma StepsThree(s: State, a: Action, b: Action, c: Action)
    ensures Steps(s, [a, b, c]) == Step(Step(Step(s, a), b), c)
  {
    assert [a, b, c][1..] == [b, c] && [b, c][1..] == [c] && [c][1..] == [];
    assert Steps(Step(Step(s, a), b), [c]) == Step(Step(Step(s, a), b), c);
    assert Steps(Step(s, a), [b, c]) == Steps(Step(Step(s, a), b), [c]);
  }

  lemma StepsFour(s: State, a: Action, b: Action, c: Action, d: Action)
    ensures Steps(s, [a, b, c, d]) == Step(Step(Step(Step(s, a), b), c), d)
  {
    assert [a, b, c, d][1..] == [b, c, d];
    StepsThree(Step(s, a), b, c, d);
  }

  predicate Unhurried(s: State) {
    s.mem.unsent == [] && s.q.queued == [] && s.q.inflight == [] && s.run.cfg.maxSteps <= 0 && !s.cancelled
  }

  lemma EnterStep(s: State)
    requires s.run.pc == Top && Unhurried(s)
    ensures var t := Step(s, Enter);
            Unhurried(t) && t.mem == s.mem && t.run == s.run.(pc := Delivering(false))
  {
  }

  lemma GateStep(s: State)
    requires s.run.pc == Delivering(false) && Unhurried(s)
    ensures var t := Step(s, Gate(false));
            Unhurried(t) && t.mem == s.mem && t.run == s.run.(pc := Hooks, trace := t.run.trace)
  {
  }

  lemma HookStep(s: State)
    requires s.run.pc == Hooks && Unhurried(s)
    ensures var t := Step(s, Hook(true));
            Unhurried(t) && t.mem == s.mem && t.run == s.run.(pc := Composing)
  {
  }

  lemma ComposeStep(s: State)
    requires s.run.pc == Composing && Unhurried(s)
    ensures var t := Step(s, Compose([]));
            && Unhurried(t) && t.mem == s.mem
            && t.run.pc == Calling && t.run.loose == s.run.loose && t.run.transient == 0 && t.run.cfg == s.run.cfg
  {
  }

  lemma AskingSteps(s: State)
    requires s.run.pc == Top && Unhurried(s)
    ensures var t := Steps(s, ASKING);
            && Unhurried(t) && t.mem == s.mem
            && t.run.pc == Calling && t.run.loose == s.run.loose && t.run.transient == 0 && t.run.cfg == s.run.cfg
  {
    StepsFour(s, Enter, Gate(false), Hook(true), Compose([]));
    var t1 := Step(s, Enter);
    EnterStep(s);
    var t2 := Step(t1, Gate(false));
    GateStep(t1);
    var t3 := Step(t2, Hook(true));
    HookStep(t2);
    ComposeStep(t3);
  }

  lemma BeginRun(cfg: Config)
    requires cfg.maxSteps <= 0
    ensures var s := Run([], [Begin(None, cfg)]);
            Unhurried(s) && s.run == FreshRun(Top, cfg, 0) && s.mem == Start([]).mem
  {
    assert Init([Begin(None, cfg)]) == [];
    assert Run([], []) == Start([]);
  }

  lemma AskedRun(cfg: Config)
    requires cfg.maxSteps <= 0
    ensures var s := Run([], [Begin(None, cfg)] + ASKING);
            && Unhurried(s) && s.mem == Start([]).mem
            && s.run.pc == Calling && s.run.loose == 0 && s.run.transient == 0 && s.run.cfg == cfg
  {
    BeginRun(cfg);
    AskingSteps(Run([], [Begin(None, cfg)]));
    StepsAreRun([], [Begin(None, cfg)], ASKING);
  }

  lemma CallStep(s: State, o: Outcome)
    requires s.run.pc == Calling && Unhurried(s) && Kept(o)
    ensures var t := Step(Step(s, Call(o)), Flush);
            && Unhurried(t) && t.mem == Memory.Flush(Memory.Append(s.mem, Reply(o.content)))
            && t.run.pc == Judging(o) && t.run.snapshot == s.mem.messages && t.run.loose == s.run.loose
            && t.run.transient == s.run.transient && t.run.cfg == s.run.cfg
  {
    var t := Step(s, Call(o));
    assert t == DoCall(s, o);
  }

  /** A reply that breaks off with a passing error, and one retry allowed. */
  const BROKEN := Outcome([Text([])], StopError, Some(Transient))

  lemma BrokenStep(s: State)
    requires s.run.pc == Judging(BROKEN) && Unhurried(s) && s.run.cfg.maxRetries > 0 && s.run.transient == 0
    requires |s.run.snapshot| < |s.mem.messages| && Last(s.mem.messages).role == Assistant
    ensures var t := Step(s, Judge); t.mem.unsent == [] && t.mem.drops == s.mem.drops + 1
  {
    assert Step(s, Judge) == DoJudge(s, BROKEN);
  }

  lemma BrokenSteps(s: State)
    requires s.run.pc == Calling && Unhurried(s) && s.run.cfg.maxRetries > 0 && s.run.transient == 0
    ensures var t := Step(Step(Step(s, Call(BROKEN)), Flush), Judge);
            t.mem.unsent == [] && t.mem.drops == s.mem.drops + 1
  {
    CallStep(s, BROKEN);
    var t := Step(Step(s, Call(BROKEN)), Flush);
    assert Last(t.mem.messages) == Reply(BROKEN.content);
    BrokenStep(t);
  }

  /** One retry after part of a reply had arrived: the log is one message ahead. */
  lemma RetryPartsLog(cfg: Config) returns (acts: seq<Action>)
    requires cfg.maxSteps <= 0 && cfg.maxRetries > 0
    ensures acts == [Begin(None, cfg)] + ASKING + [Call(BROKEN), Flush, Judge]
    ensures var m := Run([], acts).mem; m.unsent == [] && m.drops == 1 && Memory.Replay(m.rows) != m.messages
  {
    var asked, last := [Begin(None, cfg)] + ASKING, [Call(BROKEN), Flush, Judge];
    acts := asked + last;
    AskedRun(cfg);
    StepsAreRun([], asked, last);
    var s := Run([], asked);
    BrokenSteps(s);
    StepsThree(s, Call(BROKEN), Flush, Judge);
    EngineLog.LogAgreement([], acts);
  }

  /** A reply with a call that the provider does not want run yet. */
  const DANGLING := Outcome([ToolCall("call", "read")], StopContinue, None)

  lemma JudgeStep(s: State)
    requires s.run.pc == Judging(DANGLING) && Unhurried(s)
    ensures var t := Step(s, Judge);
            Unhurried(t) && t.mem == s.mem && t.run.pc == Continuing && t.run.loose == s.run.loose + 1 && t.run.cfg == s.run.cfg
  {
    assert Step(s, Judge) == DoJudge(s, DANGLING);
    assert ToolCalls(DANGLING.content) == [ToolCall("call", "read")];
  }

  lemma LookStep(s: State)
    requires s.run.pc == Continuing && Unhurried(s)
    ensures Step(s, Look) == At(s, Counting)
  {
  }

  lemma CountStep(s: State)
    requires s.run.pc == Counting && Unhurried(s)
    ensures Step(s, Count) == At(s, Weighing)
  {
  }

  lemma OnwardSteps(s: State)
    requires s.run.pc == Continuing && Unhurried(s)
    ensures var t := Step(Step(Step(s, Look), Count), Observe(Quiet));
            Unhurried(t) && t.mem == s.mem && t.run.pc == Top && t.run.loose == s.run.loose && t.run.cfg == s.run.cfg
  {
    LookStep(s);
    CountStep(At(s, Counting));
    ObserveStep(At(At(s, Counting), Weighing));
  }

  lemma ObserveStep(s: State)
    requires s.run.pc == Weighing && Unhurried(s)
    ensures Step(s, Observe(Quiet)) == NextStep(s)
  {
  }

  /** One such reply: at the next model call its call stands without a result. */
  lemma ContinuedCallDangles(cfg: Config) returns (acts: seq<Action>)
    requires cfg.maxSteps <= 0
    ensures acts == [Begin(None, cfg)] + ASKING + [Call(DANGLING), Flush, Judge] + [Look, Count, Observe(Quiet)] + ASKING
    ensures var s := Run([], acts); s.run.pc == Calling && s.run.base <= |s.mem.messages| && !AllAnswered(Tail(s))
  {
    var asked, judged, onward := [Begin(None, cfg)] + ASKING, [Call(DANGLING), Flush, Judge], [Look, Count, Observe(Quiet)];
    AskedRun(cfg);
    var s := Run([], asked);
    StepsAreRun([], asked, judged);
    StepsThree(s, Call(DANGLING), Flush, Judge);
    CallStep(s, DANGLING);
    JudgeStep(Step(Step(s, Call(DANGLING)), Flush));
    var t := Run([], asked + judged);
    StepsAreRun([], asked + judged, onward);
    StepsThree(t, Look, Count, Observe(Quiet));
    OnwardSteps(t);
    acts := asked + judged + onward + ASKING;
    StepsAreRun([], asked + judged + onward, ASKING);
    AskingSteps(Run([], asked + judged + onward));
    ToolPairing([], acts);
  }
}
