/** How a turn of the resident child ends, over every run of the runner: with the error
    its agent returned, or the journal's; when it recovers instead, and on which limit the
    second part runs; and when the steer window closes. */
module ResidentOutcomes {
  import opened Transcript
  import opened Resident
  import opened ResidentProofs
  import E = Engine
  import Queue

  /** What the last run of the agent came to, unless the journal failed meanwhile. */
  ghost predicate Reported(s: State, err: Option<Failure>) {
    && s.eng.run.pc.Returned?
    && (err == None <==> !s.journalFailed && s.eng.run.pc.result == E.Finished)
    && (err.Some? ==> err.value == if s.journalFailed then JournalFailure else TurnFailed(s.eng.run.pc.result))
  }

  /** A turn waiting to recover keeps the error it may still end with. */
  ghost predicate Pending(s: State, result: E.Result) {
    s.eng.run.pc.Returned? && s.eng.run.pc.result == result && result != E.Finished
  }

  ghost predicate Honest(s: State) {
    match s.phase
    case Free => true
    case Turn => true
    case Overflowed(result) => Pending(s, result)
    case Checkpointing(result, _) => Pending(s, result)
    case Closing(err) => Reported(s, err)
    case Ended(err) => Reported(s, err)
  }

  // ------------------------------------------------------------------ the steps

  lemma CloseReports(s: State, result: E.Result)
    requires s.eng.run.pc.Returned? && s.eng.run.pc.result == result
    ensures Honest(Close(s, ErrorOf(result)))
  {
  }

  lemma CompactHonest(s: State, next: Option<seq<Message>>)
    requires Inv(s) && Honest(s) && s.phase.Overflowed?
    ensures Honest(Step(s, Compact(next)))
  {
    ExchangeFrame(s, s.eng.mem.messages);
    CloseReports(s, s.phase.result);
    CloseReports(WithMessages(s, s.eng.mem.messages), s.phase.result);
    if next.Some? {
      ExchangeFrame(s, next.value);
    }
  }

  lemma RecordHonest(s: State, ok: bool)
    requires Inv(s) && Honest(s) && s.phase.Checkpointing?
    ensures Honest(Step(s, Record(ok)))
  {
    if ok {
      var t := s.(checkpoint := Step(s, Record(ok)).checkpoint);
      CloseReports(t, s.phase.result);
    } else {
      ExchangeFrame(s, s.phase.before);
      CloseReports(WithMessages(s, s.phase.before), s.phase.result);
    }
  }

  lemma ThreadHonest(s: State, a: Action)
    requires Inv(s) && Honest(s) && (a.Steer? || a.DrainSteers? || a.CancelParent? || a.FailJournal?)
    ensures Honest(Step(s, a))
  {
  }

  lemma StepHonest(s: State, a: Action)
    requires Inv(s) && Honest(s)
    ensures Honest(Step(s, a))
  {
    match a {
      case Compact(next) =>
        if s.phase.Overflowed? {
          CompactHonest(s, next);
        }
      case Record(ok) =>
        if s.phase.Checkpointing? {
          RecordHonest(s, ok);
        }
      case TurnReturns(_) =>
        if s.phase.Turn? && Done(s) {
          CloseReports(s, s.eng.run.pc.result);
        }
      case _ =>
        if a.Steer? || a.DrainSteers? || a.CancelParent? || a.FailJournal? {
          ThreadHonest(s, a);
        }
    }
  }

  lemma {:induction false} AlwaysHonest(messages: seq<Message>, cfg: E.Config, acts: seq<Action>)
    ensures Honest(Run(messages, cfg, acts))
  {
    if acts != [] {
      AlwaysHonest(messages, cfg, Init(acts));
      Always(messages, cfg, Init(acts));
      StepHonest(Run(messages, cfg, Init(acts)), Last(acts));
    }
  }

  // ------------------------------------------------------------------- theorems

  /** Whatever recovery was tried: a turn closes, and Run returns, with exactly what the
      agent's last run came to, or with the journal's failure if there was one. */
  lemma ErrorIsTheTurns(messages: seq<Message>, cfg: E.Config, acts: seq<Action>)
    ensures var s := Run(messages, cfg, acts);
            && (s.phase.Closing? ==> Reported(s, s.phase.err))
            && (s.phase.Ended? ==> Reported(s, s.phase.err))
  {
    AlwaysHonest(messages, cfg, acts);
  }

  /** A turn begins with its prompt as a user's message behind the transcript, or, with
      none, on the transcript as it stands; on the child's whole limit and, unless the
      parent's context is over, a live context. */
  lemma TurnStartsWithPrompt(messages: seq<Message>, cfg: E.Config, acts: seq<Action>, prompt: Bytes)
    requires Run(messages, cfg, acts).phase.Free? || Run(messages, cfg, acts).phase.Ended?
    ensures var s := Run(messages, cfg, acts);
            var t := Step(s, RunTurn(prompt));
            && t.phase == Turn && t.running && !t.recovered && t.eng.q == s.eng.q && t.eng.cancelled == s.dead
            && t.eng.run.pc == E.Top && t.eng.run.cfg == s.cfg.(maxSteps := s.limit)
            && if prompt == [] then t.eng.mem.messages == s.eng.mem.messages
               else |t.eng.mem.messages| == |s.eng.mem.messages| + 1 && s.eng.mem.messages <= t.eng.mem.messages
                    && Queue.Says(Last(t.eng.mem.messages), prompt, [])
  {
    Always(messages, cfg, acts);
    var s := Run(messages, cfg, acts);
    var u := s.(running := true, phase := Turn, used := 0, spent := 0, recovered := false, journalFailed := false);
    LaunchFacts(u, if prompt == [] then None else Some(E.Prompt(prompt, [])));
    Queue.BlocksSay(prompt, []);
    LaunchSays(u, prompt);
  }

  /** A returned turn recovers exactly when the provider rejected the transcript of a
      first part under a live context and the journal kept up; else it closes. */
  lemma RecoversIff(messages: seq<Message>, cfg: E.Config, acts: seq<Action>, overflow: bool)
    requires Run(messages, cfg, acts).phase.Turn? && Done(Run(messages, cfg, acts))
    ensures var s := Run(messages, cfg, acts);
            var t := Step(s, TurnReturns(overflow));
            && (t.phase.Overflowed? <==> overflow && s.eng.run.pc.result != E.Finished && !s.eng.cancelled
                                         && !s.recovered && !s.journalFailed)
            && (!t.phase.Overflowed? ==> t.phase.Closing? && Reported(t, t.phase.err))
            && t.eng == s.eng
            && (t.phase.Overflowed? ==> t.overflown == s.eng.mem.messages)
  {
    CloseReports(Run(messages, cfg, acts), Run(messages, cfg, acts).eng.run.pc.result);
  }

  /** The second part runs on the compacted transcript, with the steps the first part
      left; if it left none, the turn closes. */
  lemma ResumesOnTheRest(messages: seq<Message>, cfg: E.Config, acts: seq<Action>)
    requires Run(messages, cfg, acts).phase.Checkpointing?
    ensures var s := Run(messages, cfg, acts);
            var t := Step(s, Record(true));
            var left := s.limit - StepsStarted(s);
            && t.eng.mem.messages == s.eng.mem.messages
            && (t.phase.Turn? <==> s.limit <= 0 || left > 0)
            && (!t.phase.Turn? ==> t.phase.Closing?)
            && (t.phase.Turn? ==>
                  && t.recovered && t.eng.run.pc == E.Top && t.eng.run.step == 1
                  && t.eng.run.cfg == s.cfg.(maxSteps := if s.limit > 0 then left else s.limit)
                  && t.eng.cancelled == (s.dead || s.journalFailed))
  {
    Always(messages, cfg, acts);
    var s := Run(messages, cfg, acts).(checkpoint := Step(Run(messages, cfg, acts), Record(true)).checkpoint);
    if !Exhausted(s) {
      ResumedRuns(s);
    }
  }

  lemma ResumedRuns(s: State)
    requires E.Resting(s.eng)
    ensures var t := Resumed(s);
            && t.phase.Turn? && t.recovered && t.eng.mem.messages == s.eng.mem.messages
            && t.eng.run.pc == E.Top && t.eng.run.step == 1 && t.eng.cancelled == (s.dead || s.journalFailed)
            && t.eng.run.cfg == s.cfg.(maxSteps := if s.limit > 0 then s.limit - s.used else s.maxSteps)
  {
    var u := s.(phase := Turn, recovered := true, spent := s.used,
                maxSteps := if s.limit > 0 then s.limit - s.used else s.maxSteps);
    LaunchFacts(u, None);
    LaunchSays(u, []);
  }

  /** The window closes, with the turn's error, exactly if there is one, the context is
      over or nothing waits; otherwise the turn goes on with what was steered. */
  lemma WindowClosesIff(messages: seq<Message>, cfg: E.Config, acts: seq<Action>)
    requires Run(messages, cfg, acts).phase.Closing?
    ensures var s := Run(messages, cfg, acts);
            var t := Step(s, CloseWindow);
            && (t.phase == Ended(s.phase.err) <==> s.phase.err.Some? || s.dead || s.eng.q.queued == [])
            && (t.phase == Ended(s.phase.err) ==> !t.running && t.eng == s.eng)
            && (t.phase != Ended(s.phase.err) ==>
                  && t.phase == Turn && t.running && t.continuations == s.continuations + 1 && !t.recovered
                  && t.eng.q == s.eng.q && t.eng.mem.messages == s.eng.mem.messages
                  && t.eng.run.pc == E.Top && t.eng.run.cfg == s.cfg.(maxSteps := s.limit) && !t.eng.cancelled)
  {
    Always(messages, cfg, acts);
    var s := Run(messages, cfg, acts);
    if s.phase.err == None && !s.dead && s.eng.q.queued != [] {
      var u := s.(continuations := s.continuations + 1, phase := Turn, used := 0, spent := 0, recovered := false,
                  journalFailed := false);
      LaunchFacts(u, None);
      LaunchSays(u, []);
    }
  }
}
