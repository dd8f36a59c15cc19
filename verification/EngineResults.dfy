/** What the results of a tool batch say: over every run, each result is what its tool
    gave, the host's refusal to persist it, or the notice that the call was skipped; and
    these results are what the tool message carries. */
module EngineResults {
  import opened Transcript
  import opened Engine
  import EngineBatch
  import Memory
  import Queue

  // ---------------------------------------------------------- what is promised

  /** The result of one call: the tool's own, field by field, if the call ran and the
      host took it; the refusal's text as an error if it did not; the notice as an error
      if the call was skipped. */
  ghost predicate Reports(r: Content, call: Content, ran: bool, out: ToolOutcome, rejected: Option<Bytes>, skip: Bytes) {
    && r.ToolResult? && call.ToolCall? && r.callID == call.id
    && r.timing == (if ran then out.timing else None)
    && match rejected
       case Some(message) => r.content == [Text(message)] && r.isError && r.context == ToolContext([], [], [])
       case None =>
         if ran then r.content == out.content && r.isError == out.isError && r.context == out.context
         else r.content == [Text(skip)] && r.isError && r.context == ToolContext([], [], [])
  }

  /** A tool that ran and whose result the host took activates this name. */
  ghost predicate Activated(b: Batch, name: string, i: int) {
    && 0 <= i < |b.ran| && i < |b.outs| && i < |b.rejections|
    && b.ran[i] && b.rejections[i] == None && name in b.outs[i].added
  }

  ghost predicate ReportsAt(b: Batch, skip: Bytes, i: int) {
    && 0 <= i < |b.results| && i < |b.calls| && i < |b.ran| && i < |b.outs| && i < |b.rejections|
    && Reports(b.results[i], b.calls[i], b.ran[i], b.outs[i], b.rejections[i], skip)
  }

  ghost predicate ResultsInv(b: Batch, skip: Bytes) {
    && |b.outs| == |b.rejections| == |b.results| <= |b.ran|
    && (forall i :: 0 <= i < |b.results| ==> ReportsAt(b, skip, i))
    && NoRepeats(b.added)
    && (forall name :: name in b.added <==> exists i :: Activated(b, name, i))
  }

  // ------------------------------------------------------------------ the steps

  lemma CommittedReports(call: Content, ran: bool, out: ToolOutcome, rejected: Option<Bytes>, skip: Bytes)
    requires call.ToolCall?
    ensures Reports(Committed(call.id, if ran then out else Skipped(skip), rejected), call, ran, out, rejected, skip)
  {
  }

  lemma StartKeeps(b: Batch, c: Batch, skip: Bytes)
    requires ResultsInv(b, skip)
    requires b.ran <= c.ran && c.calls == b.calls && c.results == b.results && c.outs == b.outs
    requires c.rejections == b.rejections && c.added == b.added
    ensures ResultsInv(c, skip)
  {
    forall i | 0 <= i < |c.results| ensures ReportsAt(c, skip, i) {
      assert ReportsAt(b, skip, i);
    }
    forall name, i ensures Activated(c, name, i) <==> Activated(b, name, i) {
    }
  }

  /** One more result, with what it came from. */
  ghost predicate Grows(b: Batch, c: Batch, out: ToolOutcome, rejected: Option<Bytes>) {
    && c.calls == b.calls && c.ran == b.ran
    && |c.results| == |b.results| + 1 && b.results <= c.results
    && c.outs == b.outs + [out] && c.rejections == b.rejections + [rejected]
  }

  lemma ResultsGrow(b: Batch, c: Batch, skip: Bytes, out: ToolOutcome, rejected: Option<Bytes>)
    requires ResultsInv(b, skip) && |b.ran| == |b.results| + 1 <= |b.calls| && Grows(b, c, out, rejected)
    requires Reports(Last(c.results), b.calls[|b.results|], Last(b.ran), out, rejected, skip)
    ensures forall i :: 0 <= i < |c.results| ==> ReportsAt(c, skip, i)
  {
    forall i | 0 <= i < |c.results| ensures ReportsAt(c, skip, i) {
      if i < |b.results| {
        assert ReportsAt(b, skip, i);
      }
    }
  }

  lemma NamesGrow(b: Batch, c: Batch, skip: Bytes, out: ToolOutcome, rejected: Option<Bytes>, name: string)
    requires ResultsInv(b, skip) && |b.ran| == |b.results| + 1 && Grows(b, c, out, rejected)
    ensures (exists i :: Activated(c, name, i))
            <==> (exists i :: Activated(b, name, i)) || (Last(b.ran) && rejected == None && name in out.added)
  {
    var n := |b.results|;
    if i :| Activated(c, name, i) {
      assert i < n ==> Activated(b, name, i);
    }
    if i :| Activated(b, name, i) {
      assert Activated(c, name, i);
    }
    if Last(b.ran) && rejected == None && name in out.added {
      assert Activated(c, name, n);
    }
  }

  lemma FinishKeeps(b: Batch, skip: Bytes, out: ToolOutcome, rejected: Option<Bytes>)
    requires ResultsInv(b, skip) && |b.ran| == |b.results| + 1 && Finishable(b)
    ensures ResultsInv(WithResult(b, skip, out, rejected), skip)
  {
    var c := WithResult(b, skip, out, rejected);
    CommittedReports(b.calls[|b.results|], Last(b.ran), out, rejected, skip);
    ResultsGrow(b, c, skip, out, rejected);
    AddNamesAdds(b.added, if Last(b.ran) then out.added else []);
    forall name ensures name in c.added <==> exists i :: Activated(c, name, i) {
      NamesGrow(b, c, skip, out, rejected, name);
    }
  }

  lemma WithResultReports(b: Batch, skip: Bytes)
    requires Finishable(b)
    ensures forall out, rejected :: var c := WithResult(b, skip, out, rejected);
              Grows(b, c, out, rejected) && Reports(Last(c.results), b.calls[|b.results|], Last(b.ran), out, rejected, skip)
  {
    forall out, rejected
      ensures var c := WithResult(b, skip, out, rejected);
              Grows(b, c, out, rejected) && Reports(Last(c.results), b.calls[|b.results|], Last(b.ran), out, rejected, skip)
    {
      CommittedReports(b.calls[|b.results|], Last(b.ran), out, rejected, skip);
    }
  }

  lemma FreshBatch(calls: seq<Content>, skip: Bytes)
    ensures ResultsInv(NO_BATCH.(calls := calls), skip)
  {
  }

  lemma StartCallKeeps(s: State)
    requires s.run.pc.Running? && ResultsInv(s.run.batch, s.run.cfg.texts.skip)
    ensures ResultsInv(DoStartCall(s).run.batch, s.run.cfg.texts.skip)
  {
    StartKeeps(s.run.batch, DoStartCall(s).run.batch, s.run.cfg.texts.skip);
  }

  lemma FinishCallKeeps(s: State, out: ToolOutcome, rejected: Option<Bytes>)
    requires s.run.pc.Running? && ResultsInv(s.run.batch, s.run.cfg.texts.skip) && EngineBatch.BatchInv(s.run.batch)
    ensures ResultsInv(DoFinishCall(s, out, rejected).run.batch, s.run.cfg.texts.skip)
  {
    if Finishable(s.run.batch) {
      FinishKeeps(s.run.batch, s.run.cfg.texts.skip, out, rejected);
    }
  }

  lemma RunningKeeps(s: State, a: Action)
    requires s.run.pc.Running? && ResultsInv(s.run.batch, s.run.cfg.texts.skip) && EngineBatch.BatchInv(s.run.batch)
    ensures ResultsInv(Advance(s, a).run.batch, s.run.cfg.texts.skip)
  {
    if a.FinishCall? {
      FinishCallKeeps(s, a.out, a.rejected);
    } else {
      StartCallKeeps(s);
    }
  }

  lemma AdvanceKeeps(s: State, a: Action)
    requires ResultsInv(s.run.batch, s.run.cfg.texts.skip) && EngineBatch.BatchInv(s.run.batch) && s.run.pc != Idle
    ensures ResultsInv(Advance(s, a).run.batch, Advance(s, a).run.cfg.texts.skip)
  {
    AdvanceKeepsConfig(s, a);
    if s.run.pc.Running? {
      RunningKeeps(s, a);
    } else {
      EngineBatch.OtherSteps(s, a);
      FreshBatch(Advance(s, a).run.batch.calls, s.run.cfg.texts.skip);
    }
  }

  lemma IdleStays(s: State, a: Action)
    requires s.run.pc == Idle
    ensures Advance(s, a) == s
  {
  }

  lemma HostKeeps(s: State, a: Action)
    requires ResultsInv(s.run.batch, s.run.cfg.texts.skip) && !ByLoop(a)
    ensures ResultsInv(Step(s, a).run.batch, Step(s, a).run.cfg.texts.skip)
  {
    if a.Begin? {
      FreshBatch([], a.cfg.texts.skip);
    }
  }

  lemma LoopKeeps(s: State, a: Action)
    requires ResultsInv(s.run.batch, s.run.cfg.texts.skip) && EngineBatch.BatchInv(s.run.batch) && ByLoop(a)
    ensures ResultsInv(Step(s, a).run.batch, Step(s, a).run.cfg.texts.skip)
  {
    if s.mem.unsent == [] {
      if s.run.pc == Idle {
        IdleStays(s, a);
      } else {
        AdvanceKeeps(s, a);
      }
    }
  }

  lemma StepKeeps(s: State, a: Action)
    requires ResultsInv(s.run.batch, s.run.cfg.texts.skip) && EngineBatch.BatchInv(s.run.batch)
    ensures ResultsInv(Step(s, a).run.batch, Step(s, a).run.cfg.texts.skip)
  {
    if ByLoop(a) {
      LoopKeeps(s, a);
    } else {
      HostKeeps(s, a);
    }
  }

  lemma {:induction false} RunKeeps(messages: seq<Message>, acts: seq<Action>)
    ensures ResultsInv(Run(messages, acts).run.batch, Run(messages, acts).run.cfg.texts.skip)
  {
    if acts == [] {
      FreshBatch([], NO_CONFIG.texts.skip);
    } else {
      RunKeeps(messages, Init(acts));
      EngineBatch.RunKeepsBatch(messages, Init(acts));
      StepKeeps(Run(messages, Init(acts)), Last(acts));
    }
  }

  /** In every batch of every run: the i-th result is that of the i-th call, and the
      names activated are those of the calls that ran and whose results were taken. */
  lemma ResultsAreOutcomes(messages: seq<Message>, acts: seq<Action>, i: nat)
    requires i < |Run(messages, acts).run.batch.results|
    ensures var b, skip := Run(messages, acts).run.batch, Run(messages, acts).run.cfg.texts.skip;
            && i < |b.calls| && i < |b.ran| && i < |b.outs| && i < |b.rejections|
            && Reports(b.results[i], b.calls[i], b.ran[i], b.outs[i], b.rejections[i], skip)
            && NoRepeats(b.added)
            && forall name :: name in b.added <==> exists k :: Activated(b, name, k)
  {
    RunKeeps(messages, acts);
    var b := Run(messages, acts).run.batch;
    assert ReportsAt(b, Run(messages, acts).run.cfg.texts.skip, i);
  }

  /** The finished batch enters the transcript as one tool message with its results and
      its names; only the mirror for the user may follow in the same step. */
  lemma ResultsAreSent(s: State)
    requires s.run.pc.Running? && s.mem.unsent == [] && |s.run.batch.results| == |s.run.batch.calls| == |s.run.batch.ran|
    ensures var t, b := Step(s, BatchDone), s.run.batch;
            && t.run.pc == Sent && t.run.batch == b
            && |s.mem.messages| < |t.mem.messages| <= |s.mem.messages| + 2 && s.mem.messages <= t.mem.messages
            && t.mem.messages[|s.mem.messages|] == Message(Tool, b.results, b.added, false)
            && (|t.mem.messages| == |s.mem.messages| + 2 ==> Last(t.mem.messages).role == User)
  {
    assert Step(s, BatchDone) == DoBatchDone(s);
  }

  // -------------------------------------------------------- the run's configuration

  /** The configuration of a run never changes, and a run does not become idle. */
  lemma AdvanceKeepsConfig(s: State, a: Action)
    requires s.run.pc != Idle
    ensures Advance(s, a).run.cfg == s.run.cfg && Advance(s, a).run.pc != Idle
  {
    match s.run.pc {
      case Closing(_) => ClosingConfig(s, a);
      case Weighing => ClosingConfig(s, a);
      case Observing => ClosingConfig(s, a);
      case Running(_) => RunningConfig(s, a);
      case Judging(o) => JudgeConfig(s, o);
      case Continuing => ReadingConfig(s, a);
      case Counting => ReadingConfig(s, a);
      case Ending(_) => ReadingConfig(s, a);
      case EndCounting(_) => ReadingConfig(s, a);
      case Recovering => ReadingConfig(s, a);
      case _ => OtherConfig(s, a);
    }
  }

  lemma ClosingConfig(s: State, a: Action)
    requires s.run.pc.Closing? || s.run.pc.Weighing? || s.run.pc.Observing?
    ensures Advance(s, a).run.cfg == s.run.cfg && Advance(s, a).run.pc != Idle
  {
  }

  lemma RunningConfig(s: State, a: Action)
    requires s.run.pc.Running?
    ensures Advance(s, a).run.cfg == s.run.cfg && Advance(s, a).run.pc != Idle
  {
  }

  lemma JudgeConfig(s: State, o: Outcome)
    ensures DoJudge(s, o).run.cfg == s.run.cfg && DoJudge(s, o).run.pc != Idle
  {
  }

  predicate Reads(pc: Pc) {
    pc.Continuing? || pc.Counting? || pc.Ending? || pc.EndCounting? || pc.Recovering?
  }

  lemma ReadingConfig(s: State, a: Action)
    requires Reads(s.run.pc)
    ensures Advance(s, a).run.cfg == s.run.cfg && Advance(s, a).run.pc != Idle
  {
  }

  lemma OtherConfig(s: State, a: Action)
    requires !s.run.pc.Closing? && !s.run.pc.Weighing? && !s.run.pc.Observing? && !s.run.pc.Running? && !s.run.pc.Judging?
    requires s.run.pc != Idle && !Reads(s.run.pc)
    ensures Advance(s, a).run.cfg == s.run.cfg && Advance(s, a).run.pc != Idle
  {
  }
}
