/** Which calls of a batch run, and what a retry leaves behind. */
module EngineBatch {
  import opened Transcript
  import opened Engine
  import Memory
  import Queue

  // ------------------------------------------------------------- skipping calls

  /** No ordinary input was waiting at any call after the first, up to the i-th. */
  ghost predicate Undisturbed(b: Batch, i: nat)
    requires i < |b.userWaiting|
  {
    forall j :: 1 <= j <= i ==> !b.userWaiting[j]
  }

  /** A result no tool produced: an error that read nothing and took no time. */
  predicate Untouched(r: Content) {
    r.ToolResult? && r.isError && r.timing == None && r.context == ToolContext([], [], [])
  }

  ghost predicate RanIffUndisturbed(b: Batch) {
    && |b.ran| == |b.userWaiting|
    && forall i :: 0 <= i < |b.ran| ==> (b.ran[i] <==> Undisturbed(b, i))
  }

  ghost predicate SkippedUntouched(b: Batch) {
    && |b.results| <= |b.ran|
    && forall i :: 0 <= i < |b.results| && !b.ran[i] ==> Untouched(b.results[i])
  }

  ghost predicate BatchInv(b: Batch) {
    && RanIffUndisturbed(b)
    && SkippedUntouched(b)
    && |b.ran| <= |b.results| + 1
    && (b.skipping <==> b.ran != [] && !Last(b.ran))
  }

  lemma UndisturbedBy(b: Batch, c: Batch, i: nat)
    requires i < |b.userWaiting| <= |c.userWaiting|
    requires forall j :: 0 <= j <= i ==> b.userWaiting[j] == c.userWaiting[j]
    ensures Undisturbed(b, i) <==> Undisturbed(c, i)
  {
  }

  lemma UndisturbedNext(b: Batch, i: nat)
    requires 0 < i < |b.userWaiting|
    ensures Undisturbed(b, i) <==> Undisturbed(b, i - 1) && !b.userWaiting[i]
  {
  }

  lemma StartedCall(b: Batch, waiting: bool)
    requires BatchInv(b) && |b.ran| == |b.results|
    ensures var skipping := b.skipping || (|b.results| > 0 && waiting);
            BatchInv(b.(skipping := skipping, ran := b.ran + [!skipping], userWaiting := b.userWaiting + [waiting]))
  {
    var n := |b.ran|;
    var skipping := b.skipping || (n > 0 && waiting);
    var c := b.(skipping := skipping, ran := b.ran + [!skipping], userWaiting := b.userWaiting + [waiting]);
    forall i | 0 <= i <= n ensures c.ran[i] <==> Undisturbed(c, i) {
      if i < n {
        UndisturbedBy(b, c, i);
      } else if n > 0 {
        UndisturbedNext(c, n);
        UndisturbedBy(b, c, n - 1);
      }
    }
  }

  lemma FinishedCall(b: Batch, c: Batch)
    requires BatchInv(b) && |b.ran| == |b.results| + 1
    requires c.ran == b.ran && c.userWaiting == b.userWaiting && c.skipping == b.skipping
    requires |c.results| == |b.results| + 1 && b.results <= c.results && (!Last(b.ran) ==> Untouched(Last(c.results)))
    ensures BatchInv(c)
  {
  }

  lemma StartCallKeeps(s: State)
    requires BatchInv(s.run.batch)
    ensures BatchInv(DoStartCall(s).run.batch)
  {
    var b := s.run.batch;
    if !Executing(b) && |b.results| < |b.calls| {
      StartedCall(b, Queue.HasUser(s.q.queued));
    }
  }

  lemma FinishCallKeeps(s: State, out: ToolOutcome, rejected: Option<Bytes>)
    requires BatchInv(s.run.batch)
    ensures BatchInv(DoFinishCall(s, out, rejected).run.batch)
  {
    var b := s.run.batch;
    if Finishable(b) {
      var c := WithResult(b, s.run.cfg.texts.skip, out, rejected);
      FinishedCall(b, c);
    }
  }

  lemma JudgeBatch(s: State, o: Outcome)
    ensures var b := DoJudge(s, o).run.batch; b == s.run.batch || b == NO_BATCH.(calls := b.calls)
  {
  }

  lemma DecidingBatch(s: State, a: Action)
    requires Deciding(s.run.pc)
    ensures Advance(s, a).run.batch == s.run.batch
  {
  }

  /** Program points that only look at the context or the queue, or do nothing. */
  predicate LooksOnly(pc: Pc) {
    pc.Continuing? || pc.Counting? || pc.Ending? || pc.EndCounting? || pc.Sent? || pc.Idle? || pc.Returned?
  }

  lemma LookingBatch(s: State, a: Action)
    requires LooksOnly(s.run.pc)
    ensures Advance(s, a).run.batch == s.run.batch
  {
  }

  predicate Waiting(pc: Pc) {
    pc.Retrying? || pc.Sleeping? || pc.Woken? || pc.Calling?
  }

  lemma WaitingBatch(s: State, a: Action)
    requires Waiting(s.run.pc)
    ensures Advance(s, a).run.batch == s.run.batch
  {
  }

  lemma OpeningBatch(s: State, a: Action)
    requires s.run.pc.Top? || s.run.pc.Delivering? || s.run.pc.Hooks? || s.run.pc.Composing?
    ensures Advance(s, a).run.batch == s.run.batch
  {
  }

  /** Outside a running batch, only a judged reply replaces it, by a fresh one. */
  lemma OtherSteps(s: State, a: Action)
    requires !s.run.pc.Running?
    ensures var b := Advance(s, a).run.batch; b == s.run.batch || b == NO_BATCH.(calls := b.calls)
  {
    if s.run.pc.Judging? {
      JudgeBatch(s, s.run.pc.outcome);
    } else if Deciding(s.run.pc) {
      DecidingBatch(s, a);
    } else if LooksOnly(s.run.pc) {
      LookingBatch(s, a);
    } else if Waiting(s.run.pc) {
      WaitingBatch(s, a);
    } else {
      OpeningBatch(s, a);
    }
  }

  lemma RunningBatch(s: State, a: Action)
    requires s.run.pc.Running? && BatchInv(s.run.batch)
    ensures BatchInv(Advance(s, a).run.batch)
  {
    StartCallKeeps(s);
    if a.FinishCall? {
      FinishCallKeeps(s, a.out, a.rejected);
    }
  }

  lemma AdvanceKeepsBatch(s: State, a: Action)
    requires BatchInv(s.run.batch)
    ensures BatchInv(Advance(s, a).run.batch)
  {
    if !s.run.pc.Running? {
      OtherSteps(s, a);
    } else {
      RunningBatch(s, a);
    }
  }

  lemma StepKeepsBatch(s: State, a: Action)
    requires BatchInv(s.run.batch)
    ensures BatchInv(Step(s, a).run.batch)
  {
    if ByLoop(a) {
      AdvanceKeepsBatch(s, a);
    }
  }

  lemma {:induction false} RunKeepsBatch(messages: seq<Message>, acts: seq<Action>)
    ensures BatchInv(Run(messages, acts).run.batch)
  {
    if acts != [] {
      RunKeepsBatch(messages, Init(acts));
      StepKeepsBatch(Run(messages, Init(acts)), Last(acts));
    }
  }

  /** In every batch: the first call runs; a later one runs exactly when no ordinary
      input was waiting at it or at an earlier one after the first, so what is skipped
      is a proper suffix; and a skipped call's result touched nothing. */
  lemma SkippingIsASuffix(messages: seq<Message>, acts: seq<Action>, i: nat, j: nat)
    requires var b := Run(messages, acts).run.batch; i <= j < |b.ran|
    ensures var b := Run(messages, acts).run.batch;
            && b.ran[0]
            && |b.userWaiting| == |b.ran| && (b.ran[j] <==> Undisturbed(b, j))
            && (b.ran[j] ==> b.ran[i])
            && (j < |b.results| && !b.ran[j] ==> Untouched(b.results[j]))
  {
    RunKeepsBatch(messages, acts);
    var b := Run(messages, acts).run.batch;
    assert Undisturbed(b, 0);
    assert b.ran[i] <==> Undisturbed(b, i);
  }

  /** Host evidence in the queue never counts as waiting input. */
  lemma HostEventsSkipNothing(s: State)
    requires forall e :: e in s.q.queued ==> e.message.hostEvent
    requires BatchInv(s.run.batch) && !Executing(s.run.batch) && |s.run.batch.results| < |s.run.batch.calls|
    ensures var b, c := s.run.batch, DoStartCall(s).run.batch;
            Last(c.ran) == (b.ran == [] || Last(b.ran))
  {
    assert !Queue.HasUser(s.q.queued);
  }

  // ------------------------------------------------------------ retries restore

  /** `now` is `before` with user messages after it. */
  ghost predicate OnlyUsersAdded(before: seq<Message>, now: seq<Message>) {
    && before <= now
    && forall i :: |before| <= i < |now| ==> now[i].role == User
  }

  ghost predicate Restored(s: State) {
    match s.run.pc
    case Judging(o) => s.mem.messages == s.run.snapshot + if Kept(o) then [Reply(o.content)] else []
    case Retrying(_) => s.mem.messages == s.run.snapshot
    case Sleeping(_) => s.mem.messages == s.run.snapshot
    case Woken => s.mem.messages == s.run.snapshot
    case Delivering(true) => OnlyUsersAdded(s.run.snapshot, s.mem.messages) && s.run.attempts > 0
    case Calling => s.run.attempts > 0 ==> OnlyUsersAdded(s.run.snapshot, s.mem.messages)
    case _ => true
  }

  lemma FailRestores(s: State, e: Error, o: Outcome)
    requires s.run.pc == Judging(o) && Restored(s) && s.run.attempts > 0
    ensures Restored(Fail(s, e)) && Fail(s, e).run.attempts == s.run.attempts
  {
    if Kept(o) {
      assert Init(s.mem.messages) == s.run.snapshot;
    }
  }

  ghost predicate RestoreInv(s: State) {
    && Restored(s)
    && (s.run.pc.Judging? || s.run.pc.Retrying? || s.run.pc.Sleeping? || s.run.pc.Woken? ==> s.run.attempts > 0)
  }

  lemma JudgeRestores(s: State, o: Outcome)
    requires s.run.pc == Judging(o) && RestoreInv(s)
    ensures RestoreInv(DoJudge(s, o))
  {
    var t := Emit(s, TurnEnd(o.stop, o.err));
    if o.err.Some? {
      FailRestores(if o.err.value == Cancelled then t else Emit(t, RequestFailed(s.run.attempts, s.run.maxAttempts)), o.err.value, o);
    } else {
      SucceedLeaves(t, o);
    }
  }

  /** Program points that say nothing about the snapshot. */
  predicate Free(pc: Pc) {
    !pc.Judging? && !pc.Retrying? && !pc.Sleeping? && !pc.Woken? && !pc.Calling? && pc != Delivering(true)
  }

  lemma SucceedLeaves(s: State, o: Outcome)
    ensures Free(Succeed(s, o).run.pc)
  {
  }

  lemma DeliverRestores(s: State, a: Action)
    requires s.run.pc == Delivering(true) && RestoreInv(s)
    ensures RestoreInv(Advance(s, a))
  {
  }

  lemma RunningIsFree(s: State, a: Action)
    requires s.run.pc.Running?
    ensures Free(Advance(s, a).run.pc)
  {
  }

  lemma ObservingIsFree(s: State, a: Action)
    requires s.run.pc.Sent? || s.run.pc.Observing?
    ensures Free(Advance(s, a).run.pc)
  {
  }

  lemma WeighIsFree(s: State, v: Verdict)
    requires Free(s.run.pc)
    ensures Free(DoWeigh(s, v).run.pc)
  {
  }

  lemma DecidingIsFree(s: State, a: Action)
    requires Deciding(s.run.pc) && !s.run.pc.Observing?
    ensures Free(Advance(s, a).run.pc)
  {
    if !s.run.pc.Recovering? && (a.Observe? || a.EndTurn?) {
      WeighIsFree(s, a.verdict);
    }
  }

  lemma OthersAreFree(s: State, a: Action)
    requires Free(s.run.pc) && !s.run.pc.Composing?
    ensures Free(Advance(s, a).run.pc)
  {
    if s.run.pc.Running? {
      RunningIsFree(s, a);
    } else if s.run.pc.Sent? || s.run.pc.Observing? {
      ObservingIsFree(s, a);
    } else if Deciding(s.run.pc) {
      DecidingIsFree(s, a);
    }
  }

  lemma AdvanceRestores(s: State, a: Action)
    requires RestoreInv(s)
    ensures RestoreInv(Advance(s, a))
  {
    if Free(s.run.pc) && !s.run.pc.Composing? {
      OthersAreFree(s, a);
    } else if s.run.pc.Judging? {
      JudgeRestores(s, s.run.pc.outcome);
    } else if s.run.pc.Delivering? {
      DeliverRestores(s, a);
    }
  }

  lemma StepRestores(s: State, a: Action)
    requires RestoreInv(s)
    ensures RestoreInv(Step(s, a))
  {
    if ByLoop(a) {
      AdvanceRestores(s, a);
    }
  }

  lemma {:induction false} RunRestores(messages: seq<Message>, acts: seq<Action>)
    ensures RestoreInv(Run(messages, acts))
  {
    if acts != [] {
      RunRestores(messages, Init(acts));
      StepRestores(Run(messages, Init(acts)), Last(acts));
    }
  }

  /** A failed attempt that is retried leaves the transcript exactly as it found it;
      when the next attempt starts, queued user messages may have been added. */
  lemma RetriesRestore(messages: seq<Message>, acts: seq<Action>)
    ensures var s := Run(messages, acts);
            && (s.run.pc.Retrying? || s.run.pc.Sleeping? ==> s.mem.messages == s.run.snapshot)
            && (s.run.pc.Calling? && s.run.attempts > 0 ==> OnlyUsersAdded(s.run.snapshot, s.mem.messages))
  {
    RunRestores(messages, acts);
  }
}
