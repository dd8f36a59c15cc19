/** Tool calls and their results: within a run, every call of a successful reply is
    answered by the very next message, unless the provider stopped with calls for
    another reason than tool use. */
module EnginePairs {
  import opened Transcript
  import opened Engine
  import Memory
  import Queue

  // ------------------------------------------------------------ what is promised

  predicate HasCalls(m: Message) {
    CallIDs(m.content) != []
  }

  /** The next message carries one result per call, in call order. */
  predicate Answered(ms: seq<Message>, i: nat)
    requires i < |ms|
  {
    HasCalls(ms[i]) ==>
      i + 1 < |ms| && ms[i + 1].role == Tool && ResultIDs(ms[i + 1].content) == CallIDs(ms[i].content)
  }

  ghost predicate AllAnswered(ms: seq<Message>) {
    forall i :: 0 <= i < |ms| ==> Answered(ms, i)
  }

  /** A tool message answers exactly the calls of the message before it. */
  predicate Wanted(ms: seq<Message>, i: nat)
    requires i < |ms|
  {
    ms[i].role == Tool && ResultIDs(ms[i].content) != [] ==>
      i > 0 && ResultIDs(ms[i].content) == CallIDs(ms[i - 1].content)
  }

  ghost predicate NoOrphans(ms: seq<Message>) {
    forall i :: 0 <= i < |ms| ==> Wanted(ms, i)
  }

  ghost predicate Settled(ms: seq<Message>, loose: nat) {
    && (AllAnswered(ms) <==> loose == 0)
    && NoOrphans(ms)
  }

  // -------------------------------------------------------- growing a transcript

  /** A message with neither calls nor results changes nothing about pairing. */
  lemma SettledSnoc(ms: seq<Message>, loose: nat, m: Message)
    requires Settled(ms, loose) && m.role != Tool && !HasCalls(m)
    ensures Settled(ms + [m], loose)
  {
    var longer := ms + [m];
    forall i | 0 <= i < |longer| ensures Wanted(longer, i) {
      if i < |ms| {
        assert Wanted(ms, i);
      }
    }
    if loose == 0 {
      forall i | 0 <= i < |longer| ensures Answered(longer, i) {
        if i < |ms| {
          assert Answered(ms, i);
        }
      }
    } else {
      var i :| 0 <= i < |ms| && !Answered(ms, i);
      assert !Answered(longer, i);
    }
  }

  /** A reply whose calls nobody will run stays unanswered. */
  lemma SettledLoose(ms: seq<Message>, loose: nat, reply: Message)
    requires Settled(ms, loose) && reply.role != Tool && HasCalls(reply)
    ensures Settled(ms + [reply], loose + 1)
  {
    var longer := ms + [reply];
    forall i | 0 <= i < |longer| ensures Wanted(longer, i) {
      if i < |ms| {
        assert Wanted(ms, i);
      }
    }
    assert !Answered(longer, |ms|);
  }

  /** A reply and the results of exactly its calls. */
  lemma SettledBatch(ms: seq<Message>, loose: nat, reply: Message, results: Message)
    requires Settled(ms, loose) && reply.role != Tool && results.role == Tool
    requires ResultIDs(results.content) == CallIDs(reply.content) && !HasCalls(results)
    ensures Settled(ms + [reply, results], loose)
  {
    var longer := ms + [reply, results];
    forall i | 0 <= i < |longer| ensures Wanted(longer, i) {
      if i < |ms| {
        assert Wanted(ms, i);
      }
    }
    if loose == 0 {
      forall i | 0 <= i < |longer| ensures Answered(longer, i) {
        if i < |ms| {
          assert Answered(ms, i);
        }
      }
    } else {
      var i :| 0 <= i < |ms| && !Answered(ms, i);
      assert !Answered(longer, i);
    }
  }

  /** An empty tool message, after a reply that asked for nothing. */
  lemma SettledEmpty(ms: seq<Message>, loose: nat, results: Message)
    requires Settled(ms, loose) && results.role == Tool && results.content == []
    ensures Settled(ms + [results], loose)
  {
    var longer := ms + [results];
    forall i | 0 <= i < |longer| ensures Wanted(longer, i) {
      if i < |ms| {
        assert Wanted(ms, i);
      }
    }
    if loose == 0 {
      forall i | 0 <= i < |longer| ensures Answered(longer, i) {
        if i < |ms| {
          assert Answered(ms, i);
        }
      }
    } else {
      var i :| 0 <= i < |ms| && !Answered(ms, i);
      assert !Answered(longer, i);
    }
  }

  // ------------------------------------------------------------------- contents

  lemma NoCalls(content: seq<Content>)
    requires forall c :: c in content ==> !c.ToolCall?
    ensures CallIDs(content) == []
  {
  }

  lemma {:induction false} ToolCallsIDs(content: seq<Content>)
    ensures CallIDs(ToolCalls(content)) == CallIDs(content)
    ensures |CallIDs(content)| == |ToolCalls(content)|
  {
    if content != [] {
      ToolCallsIDs(content[1..]);
      CallIDsConcat(if content[0].ToolCall? then [content[0]] else [], ToolCalls(content[1..]));
    }
  }

  /** The first results answer the first calls, one each. */
  ghost predicate Matching(calls: seq<Content>, results: seq<Content>) {
    && |results| <= |calls|
    && forall k :: 0 <= k < |results| ==>
         calls[k].ToolCall? && results[k].ToolResult? && results[k].callID == calls[k].id
  }

  lemma {:induction false} MatchingIDs(calls: seq<Content>, results: seq<Content>)
    requires Matching(calls, results) && |results| == |calls|
    ensures ResultIDs(results) == CallIDs(calls)
  {
    if calls != [] {
      assert calls[0].ToolCall? && results[0].ToolResult?;
      MatchingIDs(calls[1..], results[1..]);
    }
  }

  // ---------------------------------------------------------------- the invariant

  /** The messages of the current run. */
  function Tail(s: State): seq<Message>
    requires s.run.base <= |s.mem.messages|
  {
    s.mem.messages[s.run.base..]
  }

  /** The reply still being dealt with, if the program point has one. */
  function OpenReply(r: RunState): seq<Message> {
    match r.pc
    case Judging(o) => if Kept(o) then [Reply(o.content)] else []
    case Running(content) => if content != [] then [Reply(content)] else []
    case _ => []
  }

  /** `settled` is the run's messages without the open reply. */
  ghost predicate Divided(s: State, settled: seq<Message>) {
    && s.run.base <= |s.mem.messages|
    && Tail(s) == settled + OpenReply(s.run)
    && Settled(settled, s.run.loose)
    && (s.run.pc.Judging? ==> |s.run.snapshot| == s.run.base + |settled|)
    && (s.run.pc.Running? ==> s.run.batch.calls == ToolCalls(s.run.pc.reply) && Matching(s.run.batch.calls, s.run.batch.results))
  }

  ghost predicate PairInv(s: State) {
    Active(s.run.pc) ==> exists settled :: Divided(s, settled)
  }

  /** Pairing only looks at the run's tail and a few of its variables. */
  lemma SameDivision(s: State, t: State, settled: seq<Message>)
    requires Divided(s, settled) && OpenReply(s.run) == [] && !s.run.pc.Running?
    requires t.mem.messages == s.mem.messages && t.run.base == s.run.base && t.run.loose == s.run.loose
    requires OpenReply(t.run) == [] && !t.run.pc.Running? && !t.run.pc.Judging?
    ensures Divided(t, settled)
  {
  }

  lemma SaidDivision(s: State, t: State, settled: seq<Message>, m: Message)
    requires Divided(s, settled) && OpenReply(s.run) == [] && !s.run.pc.Running?
    requires m.role != Tool && !HasCalls(m)
    requires t.mem.messages == s.mem.messages + [m] && t.run.base == s.run.base && t.run.loose == s.run.loose
    requires OpenReply(t.run) == [] && !t.run.pc.Running? && !t.run.pc.Judging?
    ensures Divided(t, settled + [m])
  {
    SettledSnoc(settled, s.run.loose, m);
    assert Tail(t) == Tail(s) + [m];
  }

  // ------------------------------------------------------------------- the steps

  /** The first context goes in front of everything and moves the run's base with it. */
  lemma InsertedInFront(s: State, t: State, settled: seq<Message>, context: Message)
    requires s.run.pc == Composing && t.run.pc == Calling && Divided(s, settled)
    requires t.mem.messages == [context] + s.mem.messages && t.run.base == s.run.base + 1 && t.run.loose == s.run.loose
    ensures Divided(t, settled)
  {
    assert Tail(t) == Tail(s);
  }

  lemma ComposeFrame(s: State, text: Bytes)
    ensures var t := DoCompose(s, text);
            && t.run.pc == Calling && t.run.loose == s.run.loose
            && if t.mem.messages == s.mem.messages || Memory.HasContext(s.mem.messages)
               then t.run.base == s.run.base
                    && t.mem.messages in {s.mem.messages, s.mem.messages + [Memory.ContextMessage(text)]}
               else t.run.base == s.run.base + 1 && t.mem.messages == [Memory.ContextMessage(text)] + s.mem.messages
  {
  }

  lemma ComposePairs(s: State, text: Bytes, settled: seq<Message>)
    requires s.run.pc == Composing && Divided(s, settled)
    ensures PairInv(DoCompose(s, text))
  {
    var t := DoCompose(s, text);
    var context := Memory.ContextMessage(text);
    NoCalls(context.content);
    ComposeFrame(s, text);
    if t.mem.messages == s.mem.messages {
      SameDivision(s, t, settled);
    } else if Memory.HasContext(s.mem.messages) {
      SaidDivision(s, t, settled, context);
    } else {
      InsertedInFront(s, t, settled, context);
    }
  }

  lemma CallPairs(s: State, o: Outcome, settled: seq<Message>)
    requires s.run.pc == Calling && Divided(s, settled)
    ensures Divided(DoCall(s, o), settled)
  {
    if Kept(o) {
      assert Tail(DoCall(s, o)) == Tail(s) + [Reply(o.content)];
    }
  }

  /** A failed attempt either ends the run or leaves its reply out of the transcript. */
  lemma FailFrame(s: State, e: Error)
    ensures var t := Fail(s, e);
            && t.run.base == s.run.base && t.run.loose == s.run.loose
            && (t.run.pc.Returned?
                || (t.run.pc.Retrying? && t.mem == Memory.DropReply(s.mem, |s.run.snapshot|)))
  {
  }

  lemma DroppedReply(m: Memory.Mem, before: seq<Message>, reply: seq<Message>)
    requires m.messages == before + reply && |reply| <= 1 && (reply != [] ==> reply[0].role == Assistant)
    ensures Memory.DropReply(m, |before|).messages == before
  {
    if reply == [] {
      assert m.messages == before;
    } else {
      assert Last(m.messages) == reply[0];
      assert Init(m.messages) == before;
    }
  }

  lemma FailPairs(s: State, e: Error, settled: seq<Message>)
    requires s.run.pc.Judging? && Divided(s, settled)
    ensures PairInv(Fail(s, e))
  {
    var t := Fail(s, e);
    FailFrame(s, e);
    if !t.run.pc.Returned? {
      var before := s.mem.messages[..s.run.base] + settled;
      assert s.mem.messages == before + OpenReply(s.run);
      DroppedReply(s.mem, before, OpenReply(s.run));
      assert Tail(t) == settled;
      assert Divided(t, settled);
    }
  }

  lemma RunningPairs(s: State, o: Outcome, settled: seq<Message>)
    requires s.run.pc == Judging(o) && Divided(s, settled) && o.stop == StopToolUse
    ensures Divided(Succeed(s, o), settled)
  {
  }

  /** The reply joins the settled messages, unanswered if it carries calls. */
  lemma LoosePairs(s: State, o: Outcome, settled: seq<Message>) returns (now: seq<Message>)
    requires s.run.pc == Judging(o) && Divided(s, settled)
    ensures now == settled + OpenReply(s.run) && Settled(now, Loosen(s, o).run.loose)
  {
    ToolCallsIDs(o.content);
    now := settled + OpenReply(s.run);
    if !Kept(o) {
      assert now == settled;
    } else if ToolCalls(o.content) == [] {
      SettledSnoc(settled, s.run.loose, Reply(o.content));
    } else {
      SettledLoose(settled, s.run.loose, Reply(o.content));
    }
  }

  lemma SucceedPairs(s: State, o: Outcome, settled: seq<Message>)
    requires s.run.pc == Judging(o) && Divided(s, settled)
    ensures PairInv(Succeed(s, o))
  {
    if o.stop == StopToolUse {
      RunningPairs(s, o, settled);
    } else {
      var now := LoosePairs(s, o, settled);
      assert Divided(Succeed(s, o), now);
    }
  }

  lemma JudgePairs(s: State, o: Outcome, settled: seq<Message>)
    requires s.run.pc == Judging(o) && Divided(s, settled)
    ensures PairInv(DoJudge(s, o))
  {
    var t := Emit(s, TurnEnd(o.stop, o.err));
    assert Divided(t, settled);
    match o.err {
      case None => SucceedPairs(t, o, settled);
      case Some(e) =>
        var u := if e == Cancelled then t else Emit(t, RequestFailed(s.run.attempts, s.run.maxAttempts));
        assert Divided(u, settled);
        FailPairs(u, e, settled);
    }
  }

  /** Steps inside a batch touch the transcript nowhere. */
  lemma BatchFrame(s: State, t: State, settled: seq<Message>)
    requires s.run.pc.Running? && Divided(s, settled)
    requires t.mem == s.mem && t.run.pc == s.run.pc && t.run.base == s.run.base && t.run.loose == s.run.loose
    requires t.run.batch.calls == s.run.batch.calls && Matching(t.run.batch.calls, t.run.batch.results)
    ensures Divided(t, settled)
  {
  }

  lemma StartCallPairs(s: State, settled: seq<Message>)
    requires s.run.pc.Running? && Divided(s, settled)
    ensures Divided(DoStartCall(s), settled)
  {
    BatchFrame(s, DoStartCall(s), settled);
  }

  lemma MatchingSnoc(calls: seq<Content>, results: seq<Content>, r: Content)
    requires Matching(calls, results) && |results| < |calls|
    requires calls[|results|].ToolCall? && r.ToolResult? && r.callID == calls[|results|].id
    ensures Matching(calls, results + [r])
  {
  }

  lemma FinishCallFrame(s: State, out: ToolOutcome, rejected: Option<Bytes>)
    ensures var t := DoFinishCall(s, out, rejected);
            && t.mem == s.mem && t.run.pc == s.run.pc && t.run.base == s.run.base && t.run.loose == s.run.loose
            && t.run.batch == (if Finishable(s.run.batch) then WithResult(s.run.batch, s.run.cfg.texts.skip, out, rejected)
                               else s.run.batch)
  {
  }

  lemma FinishCallPairs(s: State, out: ToolOutcome, rejected: Option<Bytes>, settled: seq<Message>)
    requires s.run.pc.Running? && Divided(s, settled)
    ensures Divided(DoFinishCall(s, out, rejected), settled)
  {
    var b := s.run.batch;
    var t := DoFinishCall(s, out, rejected);
    FinishCallFrame(s, out, rejected);
    if Finishable(b) {
      MatchingSnoc(b.calls, b.results, Last(t.run.batch.results));
    }
    BatchFrame(s, t, settled);
  }

  lemma MirrorPartsShown(inner: seq<Content>)
    ensures forall c :: c in MirrorParts(inner) ==> Shown(c)
  {
  }

  lemma MirrorShown(results: seq<Content>)
    ensures forall c :: c in MirrorContent(results) ==> Shown(c)
  {
    if results != [] {
      if results[0].ToolResult? {
        MirrorPartsShown(results[0].content);
      }
      MirrorShown(results[1..]);
    }
  }

  lemma MirrorPairs(s: State, t: State, settled: seq<Message>)
    requires s.run.pc == Sent && Divided(s, settled)
    requires t.run.pc == Sent && t.run.base == s.run.base && t.run.loose == s.run.loose
    requires t.mem.messages == s.mem.messages + [Message(User, [Text(s.run.cfg.texts.mirror)] + MirrorContent(s.run.batch.results), [], false)]
    ensures PairInv(t)
  {
    var m := Last(t.mem.messages);
    MirrorShown(s.run.batch.results);
    NoCalls(m.content);
    SaidDivision(s, t, settled, m);
  }

  /** Once every call has its result, the tool message settles the open reply. */
  lemma BatchPairs(s: State, settled: seq<Message>) returns (now: seq<Message>)
    requires s.run.pc.Running? && Divided(s, settled) && |s.run.batch.results| == |s.run.batch.calls|
    ensures Divided(At(Say(s, ToolMessage(s.run.batch)), Sent), now)
  {
    var b := s.run.batch;
    var results := ToolMessage(b);
    var t := At(Say(s, results), Sent);
    ToolCallsIDs(s.run.pc.reply);
    MatchingIDs(b.calls, b.results);
    NoCalls(b.results);
    assert Tail(t) == Tail(s) + [results];
    if s.run.pc.reply == [] {
      now := settled + [results];
      SettledEmpty(settled, s.run.loose, results);
    } else {
      var reply := Reply(s.run.pc.reply);
      now := settled + [reply, results];
      SettledBatch(settled, s.run.loose, reply, results);
      assert Tail(t) == now;
    }
  }

  lemma BatchDonePairs(s: State, settled: seq<Message>)
    requires s.run.pc.Running? && Divided(s, settled)
    ensures PairInv(DoBatchDone(s))
  {
    var b := s.run.batch;
    if !Executing(b) && |b.results| == |b.calls| {
      var now := BatchPairs(s, settled);
      var t := At(Say(s, ToolMessage(b)), Sent);
      assert Divided(t, now);
      if DoBatchDone(s) != t {
        MirrorPairs(t, DoBatchDone(s), now);
      }
    } else {
      assert Divided(s, settled);
    }
  }

  lemma DeliverPairs(s: State, settled: seq<Message>)
    requires s.run.pc.Delivering? && Divided(s, settled)
    ensures PairInv(DoDeliver(s))
  {
    if s.q.inflight == [] {
      assert Divided(s, settled);
    } else {
      var m := Queue.UserMessage(s.q.inflight[0]);
      NoCalls(m.content);
      SaidDivision(s, DoDeliver(s), settled, m);
    }
  }

  lemma VerdictPairs(s: State, v: Verdict, settled: seq<Message>) returns (now: seq<Message>)
    requires (s.run.pc.Weighing? || s.run.pc.Observing? || s.run.pc.Closing?) && Divided(s, settled)
    ensures v != Halted ==> Divided(DoVerdict(s, v), now) && Divided(NextStep(DoVerdict(s, v)), now)
    ensures v == Halted ==> !Active(DoVerdict(s, v).run.pc)
  {
    now := settled;
    if v.Warned? {
      var m := UserText(v.prompt);
      NoCalls(m.content);
      now := settled + [m];
      SaidDivision(s, DoVerdict(s, v), settled, m);
    }
  }

  lemma WeighPairs(s: State, v: Verdict, settled: seq<Message>)
    requires (s.run.pc.Weighing? || s.run.pc.Closing?) && Divided(s, settled)
    ensures PairInv(DoWeigh(s, v))
  {
    var now := VerdictPairs(s, v, settled);
  }

  lemma EndTurnPairs(s: State, stop: Stop, v: Verdict, incomplete: bool, settled: seq<Message>)
    requires s.run.pc == Closing(stop) && Divided(s, settled)
    ensures PairInv(DoEndTurn(s, stop, v, incomplete))
  {
    WeighPairs(s, v, settled);
    assert Divided(At(s, Recovering), settled);
  }

  lemma RecoverPairs(s: State, settled: seq<Message>)
    requires s.run.pc == Recovering && Divided(s, settled)
    ensures PairInv(DoLook(s))
  {
    var m := UserText(s.run.cfg.texts.recovery);
    NoCalls(m.content);
    var t := Emit(s.(run := s.run.(recovered := true)), TurnRecovery);
    SaidDivision(s, NextStep(Say(t, m)), settled, m);
  }

  /** Reading the context or the queue says nothing. */
  lemma LookPairs(s: State, settled: seq<Message>)
    requires s.run.pc.Continuing? || s.run.pc.Ending?
    requires Divided(s, settled)
    ensures PairInv(DoLook(s))
  {
    var t := DoLook(s);
    if Active(t.run.pc) {
      SameDivision(s, t, settled);
    }
  }

  lemma CountPairs(s: State, settled: seq<Message>)
    requires s.run.pc.Counting? || s.run.pc.EndCounting?
    requires Divided(s, settled)
    ensures PairInv(DoCount(s))
  {
    SameDivision(s, DoCount(s), settled);
  }

  lemma ReadingPairs(s: State, a: Action, settled: seq<Message>)
    requires s.run.pc.Continuing? || s.run.pc.Ending? || s.run.pc.Counting? || s.run.pc.EndCounting?
    requires Divided(s, settled)
    ensures PairInv(Advance(s, a))
  {
    if s.run.pc.Continuing? || s.run.pc.Ending? {
      LookPairs(s, settled);
    } else {
      CountPairs(s, settled);
    }
  }

  /** The program points that neither say anything nor hold an open reply. */
  lemma QuietPairs(s: State, a: Action, settled: seq<Message>)
    requires s.run.pc.Top? || s.run.pc.Hooks? || s.run.pc.Retrying? || s.run.pc.Sleeping? || s.run.pc.Woken? || s.run.pc.Sent?
    requires Divided(s, settled)
    ensures PairInv(Advance(s, a))
  {
    var t := Advance(s, a);
    if Active(t.run.pc) {
      SameDivision(s, t, settled);
    }
  }

  lemma DeliveringPairs(s: State, a: Action, settled: seq<Message>)
    requires s.run.pc.Delivering? && Divided(s, settled)
    ensures PairInv(Advance(s, a))
  {
    DeliverPairs(s, settled);
    var t := Advance(s, a);
    if Active(t.run.pc) && a != Deliver {
      SameDivision(s, t, settled);
    }
  }

  lemma TalkPairs(s: State, a: Action, settled: seq<Message>)
    requires s.run.pc.Composing? || s.run.pc.Calling? || s.run.pc.Judging? || s.run.pc.Weighing? || s.run.pc.Closing?
             || s.run.pc.Recovering?
    requires Divided(s, settled)
    ensures PairInv(Advance(s, a))
  {
    match s.run.pc {
      case Composing => if a.Compose? { ComposePairs(s, a.text, settled); }
      case Calling => if a.Call? { CallPairs(s, a.outcome, settled); }
      case Judging(o) => if a == Judge { JudgePairs(s, o, settled); }
      case Weighing => if a.Observe? { WeighPairs(s, a.verdict, settled); }
      case Recovering => if a == Look { RecoverPairs(s, settled); }
      case Closing(stop) => if a.EndTurn? { EndTurnPairs(s, stop, a.verdict, a.incomplete, settled); }
      case _ =>
    }
  }

  lemma RunningStepPairs(s: State, a: Action, settled: seq<Message>)
    requires s.run.pc.Running? && Divided(s, settled)
    ensures PairInv(Advance(s, a))
  {
    if a.FinishCall? {
      FinishCallPairs(s, a.out, a.rejected, settled);
    } else if a == StartCall {
      StartCallPairs(s, settled);
    } else if a == BatchDone {
      BatchDonePairs(s, settled);
    }
  }

  lemma ObservingPairs(s: State, a: Action, settled: seq<Message>)
    requires s.run.pc.Observing? && Divided(s, settled)
    ensures PairInv(Advance(s, a))
  {
    if a.Observe? {
      var now := VerdictPairs(s, a.verdict, settled);
    } else {
      assert Divided(NextStep(s), settled);
    }
  }

  lemma AdvancePairs(s: State, a: Action)
    requires PairInv(s)
    ensures PairInv(Advance(s, a))
  {
    if Active(s.run.pc) {
      var settled :| Divided(s, settled);
      if s.run.pc.Running? {
        RunningStepPairs(s, a, settled);
      } else if s.run.pc.Observing? {
        ObservingPairs(s, a, settled);
      } else if s.run.pc.Delivering? {
        DeliveringPairs(s, a, settled);
      } else if s.run.pc.Top? || s.run.pc.Hooks? || s.run.pc.Retrying? || s.run.pc.Sleeping? || s.run.pc.Woken? || s.run.pc.Sent? {
        QuietPairs(s, a, settled);
      } else if s.run.pc.Continuing? || s.run.pc.Ending? || s.run.pc.Counting? || s.run.pc.EndCounting? {
        ReadingPairs(s, a, settled);
      } else {
        TalkPairs(s, a, settled);
      }
    }
  }

  lemma BeginPairs(s: State, prompt: Option<Prompt>, cfg: Config)
    requires PairInv(s)
    ensures PairInv(DoBegin(s, prompt, cfg))
  {
    var t := DoBegin(s, prompt, cfg);
    if prompt == None {
      assert Tail(t) == [];
      assert Divided(t, []);
    } else if prompt.value != Prompt([], []) {
      var m := Message(User, Queue.Blocks(prompt.value.text, prompt.value.images), [], false);
      NoCalls(m.content);
      SettledSnoc([], 0, m);
      assert Tail(t) == [] + [m];
      assert Divided(t, [m]);
    }
  }

  lemma StepPairs(s: State, a: Action)
    requires PairInv(s)
    ensures PairInv(Step(s, a))
  {
    if a.Accept? || a.Pop? || a.PopUser? || a.TakeAll? || a.Cancel? || a.Flush? {
      if Active(s.run.pc) {
        var settled :| Divided(s, settled);
        assert Divided(Step(s, a), settled);
      }
    } else if a.Begin? {
      BeginPairs(s, a.prompt, a.cfg);
    } else if !a.CompactTo? {
      AdvancePairs(s, a);
    }
  }

  lemma {:induction false} RunPairs(messages: seq<Message>, acts: seq<Action>)
    ensures PairInv(Run(messages, acts))
  {
    if acts != [] {
      RunPairs(messages, Init(acts));
      StepPairs(Run(messages, Init(acts)), Last(acts));
    }
  }

  /** At every model call, the messages this run added pair up: each tool message
      answers exactly the calls before it, and every call is answered by the next
      message, in call order, if and only if no successful reply carried calls
      under another stop reason than tool use. */
  lemma ToolPairing(messages: seq<Message>, acts: seq<Action>)
    requires Run(messages, acts).run.pc == Calling
    ensures var s := Run(messages, acts);
            && s.run.base <= |s.mem.messages|
            && (AllAnswered(Tail(s)) <==> s.run.loose == 0)
            && NoOrphans(Tail(s))
  {
    RunPairs(messages, acts);
    var s := Run(messages, acts);
    var settled :| Divided(s, settled);
    assert Tail(s) == settled;
  }
}
