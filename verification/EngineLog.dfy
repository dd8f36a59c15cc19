/** What every run of the engine keeps about its two ledgers: the persisted log
    against the transcript, and the queue of late user messages against both. */
module EngineLog {
  import opened Transcript
  import opened Engine
  import Memory
  import Queue

  // -------------------------------------------------------- log and transcript

  /** Changes that only add messages at the end. */
  predicate Appends(c: Memory.Change) {
    c.Nothing? || c.Says? || c.SaysBoth?
  }

  /** What a judged reply does to the ledger. */
  lemma JudgeMem(s: State, o: Outcome) returns (c: Memory.Change)
    ensures DoJudge(s, o).mem == Memory.Apply(s.mem, c)
  {
    c := if o.err.Some? && CanRetry(s.run, o.err.value) && !s.cancelled then Memory.Drops(|s.run.snapshot|) else Memory.Nothing;
  }

  lemma VerdictMem(s: State, v: Verdict) returns (c: Memory.Change)
    ensures DoVerdict(s, v).mem == Memory.Apply(s.mem, c)
    ensures Appends(c)
  {
    c := if v.Warned? then Memory.Says(UserText(v.prompt)) else Memory.Nothing;
  }

  lemma WeighMem(s: State, v: Verdict) returns (c: Memory.Change)
    ensures DoWeigh(s, v).mem == Memory.Apply(s.mem, c)
    ensures Appends(c)
  {
    c := VerdictMem(s, v);
  }

  lemma BatchMem(s: State) returns (c: Memory.Change)
    ensures DoBatchDone(s).mem == Memory.Apply(s.mem, c)
    ensures Appends(c)
  {
    var b := s.run.batch;
    var mirror := MirrorContent(b.results);
    if Executing(b) || |b.results| < |b.calls| {
      c := Memory.Nothing;
    } else if s.run.cfg.mirrorsImages && mirror != [] {
      c := Memory.SaysBoth(ToolMessage(b), Message(User, [Text(s.run.cfg.texts.mirror)] + mirror, [], false));
    } else {
      c := Memory.Says(ToolMessage(b));
    }
  }

  lemma RunningMem(s: State, a: Action) returns (c: Memory.Change)
    requires s.run.pc.Running?
    ensures Advance(s, a).mem == Memory.Apply(s.mem, c)
    ensures Appends(c)
  {
    c := Memory.Nothing;
    if a == BatchDone {
      c := BatchMem(s);
    }
  }

  lemma ClosingMem(s: State, a: Action) returns (c: Memory.Change)
    requires s.run.pc.Closing?
    ensures Advance(s, a).mem == Memory.Apply(s.mem, c)
    ensures Appends(c)
  {
    c := Memory.Nothing;
    if a.EndTurn? && s.run.pc.stop == StopEnd && !s.run.denied && a.verdict != Quiet {
      c := WeighMem(s, a.verdict);
    }
  }

  predicate Talks(pc: Pc) {
    pc.Delivering? || pc.Composing? || pc.Calling? || pc.Judging? || pc.Weighing? || pc.Observing? || pc.Recovering?
  }

  lemma TalkMem(s: State, a: Action) returns (c: Memory.Change)
    requires Talks(s.run.pc)
    ensures Advance(s, a).mem == Memory.Apply(s.mem, c)
    ensures Appends(c) || (s.run.pc.Judging? && a == Judge) || (s.run.pc.Composing? && a.Compose?)
  {
    c := Memory.Nothing;
    match s.run.pc {
      case Delivering(_) =>
        if a == Deliver && s.q.inflight != [] {
          c := Memory.Says(Queue.UserMessage(s.q.inflight[0]));
        }
      case Composing =>
        if a.Compose? {
          c := Memory.Adds(a.text);
        }
      case Calling =>
        if a.Call? && Kept(a.outcome) {
          c := Memory.Says(Reply(a.outcome.content));
        }
      case Judging(o) =>
        if a == Judge {
          c := JudgeMem(s, o);
        }
      case Weighing =>
        if a.Observe? {
          c := WeighMem(s, a.verdict);
        }
      case Recovering =>
        if a == Look && !s.cancelled {
          c := Memory.Says(UserText(s.run.cfg.texts.recovery));
        }
      case Observing =>
        if a.Observe? {
          c := VerdictMem(s, a.verdict);
        }
      case _ =>
    }
  }

  /** The other program points leave the ledger alone. */
  lemma SilentMem(s: State, a: Action)
    requires !Talks(s.run.pc) && !s.run.pc.Running? && !s.run.pc.Closing?
    ensures Advance(s, a).mem == s.mem
  {
  }

  /** Every step of the loop changes the ledger in one of a few ways. */
  lemma AdvanceMem(s: State, a: Action) returns (c: Memory.Change)
    ensures Advance(s, a).mem == Memory.Apply(s.mem, c)
    ensures Appends(c) || (s.run.pc.Judging? && a == Judge) || (s.run.pc.Composing? && a.Compose?)
  {
    if Talks(s.run.pc) {
      c := TalkMem(s, a);
    } else if s.run.pc.Running? {
      c := RunningMem(s, a);
    } else if s.run.pc.Closing? {
      c := ClosingMem(s, a);
    } else {
      SilentMem(s, a);
      c := Memory.Nothing;
    }
  }

  lemma AdvanceKeepsLog(s: State, a: Action)
    requires Memory.Inv(s.mem)
    ensures Memory.Inv(Advance(s, a).mem) && Memory.Log(s.mem) <= Memory.Log(Advance(s, a).mem)
  {
    var c := AdvanceMem(s, a);
    Memory.ApplyKeeps(s.mem, c);
    Memory.ApplyGrows(s.mem, c);
  }

  /** Between runs: a prompt is appended, a compaction replaces the transcript. */
  lemma HostKeepsLog(s: State, a: Action)
    requires Memory.Inv(s.mem) && !ByLoop(a)
    ensures Memory.Inv(Step(s, a).mem) && Memory.Log(s.mem) <= Memory.Log(Step(s, a).mem)
  {
    Memory.FlushKeeps(s.mem);
    Memory.FlushLog(s.mem);
    if a.CompactTo? {
      Memory.ReplaceKeeps(s.mem, a.next);
    } else if a.Begin? && a.prompt.Some? {
      Memory.AppendKeeps(s.mem, Message(User, Queue.Blocks(a.prompt.value.text, a.prompt.value.images), [], false));
    }
  }

  lemma StepKeepsLog(s: State, a: Action)
    requires Memory.Inv(s.mem)
    ensures Memory.Inv(Step(s, a).mem) && Memory.Log(s.mem) <= Memory.Log(Step(s, a).mem)
  {
    if ByLoop(a) {
      AdvanceKeepsLog(s, a);
    } else {
      HostKeepsLog(s, a);
    }
  }

  lemma {:induction false} RunKeepsLog(messages: seq<Message>, acts: seq<Action>)
    ensures Memory.Inv(Run(messages, acts).mem)
  {
    if acts == [] {
      var rows := [Memory.Replaced(messages)];
      assert Memory.Log(Start(messages).mem) == rows;
      assert Memory.Replay(rows) == messages;
    } else {
      RunKeepsLog(messages, Init(acts));
      StepKeepsLog(Run(messages, Init(acts)), Last(acts));
    }
  }

  /** After any run, once every hook call has been made, the persisted log replays
      to the transcript exactly when no retry since the last replacement row had to
      drop a partial reply. */
  lemma LogAgreement(messages: seq<Message>, acts: seq<Action>)
    ensures var m := Run(messages, acts).mem;
            m.unsent == [] ==> (Memory.Replay(m.rows) == m.messages <==> m.drops == 0)
  {
    RunKeepsLog(messages, acts);
    var m := Run(messages, acts).mem;
    if m.unsent == [] {
      Memory.LogReplaysIff(m);
    }
  }

  // -------------------------------------------------------- queue conservation

  ghost predicate Spotted(log: seq<Memory.Row>, e: Queue.Entry, spot: nat) {
    spot < |log| && log[spot] == Memory.Appended(Queue.UserMessage(e))
  }

  /** Delivered entries sit in the log, in delivery order. */
  ghost predicate InLog(log: seq<Memory.Row>, delivered: seq<Queue.Entry>, spots: seq<nat>) {
    && |spots| == |delivered|
    && (forall i, j :: 0 <= i < j < |spots| ==> spots[i] < spots[j])
    && (forall i :: 0 <= i < |spots| ==> Spotted(log, delivered[i], spots[i]))
  }

  ghost predicate QueueInv(s: State) {
    && Queue.Inv(s.q)
    && (s.q.inflight != [] ==> s.run.pc.Delivering?)
    && InLog(Memory.Log(s.mem), s.q.delivered, s.spots)
  }

  lemma JudgeQueue(s: State, a: Action)
    requires s.run.pc.Judging?
    ensures Advance(s, a).q == s.q && Advance(s, a).spots == s.spots
  {
  }

  lemma RunningQueue(s: State, a: Action)
    requires s.run.pc.Running?
    ensures Advance(s, a).q == s.q && Advance(s, a).spots == s.spots
  {
  }

  lemma DecidingQueue(s: State, a: Action)
    requires Deciding(s.run.pc)
    ensures Advance(s, a).q == s.q && Advance(s, a).spots == s.spots
  {
  }

  /** The loop delivers from its buffer at one place, and only there. */
  lemma DeliveringQueue(s: State, a: Action)
    requires s.run.pc.Delivering?
    ensures var t := Advance(s, a);
            && (t.q.inflight != [] ==> t.run.pc.Delivering?)
            && if a == Deliver && s.q.inflight != [] then t.q == Queue.Deliver(s.q) else t.q == s.q && t.spots == s.spots
  {
  }

  /** It empties the queue into the buffer at two places. */
  lemma DrainingQueue(s: State, a: Action)
    requires s.q.inflight == [] && (s.run.pc.Top? || s.run.pc.Woken?)
    ensures var t := Advance(s, a);
            && (t.q == s.q || (t.q == Queue.Drain(s.q) && t.run.pc.Delivering?))
            && t.spots == s.spots
  {
  }

  lemma QuietQueue(s: State, a: Action)
    requires s.run.pc.Hooks? || s.run.pc.Composing? || s.run.pc.Calling? || s.run.pc.Retrying? || s.run.pc.Sleeping?
             || s.run.pc.Sent?
    ensures Advance(s, a).q == s.q && Advance(s, a).spots == s.spots
  {
  }

  lemma ReadingQueue(s: State, a: Action)
    requires s.run.pc.Continuing? || s.run.pc.Counting? || s.run.pc.Ending? || s.run.pc.EndCounting? || s.run.pc.Idle?
             || s.run.pc.Returned?
    ensures Advance(s, a).q == s.q && Advance(s, a).spots == s.spots
  {
  }

  /** Nothing else touches the queue. */
  lemma AdvanceQueue(s: State, a: Action)
    requires s.q.inflight == []
    ensures var t := Advance(s, a);
            && (t.q == s.q || (t.q == Queue.Drain(s.q) && t.run.pc.Delivering?))
            && t.spots == s.spots
  {
    match s.run.pc {
      case Top => DrainingQueue(s, a);
      case Woken => DrainingQueue(s, a);
      case Delivering(_) => DeliveringQueue(s, a);
      case Judging(_) => JudgeQueue(s, a);
      case Running(_) => RunningQueue(s, a);
      case Weighing => DecidingQueue(s, a);
      case Observing => DecidingQueue(s, a);
      case Closing(_) => DecidingQueue(s, a);
      case Recovering => DecidingQueue(s, a);
      case Hooks => QuietQueue(s, a);
      case Composing => QuietQueue(s, a);
      case Calling => QuietQueue(s, a);
      case Retrying(_) => QuietQueue(s, a);
      case Sleeping(_) => QuietQueue(s, a);
      case Sent => QuietQueue(s, a);
      case _ => ReadingQueue(s, a);
    }
  }

  lemma AdvanceKeepsQueue(s: State, a: Action)
    requires Queue.Inv(s.q) && (s.q.inflight != [] ==> s.run.pc.Delivering?)
    ensures Queue.Inv(Advance(s, a).q)
    ensures Advance(s, a).q.inflight != [] ==> Advance(s, a).run.pc.Delivering?
  {
    if s.q.inflight == [] {
      Queue.DrainKeeps(s.q);
      AdvanceQueue(s, a);
    } else {
      Queue.DeliverKeeps(s.q);
      DeliveringQueue(s, a);
    }
  }

  lemma OthersKeepQueue(s: State, a: Action)
    requires Queue.Inv(s.q) && !ByLoop(a)
    ensures Queue.Inv(Step(s, a).q)
    ensures Step(s, a).q.inflight == s.q.inflight && (Step(s, a).run.pc == s.run.pc || !Active(s.run.pc))
  {
    if a.Accept? {
      Queue.AcceptKeeps(s.q, a.message);
    } else if a.Pop? && s.q.queued != [] {
      Queue.TakeKeeps(s.q, |s.q.queued| - 1);
    } else if a.PopUser? && Queue.NewestUser(s.q.queued) < |s.q.queued| {
      Queue.TakeKeeps(s.q, Queue.NewestUser(s.q.queued));
    } else if a.TakeAll? {
      Queue.TakeAllKeeps(s.q);
    }
  }

  lemma StepKeepsQueue(s: State, a: Action)
    requires Queue.Inv(s.q) && (s.q.inflight != [] ==> s.run.pc.Delivering?)
    ensures Queue.Inv(Step(s, a).q)
    ensures Step(s, a).q.inflight != [] ==> Step(s, a).run.pc.Delivering?
  {
    if ByLoop(a) {
      AdvanceKeepsQueue(s, a);
    } else {
      OthersKeepQueue(s, a);
    }
  }

  lemma InLogGrows(log: seq<Memory.Row>, longer: seq<Memory.Row>, delivered: seq<Queue.Entry>, spots: seq<nat>)
    requires InLog(log, delivered, spots) && log <= longer
    ensures InLog(longer, delivered, spots)
  {
    forall i | 0 <= i < |spots| ensures Spotted(longer, delivered[i], spots[i]) {
      assert Spotted(log, delivered[i], spots[i]);
    }
  }

  lemma InLogSnoc(log: seq<Memory.Row>, delivered: seq<Queue.Entry>, spots: seq<nat>, e: Queue.Entry)
    requires InLog(log, delivered, spots)
    ensures InLog(log + [Memory.Appended(Queue.UserMessage(e))], delivered + [e], spots + [|log|])
  {
    var longer := log + [Memory.Appended(Queue.UserMessage(e))];
    forall i | 0 <= i <= |spots|
      ensures Spotted(longer, (delivered + [e])[i], (spots + [|log|])[i])
      ensures i < |spots| ==> spots[i] < |log|
    {
      if i < |spots| {
        assert Spotted(log, delivered[i], spots[i]);
      }
    }
  }

  predicate Delivers(s: State, a: Action) {
    s.run.pc.Delivering? && a == Deliver && s.q.inflight != [] && s.mem.unsent == []
  }

  lemma StepKeepsSpots(s: State, a: Action)
    requires Memory.Inv(s.mem) && (s.q.inflight != [] ==> s.run.pc.Delivering?)
    requires InLog(Memory.Log(s.mem), s.q.delivered, s.spots)
    ensures var t := Step(s, a); InLog(Memory.Log(t.mem), t.q.delivered, t.spots)
  {
    var t := Step(s, a);
    if Delivers(s, a) {
      var e := s.q.inflight[0];
      InLogSnoc(Memory.Log(s.mem), s.q.delivered, s.spots, e);
      assert Memory.Log(t.mem) == Memory.Log(s.mem) + [Memory.Appended(Queue.UserMessage(e))];
    } else {
      StepKeepsLog(s, a);
      OnlyDeliverDelivers(s, a);
      InLogGrows(Memory.Log(s.mem), Memory.Log(t.mem), s.q.delivered, s.spots);
    }
  }

  lemma OnlyDeliverDelivers(s: State, a: Action)
    requires !Delivers(s, a) && (s.q.inflight != [] ==> s.run.pc.Delivering?)
    ensures Step(s, a).q.delivered == s.q.delivered && Step(s, a).spots == s.spots
  {
    if s.q.inflight == [] {
      AdvanceQueue(s, a);
    } else {
      DeliveringQueue(s, a);
    }
  }

  lemma {:induction false} RunKeepsQueue(messages: seq<Message>, acts: seq<Action>)
    ensures QueueInv(Run(messages, acts))
  {
    if acts != [] {
      RunKeepsQueue(messages, Init(acts));
      RunKeepsLog(messages, Init(acts));
      StepKeepsQueue(Run(messages, Init(acts)), Last(acts));
      StepKeepsSpots(Run(messages, Init(acts)), Last(acts));
    }
  }

  /** Where the acceptance with stamp `t` is. */
  datatype Place = Delivered | Pending | Taken

  ghost predicate IsAt(q: Queue.Q, t: nat, p: Place) {
    match p
    case Delivered => t in Queue.Stamps(q.delivered)
    case Pending => t in Queue.Stamps(q.inflight + q.queued)
    case Taken => t in q.taken
  }

  lemma OnePlace(q: Queue.Q, t: nat)
    requires Queue.Inv(q)
    ensures t < q.clock <==> exists p :: IsAt(q, t, p)
    ensures forall p, p' :: IsAt(q, t, p) && IsAt(q, t, p') ==> p == p'
  {
    var late := q.inflight + q.queued;
    assert Queue.Live(q) == q.delivered + late;
    Queue.StampsConcat(q.delivered, late);
    DisjointParts(q.delivered, late);
    assert IsAt(q, t, Delivered) || IsAt(q, t, Pending) || IsAt(q, t, Taken) <==> t < q.clock;
  }

  /** Whatever was queued, popped, drained or delivered in whatever order: every
      accepted message is in exactly one place, the ones not taken back stand in
      acceptance order, and none is in delivery outside the delivery loop. */
  lemma QueueConserved(messages: seq<Message>, acts: seq<Action>, t: nat)
    ensures var s := Run(messages, acts);
            && (t < s.q.clock <==> exists p :: IsAt(s.q, t, p))
            && (forall p, p' :: IsAt(s.q, t, p) && IsAt(s.q, t, p') ==> p == p')
            && Queue.Increasing(s.q.delivered + s.q.inflight + s.q.queued)
            && (s.q.inflight != [] ==> s.run.pc.Delivering?)
  {
    RunKeepsQueue(messages, acts);
    OnePlace(Run(messages, acts).q, t);
  }

  lemma DisjointParts(a: seq<Queue.Entry>, b: seq<Queue.Entry>)
    requires Queue.Increasing(a + b)
    ensures Queue.Stamps(a) !! Queue.Stamps(b)
  {
    forall t | t in Queue.Stamps(a) ensures t !in Queue.Stamps(b) {
      var i :| 0 <= i < |a| && a[i].accepted == t;
      forall j | 0 <= j < |b| ensures b[j].accepted != t {
        assert (a + b)[i].accepted < (a + b)[|a| + j].accepted;
      }
    }
  }

  /** The row appends a user's message with this text and these images. */
  ghost predicate LoggedAs(log: seq<Memory.Row>, m: Queue.QueuedMessage, spot: nat) {
    spot < |log| && log[spot].Appended? && Queue.Says(log[spot].message, m.text, m.images)
  }

  /** A delivered message is in the log, at a place of its own, in acceptance order. */
  lemma DeliveredIsLogged(messages: seq<Message>, acts: seq<Action>)
    ensures var s := Run(messages, acts); InLog(Memory.Log(s.mem), s.q.delivered, s.spots)
    ensures Queue.Increasing(Run(messages, acts).q.delivered)
    ensures var s := Run(messages, acts);
            forall i :: 0 <= i < |s.spots| ==> LoggedAs(Memory.Log(s.mem), s.q.delivered[i].message, s.spots[i])
  {
    RunKeepsQueue(messages, acts);
    var q := Run(messages, acts).q;
    var log, spots := Memory.Log(Run(messages, acts).mem), Run(messages, acts).spots;
    forall i | 0 <= i < |spots| ensures LoggedAs(log, q.delivered[i].message, spots[i]) {
      assert Spotted(log, q.delivered[i], spots[i]);
      Queue.BlocksSay(q.delivered[i].message.text, q.delivered[i].message.images);
    }
    forall i, j | 0 <= i < j < |q.delivered| ensures q.delivered[i].accepted < q.delivered[j].accepted {
      assert Queue.Live(q)[i].accepted < Queue.Live(q)[j].accepted;
    }
  }

  /** Where this run's loop is. A boundary of the run sees an empty delivery buffer,
      so a message still pending there is still in the queue the host can see. */
  lemma NothingLostAtReturn(messages: seq<Message>, acts: seq<Action>, t: nat)
    requires Run(messages, acts).run.pc.Returned?
    requires t < Run(messages, acts).q.clock
    ensures var s := Run(messages, acts);
            t in Queue.Stamps(s.q.delivered) || t in Queue.Stamps(s.q.queued) || t in s.q.taken
  {
    QueueConserved(messages, acts, t);
    Somewhere(Run(messages, acts).q, t);
  }

  lemma Somewhere(q: Queue.Q, t: nat)
    requires q.inflight == [] && (IsAt(q, t, Delivered) || IsAt(q, t, Pending) || IsAt(q, t, Taken))
    ensures t in Queue.Stamps(q.delivered) || t in Queue.Stamps(q.queued) || t in q.taken
  {
    assert q.inflight + q.queued == q.queued;
  }
}
