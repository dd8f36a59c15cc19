/** The engine and its repetition guard together (packages/core/agent.go:439, 660, 704,
    833, 880, 896 and packages/core/repetition.go:80-145): the guard's verdicts are those
    of the rule on the observations since it was last reset, and an ordinary message or a
    new request resets it. The guard is enabled throughout. */
module GuardedRun {
  import opened Transcript
  import opened Engine
  import R = Repetition

  /** The engine, and the observations since the last reset. */
  datatype Pair = Pair(eng: State, seen: seq<R.Observation>)

  /** Engine actions that carry no verdict, and those that do, with what is observed;
      `Forgets` is the host's explicit reset. */
  datatype Move =
    | Plain(action: Action)
    | Gates
    | Sees(o: R.Observation, prompt: Bytes)
    | Ends(o: R.Observation, prompt: Bytes, incomplete: bool)
    | Forgets

  predicate Judged(a: Action) {
    a.Gate? || a.Observe? || a.EndTurn?
  }

  /** Ordinary input is delivered, or a new request begins. */
  predicate Resets(s: State, a: Action) {
    || (a == Deliver && s.mem.unsent == [] && s.run.pc.Delivering? && s.q.inflight != [] && !s.q.inflight[0].message.hostEvent)
    || (a.Begin? && Resting(s) && a.prompt.Some? && a.prompt.value != Prompt([], []))
  }

  /** An observation without content is not counted, nor is any once the guard stopped. */
  ghost function Counted(seen: seq<R.Observation>, o: R.Observation): seq<R.Observation> {
    if o.fingerprint == "" || R.Stops(seen) then seen else seen + [o]
  }

  function VerdictOf(stage: R.Stage, prompt: Bytes): Verdict {
    match stage
    case NoStage => Quiet
    case Warning => Warned(prompt)
    case Stopped => Halted
  }

  ghost function VerdictOn(seen: seq<R.Observation>, o: R.Observation, prompt: Bytes): Verdict {
    if o.fingerprint == "" then Quiet
    else if R.Stops(seen) then Halted
    else VerdictOf(R.Decide(seen + [o]).stage, prompt)
  }

  predicate Looking(s: State) {
    s.mem.unsent == [] && (s.run.pc.Weighing? || s.run.pc.Observing?)
  }

  predicate Ending(s: State) {
    s.mem.unsent == [] && s.run.pc.Closing? && s.run.pc.stop == StopEnd && !s.run.denied
  }

  ghost function Next(p: Pair, m: Move): Pair {
    match m
    case Plain(a) => if Judged(a) then p else Pair(Step(p.eng, a), if Resets(p.eng, a) then [] else p.seen)
    case Gates => p.(eng := Step(p.eng, Gate(R.Stops(p.seen))))
    case Sees(o, prompt) =>
      if Looking(p.eng) then Pair(Step(p.eng, Observe(VerdictOn(p.seen, o, prompt))), Counted(p.seen, o)) else p
    case Ends(o, prompt, incomplete) =>
      if Ending(p.eng) then Pair(Step(p.eng, EndTurn(VerdictOn(p.seen, o, prompt), incomplete)), Counted(p.seen, o))
      else p.(eng := Step(p.eng, EndTurn(Quiet, incomplete)))
    case Forgets => p.(seen := [])
  }

  ghost function Play(messages: seq<Message>, moves: seq<Move>): Pair {
    if moves == [] then Pair(Start(messages), []) else Next(Play(messages, Init(moves)), Last(moves))
  }

  // ------------------------------------------------------------------ the invariant

  /** Where a stopped guard may find the engine: between runs, or on its way from the
      start of a run to the gate. */
  predicate Held(r: RunState) {
    !Active(r.pc) || (r.pc == Top && r.step == 1) || r.pc == Delivering(false)
  }

  ghost predicate Inv(p: Pair) {
    && R.RunningUpTo(p.seen)
    && (R.Stops(p.seen) ==> Held(p.eng.run))
  }

  lemma VerdictIsStop(seen: seq<R.Observation>, o: R.Observation, prompt: Bytes)
    requires R.RunningUpTo(seen)
    ensures R.RunningUpTo(Counted(seen, o))
    ensures R.Stops(Counted(seen, o)) && (o.fingerprint != "" || !R.Stops(seen)) <==> VerdictOn(seen, o, prompt) == Halted
  {
    var longer := seen + [o];
    if Counted(seen, o) == longer {
      forall i | 0 <= i < |longer| ensures !R.Stops(longer[..i]) {
        assert longer[..i] == seen[..i] && seen[..|seen|] == seen;
      }
    }
  }

  /** A stopped guard on its way to the gate: the loop cannot leave that way otherwise. */
  lemma HeldOnward(s: State, a: Action)
    requires Held(s.run) && Active(s.run.pc) && !Judged(a) && ByLoop(a)
    ensures Active(Step(s, a).run.pc) && Held(Step(s, a).run)
  {
  }

  lemma OthersKeepPlace(s: State, a: Action)
    requires !ByLoop(a)
    ensures Step(s, a).run == s.run || (!Active(s.run.pc) && Step(s, a).run.pc == Top && Step(s, a).run.step == 1)
  {
  }

  lemma RestingStays(s: State, a: Action)
    requires !Active(s.run.pc) && ByLoop(a)
    ensures Step(s, a) == s
  {
  }

  lemma PlainKeeps(p: Pair, a: Action)
    requires Inv(p) && !Judged(a)
    ensures Inv(Next(p, Plain(a)))
  {
    if R.Stops(p.seen) {
      if !ByLoop(a) {
        OthersKeepPlace(p.eng, a);
      } else if Active(p.eng.run.pc) {
        HeldOnward(p.eng, a);
      } else {
        RestingStays(p.eng, a);
      }
    }
  }

  lemma GateStep(s: State, stopped: bool)
    ensures var t := Step(s, Gate(stopped));
            t == s || (s.run.pc == Delivering(false) && t.run.pc == if stopped then Returned(Repetitive) else Hooks)
  {
  }

  lemma ObserveStep(s: State, v: Verdict)
    requires Looking(s)
    ensures var t := Step(s, Observe(v));
            if v == Halted then t.run.pc == Returned(Repetitive)
            else t.run.pc == if s.run.pc.Weighing? then Top else Observing
  {
  }

  lemma EndStep(s: State, v: Verdict, incomplete: bool)
    requires Ending(s)
    ensures var t := Step(s, EndTurn(v, incomplete));
            if v == Halted then t.run.pc == Returned(Repetitive)
            else t.run.pc in {Top, Recovering, Returned(Finished), Returned(Result.Incomplete)}
  {
  }

  lemma OtherEndStep(s: State, incomplete: bool)
    requires !Ending(s)
    ensures var t := Step(s, EndTurn(Quiet, incomplete)); t == s || (s.run.pc.Closing? && t.run.pc == Returned(Finished))
  {
  }

  lemma NextKeeps(p: Pair, m: Move)
    requires Inv(p)
    ensures Inv(Next(p, m))
  {
    match m
    case Plain(a) => if !Judged(a) { PlainKeeps(p, a); }
    case Gates => GateStep(p.eng, R.Stops(p.seen));
    case Sees(o, prompt) =>
      if Looking(p.eng) {
        VerdictIsStop(p.seen, o, prompt);
        ObserveStep(p.eng, VerdictOn(p.seen, o, prompt));
      }
    case Ends(o, prompt, incomplete) =>
      if Ending(p.eng) {
        VerdictIsStop(p.seen, o, prompt);
        EndStep(p.eng, VerdictOn(p.seen, o, prompt), incomplete);
      } else {
        OtherEndStep(p.eng, incomplete);
      }
    case Forgets =>
  }

  lemma {:induction false} AlwaysInv(messages: seq<Message>, moves: seq<Move>)
    ensures Inv(Play(messages, moves))
  {
    if moves != [] {
      AlwaysInv(messages, Init(moves));
      NextKeeps(Play(messages, Init(moves)), Last(moves));
    }
  }

  // ------------------------------------------------------------- what it comes to

  /** Delivering an ordinary message forgets all observations, host evidence none. */
  lemma InputForgets(p: Pair)
    requires p.eng.run.pc.Delivering? && p.eng.mem.unsent == [] && p.eng.q.inflight != []
    ensures var q, m := Next(p, Plain(Deliver)), p.eng.q.inflight[0].message;
            && |q.eng.q.delivered| == |p.eng.q.delivered| + 1 && Last(q.eng.q.delivered).message == m
            && q.seen == if m.hostEvent then p.seen else []
  {
    assert Step(p.eng, Deliver) == DoDeliver(p.eng);
  }

  /** So does a new request; continuing without one forgets nothing. */
  lemma RequestForgets(p: Pair, prompt: Option<Prompt>, cfg: Config)
    requires Resting(p.eng)
    ensures Next(p, Plain(Begin(prompt, cfg))).seen
         == if prompt.Some? && (prompt.value.text != [] || prompt.value.images != []) then [] else p.seen
  {
  }

  /** While the loop works, no observation fills eight of the last 64 places. */
  lemma NoEighthRepetition(messages: seq<Message>, moves: seq<Move>, f: string)
    requires !Held(Play(messages, moves).eng.run)
    ensures R.Count(R.Window(Play(messages, moves).seen), f) < 8
  {
    AlwaysInv(messages, moves);
    var seen := Play(messages, moves).seen;
    assert seen[..|seen|] == seen;
    R.CountsStayBelow(seen, f);
  }

  predicate Quits(pc: Pc) {
    pc.Top? || pc.Hooks? || pc.Retrying? || pc.Sleeping? || pc.Sent?
  }

  lemma QuitResult(s: State, a: Action)
    requires Quits(s.run.pc) && !Judged(a)
    ensures Advance(s, a).run.pc != Returned(Repetitive)
  {
  }

  lemma LookResult(s: State, a: Action)
    requires s.run.pc.Continuing? || s.run.pc.Counting? || s.run.pc.Ending? || s.run.pc.EndCounting? || s.run.pc.Recovering?
    requires !Judged(a)
    ensures Advance(s, a).run.pc != Returned(Repetitive)
  {
  }

  lemma JudgeResult(s: State, o: Outcome)
    ensures DoJudge(s, o).run.pc != Returned(Repetitive)
  {
  }

  lemma RunningResult(s: State, a: Action)
    requires s.run.pc.Running?
    ensures !Advance(s, a).run.pc.Returned?
  {
  }

  lemma WorkResult(s: State, a: Action)
    requires s.run.pc.Delivering? || s.run.pc.Composing? || s.run.pc.Calling? || s.run.pc.Woken? || s.run.pc.Weighing?
             || s.run.pc.Observing? || s.run.pc.Closing?
    requires !Judged(a)
    ensures !Advance(s, a).run.pc.Returned?
  {
  }

  /** Without a verdict no step ends a run as repetitive. */
  lemma PlainResult(s: State, a: Action)
    requires Active(s.run.pc) && !Judged(a) && ByLoop(a)
    ensures Step(s, a).run.pc != Returned(Repetitive)
  {
    match s.run.pc {
      case Judging(o) => JudgeResult(s, o);
      case Running(_) => RunningResult(s, a);
      case Delivering(_) => WorkResult(s, a);
      case Composing => WorkResult(s, a);
      case Calling => WorkResult(s, a);
      case Woken => WorkResult(s, a);
      case Weighing => WorkResult(s, a);
      case Observing => WorkResult(s, a);
      case Closing(_) => WorkResult(s, a);
      case Top => QuitResult(s, a);
      case Hooks => QuitResult(s, a);
      case Retrying(_) => QuitResult(s, a);
      case Sleeping(_) => QuitResult(s, a);
      case Sent => QuitResult(s, a);
      case _ => LookResult(s, a);
    }
  }

  lemma PlainEnds(p: Pair, a: Action)
    requires Inv(p) && Active(p.eng.run.pc) && !Judged(a)
    ensures var q := Next(p, Plain(a));
            q.eng.run.pc.Returned? ==> q.eng.run.pc != Returned(Repetitive) && !R.Stops(q.seen)
  {
    if ByLoop(a) {
      PlainResult(p.eng, a);
      if Held(p.eng.run) {
        HeldOnward(p.eng, a);
      }
    } else {
      OthersKeepPlace(p.eng, a);
    }
  }

  /** One step of the pair: when it ends a run, it ends it as repetitive exactly if the
      guard has stopped; and the observation that stops the guard ends the run at once. */
  lemma EndsBy(p: Pair, m: Move)
    requires Inv(p) && Active(p.eng.run.pc) && !m.Forgets?
    ensures var q := Next(p, m);
            && (q.eng.run.pc.Returned? ==> (q.eng.run.pc == Returned(Repetitive) <==> R.Stops(q.seen)))
            && (R.Stops(q.seen) && !R.Stops(p.seen) ==> q.eng.run.pc == Returned(Repetitive))
  {
    match m
    case Plain(a) => if !Judged(a) { PlainEnds(p, a); }
    case Gates => GateStep(p.eng, R.Stops(p.seen));
    case Sees(o, prompt) =>
      if Looking(p.eng) {
        VerdictIsStop(p.seen, o, prompt);
        ObserveStep(p.eng, VerdictOn(p.seen, o, prompt));
      }
    case Ends(o, prompt, incomplete) =>
      if Ending(p.eng) {
        VerdictIsStop(p.seen, o, prompt);
        EndStep(p.eng, VerdictOn(p.seen, o, prompt), incomplete);
      } else {
        OtherEndStep(p.eng, incomplete);
      }
  }

  /** A run ends as repetitive if and only if the newest observation since the last
      ordinary input occurs eight times among the last 64; the eighth ends it at once. */
  lemma RepetitiveIff(messages: seq<Message>, moves: seq<Move>, m: Move)
    requires Active(Play(messages, moves).eng.run.pc) && !m.Forgets?
    ensures var p, q := Play(messages, moves), Play(messages, moves + [m]);
            && (q.eng.run.pc.Returned? ==>
                  (q.eng.run.pc == Returned(Repetitive) <==> q.seen != [] && R.NewestCount(q.seen) == 8))
            && (R.Stops(q.seen) && !R.Stops(p.seen) ==> q.eng.run.pc == Returned(Repetitive))
  {
    var p := Play(messages, moves);
    AlwaysInv(messages, moves);
    assert Init(moves + [m]) == moves;
    var q := Next(p, m);
    EndsBy(p, m);
    AlwaysInv(messages, moves + [m]);
    if R.Stops(q.seen) {
      R.FirstStopIsExact(q.seen);
    }
  }

  /** The observation is the fifth like it among the last 64, of a guard still running. */
  ghost predicate Fifth(seen: seq<R.Observation>, o: R.Observation) {
    o.fingerprint != "" && !R.Stops(seen) && R.NewestCount(seen + [o]) == 5
  }

  /** One remark: its event, and its prompt as a user's message. */
  ghost predicate Remarks(s: State, t: State, prompt: Bytes) {
    && t.mem.messages == s.mem.messages + [Message(User, [Text(prompt)], [], false)]
    && t.run.trace == s.run.trace + [RepetitionGuard(false)]
  }

  ghost predicate Silent(s: State, t: State) {
    && t.mem.messages == s.mem.messages && s.run.trace <= t.run.trace
    && RepetitionGuard(false) !in t.run.trace[|s.run.trace|..]
  }

  lemma VerdictRemarks(seen: seq<R.Observation>, o: R.Observation, prompt: Bytes)
    ensures VerdictOn(seen, o, prompt) == Warned(prompt) <==> Fifth(seen, o)
    ensures VerdictOn(seen, o, prompt).Warned? ==> VerdictOn(seen, o, prompt).prompt == prompt
  {
  }

  lemma SeesSays(s: State, v: Verdict)
    requires Looking(s)
    ensures if v.Warned? then Remarks(s, Step(s, Observe(v)), v.prompt) else Silent(s, Step(s, Observe(v)))
  {
    var t := Step(s, Observe(v));
    assert t == if s.run.pc.Weighing? then DoWeigh(s, v) else DoVerdict(s, v);
    if v == Halted {
      assert t.run.trace == s.run.trace + [RepetitionGuard(true), Done];
    }
  }

  lemma EndSays(s: State, v: Verdict, incomplete: bool)
    requires Ending(s)
    ensures if v.Warned? then Remarks(s, Step(s, EndTurn(v, incomplete)), v.prompt) else Silent(s, Step(s, EndTurn(v, incomplete)))
  {
    var t := Step(s, EndTurn(v, incomplete));
    assert t == DoEndTurn(s, s.run.pc.stop, v, incomplete);
    if v == Halted {
      assert t.run.trace == s.run.trace + [RepetitionGuard(true), Done];
    } else if v == Quiet {
      assert t.run.trace == s.run.trace || t.run.trace == s.run.trace + [Done];
    }
  }

  /** Whatever was observed before: an observation is remarked on, with its prompt, if and
      only if it is the fifth like it among the last 64. */
  lemma FifthIsRemarkedIff(messages: seq<Message>, moves: seq<Move>, o: R.Observation, prompt: Bytes, incomplete: bool)
    ensures var p := Play(messages, moves);
            && (Looking(p.eng) ==>
                  var t := Next(p, Sees(o, prompt)).eng;
                  if Fifth(p.seen, o) then Remarks(p.eng, t, prompt) else Silent(p.eng, t))
            && (Ending(p.eng) ==>
                  var t := Next(p, Ends(o, prompt, incomplete)).eng;
                  if Fifth(p.seen, o) then Remarks(p.eng, t, prompt) else Silent(p.eng, t))
  {
    var p := Play(messages, moves);
    var v := VerdictOn(p.seen, o, prompt);
    VerdictRemarks(p.seen, o, prompt);
    if Looking(p.eng) {
      SeesSays(p.eng, v);
    }
    if Ending(p.eng) {
      EndSays(p.eng, v, incomplete);
    }
  }
}
