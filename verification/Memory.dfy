/** The transcript and its persistence hooks (packages/core/agent.go:569-584, 844-872,
    1087-1096, packages/core/dynamic_context.go:16-71, packages/core/compact.go:193-202).

    Every change to the in-memory transcript is followed, outside the lock, by at
    most one hook call; what the hooks received is a log whose replay should be
    the transcript. `unsent` holds the hook calls not made yet. */
module Memory {
  import opened Transcript

  /** What a hook received: one message, or a whole replacement transcript. */
  datatype Row = Appended(message: Message) | Replaced(messages: seq<Message>)

  function Replay(rows: seq<Row>): seq<Message> {
    if rows == [] then []
    else
      match Last(rows)
      case Appended(m) => Replay(Init(rows)) + [m]
      case Replaced(ms) => ms
  }

  /** `drops` counts the partial replies a retry removed from memory, whose rows
      were already written, since the last replacement row. */
  datatype Mem = Mem(messages: seq<Message>, rows: seq<Row>, unsent: seq<Row>, drops: nat)

  /** Rows written and rows about to be. */
  function Log(m: Mem): seq<Row> {
    m.rows + m.unsent
  }

  function Append(m: Mem, msg: Message): Mem {
    m.(messages := m.messages + [msg], unsent := m.unsent + [Appended(msg)])
  }

  function Replace(m: Mem, next: seq<Message>): Mem {
    m.(messages := next, unsent := m.unsent + [Replaced(next)], drops := 0)
  }

  predicate IsContext(msg: Message) {
    msg.role == Developer && msg.internal
  }

  /** The conversation itself. */
  predicate IsTalk(msg: Message) {
    !IsContext(msg)
  }

  predicate HasContext(messages: seq<Message>) {
    exists i :: 0 <= i < |messages| && IsContext(messages[i])
  }

  /** The newest host-authored context message. */
  function LatestContext(messages: seq<Message>): Option<Message> {
    if messages == [] then None
    else if IsContext(Last(messages)) then Some(Last(messages))
    else LatestContext(Init(messages))
  }

  lemma LatestIffAny(messages: seq<Message>)
    ensures LatestContext(messages).Some? <==> HasContext(messages)
  {
    if messages != [] && !IsContext(Last(messages)) {
      LatestIffAny(Init(messages));
      assert forall i :: 0 <= i < |messages| - 1 ==> Init(messages)[i] == messages[i];
    }
  }

  /** Message i is the last that is marked as the host's own. */
  ghost predicate NewestContext(messages: seq<Message>, i: int) {
    && 0 <= i < |messages| && messages[i].role == Developer && messages[i].internal
    && NoContextBehind(messages, i)
  }

  ghost predicate NoContextBehind(messages: seq<Message>, i: int) {
    forall k :: 0 <= k < |messages| && i < k ==> !(messages[k].role == Developer && messages[k].internal)
  }

  lemma {:induction false} LatestIsNewest(messages: seq<Message>) returns (i: int)
    ensures LatestContext(messages).Some? ==> NewestContext(messages, i) && messages[i] == LatestContext(messages).value
    ensures LatestContext(messages) == None ==> i == -1 && NoContextBehind(messages, -1)
  {
    i := -1;
    if messages != [] {
      if IsContext(Last(messages)) {
        i := |messages| - 1;
      } else {
        i := LatestIsNewest(Init(messages));
        forall k | 0 <= k < |messages| && i < k ensures !(messages[k].role == Developer && messages[k].internal) {
          assert k < |messages| - 1 ==> Init(messages)[k] == messages[k];
        }
      }
    }
  }

  lemma NewestIsUnique(messages: seq<Message>, i: int, j: int)
    requires NewestContext(messages, i) && NewestContext(messages, j)
    ensures i == j
  {
  }

  /** `now` is `before` with `text` recorded as host context: not again if the newest one
      says just that, in front of everything if there is none, else at the end. */
  ghost predicate Records(before: seq<Message>, now: seq<Message>, text: Bytes) {
    var m := Message(Developer, [Text(text)], [], true);
    if text == [] || exists i :: NewestContext(before, i) && before[i].content == [Text(text)] then now == before
    else if exists i :: NewestContext(before, i) then now == before + [m]
    else now == [m] + before
  }

  function ContextMessage(text: Bytes): Message {
    Message(Developer, [Text(text)], [], true)
  }

  function ContextText(msg: Message): Bytes {
    if |msg.content| == 1 && msg.content[0].Text? then msg.content[0].text else []
  }

  /** Host context is recorded only when it changed. The first one goes in front of
      the conversation, so it is reported as a replacement; later ones are appended. */
  function AddContext(m: Mem, text: Bytes): Mem {
    var latest := LatestContext(m.messages);
    if text == [] || (latest.Some? && ContextText(latest.value) == text) then m
    else if HasContext(m.messages) then Append(m, ContextMessage(text))
    else Replace(m, [ContextMessage(text)] + m.messages)
  }

  lemma AddContextRecords(m: Mem, text: Bytes)
    ensures Records(m.messages, AddContext(m, text).messages, text)
  {
    var i := LatestIsNewest(m.messages);
    LatestIffAny(m.messages);
    if LatestContext(m.messages).Some? {
      forall j | NewestContext(m.messages, j) ensures j == i {
        NewestIsUnique(m.messages, i, j);
      }
    }
  }

  /** A retry drops the reply the failed attempt appended, in memory only. */
  function DropReply(m: Mem, before: nat): Mem {
    if |m.messages| > before && Last(m.messages).role == Assistant
    then m.(messages := Init(m.messages), drops := m.drops + 1)
    else m
  }

  function Flush(m: Mem): Mem {
    if m.unsent == [] then m else m.(rows := m.rows + [m.unsent[0]], unsent := m.unsent[1..])
  }

  /** The ways one step can change the ledger. */
  datatype Change =
    | Nothing
    | Says(message: Message)
    | SaysBoth(first: Message, second: Message)
    | Adds(text: Bytes)
    | Drops(before: nat)

  function Apply(m: Mem, c: Change): Mem {
    match c
    case Nothing => m
    case Says(x) => Append(m, x)
    case SaysBoth(x, y) => Append(Append(m, x), y)
    case Adds(text) => AddContext(m, text)
    case Drops(before) => DropReply(m, before)
  }

  ghost predicate Inv(m: Mem) {
    && |Replay(Log(m))| == |m.messages| + m.drops
    && (m.drops == 0 ==> Replay(Log(m)) == m.messages)
  }

  lemma LogSnoc(log: seq<Row>, row: Row)
    ensures Replay(log + [row]) == if row.Appended? then Replay(log) + [row.message] else row.messages
  {
    assert Init(log + [row]) == log;
  }

  lemma AppendKeeps(m: Mem, msg: Message)
    requires Inv(m)
    ensures Inv(Append(m, msg))
  {
    LogSnoc(Log(m), Appended(msg));
    assert Log(Append(m, msg)) == Log(m) + [Appended(msg)];
  }

  lemma ReplaceKeeps(m: Mem, next: seq<Message>)
    ensures Inv(Replace(m, next))
  {
    LogSnoc(Log(m), Replaced(next));
    assert Log(Replace(m, next)) == Log(m) + [Replaced(next)];
  }

  lemma AddContextKeeps(m: Mem, text: Bytes)
    requires Inv(m)
    ensures Inv(AddContext(m, text))
  {
    AppendKeeps(m, ContextMessage(text));
    ReplaceKeeps(m, [ContextMessage(text)] + m.messages);
  }

  lemma DropKeeps(m: Mem, before: nat)
    requires Inv(m)
    ensures Inv(DropReply(m, before))
  {
  }

  lemma ApplyKeeps(m: Mem, c: Change)
    requires Inv(m)
    ensures Inv(Apply(m, c))
  {
    match c {
      case Nothing =>
      case Says(x) => AppendKeeps(m, x);
      case SaysBoth(x, y) =>
        AppendKeeps(m, x);
        AppendKeeps(Append(m, x), y);
      case Adds(text) => AddContextKeeps(m, text);
      case Drops(before) => DropKeeps(m, before);
    }
  }

  /** The log is write-once. */
  lemma ApplyGrows(m: Mem, c: Change)
    ensures Log(m) <= Log(Apply(m, c))
  {
  }

  lemma FlushLog(m: Mem)
    ensures Log(Flush(m)) == Log(m)
  {
  }

  lemma FlushKeeps(m: Mem)
    requires Inv(m)
    ensures Inv(Flush(m))
  {
    FlushLog(m);
  }

  /** With no hook call outstanding, the written log replays to the transcript
      exactly when no dropped reply is still in it. */
  lemma LogReplaysIff(m: Mem)
    requires Inv(m) && m.unsent == []
    ensures Replay(m.rows) == m.messages <==> m.drops == 0
  {
    assert Log(m) == m.rows;
  }
}
