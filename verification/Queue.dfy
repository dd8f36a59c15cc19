/** Late user messages (packages/core/agent.go:312-449): accepted while the agent is
    busy, delivered at safe boundaries, or taken back by the host. */
module Queue {
  import opened Transcript

  datatype QueuedMessage = QueuedMessage(text: Bytes, images: seq<Bytes>, hostEvent: bool)

  /** `accepted` is the acceptance time, a strictly increasing clock reading. */
  datatype Entry = Entry(message: QueuedMessage, accepted: nat)

  /** `inflight` was taken off the queue by the loop and is being appended;
      `delivered` is in the transcript; `taken` went back to the host. */
  datatype Q = Q(queued: seq<Entry>, inflight: seq<Entry>, delivered: seq<Entry>, taken: set<nat>, clock: nat)

  /** Whitespace trimmed from a queued prompt. */
  predicate Blank(b: Byte) {
    b == 0x20 || 0x09 <= b <= 0x0D
  }

  function TrimLeft(t: Bytes): Bytes {
    if t != [] && Blank(t[0]) then TrimLeft(t[1..]) else t
  }

  function TrimRight(t: Bytes): Bytes {
    if t != [] && Blank(Last(t)) then TrimRight(Init(t)) else t
  }

  function Trim(t: Bytes): Bytes {
    TrimRight(TrimLeft(t))
  }

  /** A prompt with neither text nor images is refused. */
  predicate Accepts(m: QueuedMessage) {
    Trim(m.text) != [] || m.images != []
  }

  function Accept(q: Q, m: QueuedMessage): Q {
    if !Accepts(m) then q
    else q.(queued := q.queued + [Entry(m.(text := Trim(m.text)), q.clock)], clock := q.clock + 1)
  }

  function Without(s: seq<Entry>, i: nat): seq<Entry>
    requires i < |s|
  {
    s[..i] + s[i + 1..]
  }

  /** Position of the newest entry that is not host evidence, |s| if there is none. */
  function NewestUser(s: seq<Entry>): (i: nat)
    ensures i <= |s|
    ensures i < |s| ==> !s[i].message.hostEvent && forall k :: i < k < |s| ==> s[k].message.hostEvent
    ensures i == |s| ==> forall k :: 0 <= k < |s| ==> s[k].message.hostEvent
  {
    if s == [] then 0
    else if !Last(s).message.hostEvent then |s| - 1
    else
      var i := NewestUser(Init(s));
      if i == |s| - 1 then |s| else i
  }

  function TakeAt(q: Q, i: nat): Q
    requires i < |q.queued|
  {
    q.(queued := Without(q.queued, i), taken := q.taken + {q.queued[i].accepted})
  }

  function Pop(q: Q): Q {
    if q.queued == [] then q else TakeAt(q, |q.queued| - 1)
  }

  function PopUser(q: Q): Q {
    var i := NewestUser(q.queued);
    if i == |q.queued| then q else TakeAt(q, i)
  }

  function Stamps(s: seq<Entry>): set<nat> {
    set e | e in s :: e.accepted
  }

  function TakeAll(q: Q): Q {
    q.(queued := [], taken := q.taken + Stamps(q.queued))
  }

  function Drain(q: Q): Q {
    q.(queued := [], inflight := q.inflight + q.queued)
  }

  function Deliver(q: Q): Q
    requires q.inflight != []
  {
    q.(inflight := q.inflight[1..], delivered := q.delivered + [q.inflight[0]])
  }

  /** The transcript row a delivered entry becomes. */
  function UserMessage(e: Entry): Message {
    Message(User, Blocks(e.message.text, e.message.images), [], false)
  }

  /** The content blocks of a user prompt: its text if any, then its images. */
  function Blocks(text: Bytes, images: seq<Bytes>): (blocks: seq<Content>)
    ensures forall c :: c in blocks ==> c.Text? || c.Image?
  {
    (if text == [] then [] else [Text(text)]) + Images(images)
  }

  function Images(images: seq<Bytes>): seq<Content> {
    seq(|images|, i requires 0 <= i < |images| => Image(images[i]))
  }

  /** A user's message with this text, if there is any, and then these images. */
  ghost predicate Says(m: Message, text: Bytes, images: seq<Bytes>) {
    && m.role == User && !m.internal && m.addedToolNames == []
    && |m.content| == |images| + (if text == [] then 0 else 1)
    && (text != [] ==> m.content[0] == Text(text))
    && forall i :: 0 <= i < |images| ==> m.content[|m.content| - |images| + i] == Image(images[i])
  }

  lemma BlocksSay(text: Bytes, images: seq<Bytes>)
    ensures Says(Message(User, Blocks(text, images), [], false), text, images)
  {
  }

  /** `t` is `text` without the blanks around it. */
  ghost predicate TrimmedTo(text: Bytes, t: Bytes) {
    exists i, j :: 0 <= i <= j <= |text| && t == text[i..j] && CutsBlanks(text, i, j)
  }

  /** All blanks and nothing but blanks lie outside i..j. */
  ghost predicate CutsBlanks(text: Bytes, i: int, j: int)
    requires 0 <= i <= j <= |text|
  {
    && (forall k :: 0 <= k < i ==> Blank(text[k]))
    && (forall k :: j <= k < |text| ==> Blank(text[k]))
    && (i < j ==> !Blank(text[i]) && !Blank(text[j - 1]))
  }

  lemma {:induction false} TrimLeftCuts(text: Bytes) returns (i: nat)
    ensures i <= |text| && TrimLeft(text) == text[i..] && (i < |text| ==> !Blank(text[i]))
    ensures forall k :: 0 <= k < i ==> Blank(text[k])
  {
    if text != [] && Blank(text[0]) {
      i := TrimLeftCuts(text[1..]);
      assert text[1..][i..] == text[i + 1..];
      assert forall k :: 0 < k < i + 1 ==> text[k] == text[1..][k - 1];
      i := i + 1;
    } else {
      i := 0;
    }
  }

  lemma {:induction false} TrimRightCuts(text: Bytes) returns (j: nat)
    ensures j <= |text| && TrimRight(text) == text[..j] && (j > 0 ==> !Blank(text[j - 1]))
    ensures forall k :: j <= k < |text| ==> Blank(text[k])
  {
    if text != [] && Blank(Last(text)) {
      j := TrimRightCuts(Init(text));
      assert Init(text)[..j] == text[..j];
    } else {
      j := |text|;
      assert text[..j] == text;
    }
  }

  lemma TrimIs(text: Bytes)
    ensures TrimmedTo(text, Trim(text))
  {
    var i := TrimLeftCuts(text);
    var rest := text[i..];
    var j := TrimRightCuts(rest);
    assert rest[..j] == text[i..i + j];
    forall k | i + j <= k < |text| ensures Blank(text[k]) {
      assert text[k] == rest[k - i];
    }
    assert j > 0 ==> rest[j - 1] == text[i + j - 1] && rest[0] == text[i];
    assert CutsBlanks(text, i, i + j);
  }

  predicate HasUser(s: seq<Entry>) {
    exists e :: e in s && !e.message.hostEvent
  }

  lemma HasUserIff(s: seq<Entry>)
    ensures HasUser(s) <==> exists i :: 0 <= i < |s| && !s[i].message.hostEvent
  {
    if i :| 0 <= i < |s| && !s[i].message.hostEvent {
      assert s[i] in s;
    }
  }

  // ------------------------------------------------------------- conservation

  /** Delivered, then in delivery, then waiting. */
  function Live(q: Q): seq<Entry> {
    q.delivered + q.inflight + q.queued
  }

  ghost predicate Increasing(s: seq<Entry>) {
    forall i, j :: 0 <= i < j < |s| ==> s[i].accepted < s[j].accepted
  }

  /** Every acceptance is in exactly one place, and those not taken back are in order. */
  ghost predicate Inv(q: Q) {
    && Increasing(Live(q))
    && (forall t :: t in Stamps(Live(q)) || t in q.taken <==> 0 <= t < q.clock)
    && Stamps(Live(q)) !! q.taken
  }

  lemma StampsConcat(a: seq<Entry>, b: seq<Entry>)
    ensures Stamps(a + b) == Stamps(a) + Stamps(b)
  {
  }

  lemma AcceptKeeps(q: Q, m: QueuedMessage)
    requires Inv(q)
    ensures Inv(Accept(q, m))
  {
    if Accepts(m) {
      var e := Entry(m.(text := Trim(m.text)), q.clock);
      assert Live(Accept(q, m)) == Live(q) + [e];
      StampsConcat(Live(q), [e]);
      forall i | 0 <= i < |Live(q)| ensures Live(q)[i].accepted < q.clock {
        assert Live(q)[i] in Live(q) && Live(q)[i].accepted in Stamps(Live(q));
      }
    }
  }

  lemma IncreasingWithout(s: seq<Entry>, i: nat)
    requires i < |s| && Increasing(s)
    ensures Increasing(Without(s, i))
  {
  }

  lemma StampsWithout(s: seq<Entry>, i: nat)
    requires i < |s| && Increasing(s)
    ensures Stamps(Without(s, i)) == Stamps(s) - {s[i].accepted}
  {
    assert s == s[..i] + ([s[i]] + s[i + 1..]);
    StampsConcat(s[..i], [s[i]] + s[i + 1..]);
    StampsConcat([s[i]], s[i + 1..]);
    StampsConcat(s[..i], s[i + 1..]);
    assert s[i].accepted !in Stamps(s[..i]) && s[i].accepted !in Stamps(s[i + 1..]);
  }

  lemma TakeKeeps(q: Q, i: nat)
    requires Inv(q) && i < |q.queued|
    ensures Inv(TakeAt(q, i))
  {
    var at := |q.delivered| + |q.inflight| + i;
    assert Live(q)[at] == q.queued[i] && q.queued[i] in Live(q);
    assert Live(TakeAt(q, i)) == Without(Live(q), at);
    IncreasingWithout(Live(q), at);
    StampsWithout(Live(q), at);
  }

  lemma TakeAllKeeps(q: Q)
    requires Inv(q)
    ensures Inv(TakeAll(q))
  {
    var held := q.delivered + q.inflight;
    assert Live(q) == held + q.queued && Live(TakeAll(q)) == held;
    StampsConcat(held, q.queued);
    forall t | t in Stamps(held) ensures t !in Stamps(q.queued) {
      var i :| 0 <= i < |held| && held[i].accepted == t;
      forall j | 0 <= j < |q.queued| ensures q.queued[j].accepted != t {
        assert Live(q)[i].accepted < Live(q)[|held| + j].accepted;
      }
    }
    forall i, j | 0 <= i < j < |held| ensures held[i].accepted < held[j].accepted {
      assert Live(q)[i].accepted < Live(q)[j].accepted;
    }
  }

  lemma DrainKeeps(q: Q)
    requires Inv(q)
    ensures Inv(Drain(q)) && Live(Drain(q)) == Live(q)
  {
    assert Live(Drain(q)) == Live(q);
  }

  lemma DeliverKeeps(q: Q)
    requires Inv(q) && q.inflight != []
    ensures Inv(Deliver(q)) && Live(Deliver(q)) == Live(q)
  {
    assert Live(Deliver(q)) == Live(q);
  }
}
