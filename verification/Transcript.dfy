/** The conversation data every other module works on: messages, their content
    blocks and the provenance a tool result records about workspace resources. */
module Transcript {

  datatype Option<+T> = None | Some(value: T)

  /** Go strings are byte strings, and the projection counts bytes. */
  type Byte = b: int | 0 <= b < 256

  type Bytes = seq<Byte>

  /** The bytes of an ASCII literal. */
  function Ascii(s: string): (b: Bytes)
    ensures |b| == |s|
  {
    seq(|s|, i requires 0 <= i < |s| => (s[i] as int) % 256)
  }

  datatype ResourceRef = ResourceRef(key: string, variant: string)

  datatype ToolContext = ToolContext(views: seq<ResourceRef>, discovers: seq<string>, mutates: seq<string>)

  datatype Role = User | Assistant | Tool | Developer

  /** `timing` is the rendered annotation, absent for results recorded before
      timing existed. */
  datatype Content =
    | Text(text: Bytes)
    | Image(data: Bytes)
    | ToolCall(id: string, name: string)
    | ToolResult(callID: string, content: seq<Content>, isError: bool, timing: Option<Bytes>, context: ToolContext)
    | Reasoning(summary: Bytes)

  /** `internal` is the marker carried by host-authored context messages. */
  datatype Message = Message(role: Role, content: seq<Content>, addedToolNames: seq<string>, internal: bool)

  /** Last element removed and last element, the two halves of an append. */
  function Init<T>(s: seq<T>): (r: seq<T>)
    requires s != []
  {
    s[..|s| - 1]
  }

  function Last<T>(s: seq<T>): T
    requires s != []
  {
    s[|s| - 1]
  }

  lemma ConcatAssociates<T>(a: seq<T>, b: seq<T>, c: seq<T>)
    ensures a + (b + c) == (a + b) + c
  {
  }

  /** The tool calls an assistant message asks for, in order. */
  function CallIDs(content: seq<Content>): seq<string> {
    if content == [] then []
    else (if content[0].ToolCall? then [content[0].id] else []) + CallIDs(content[1..])
  }

  /** The calls a tool message answers, in order. */
  function ResultIDs(content: seq<Content>): seq<string> {
    if content == [] then []
    else (if content[0].ToolResult? then [content[0].callID] else []) + ResultIDs(content[1..])
  }

  lemma CallIDsConcat(a: seq<Content>, b: seq<Content>)
    ensures CallIDs(a + b) == CallIDs(a) + CallIDs(b)
  {
    if a == [] {
      assert a + b == b;
    } else {
      assert (a + b)[1..] == a[1..] + b;
    }
  }
}
