/** Chat messages and log entries as values (internal/app/chat_jsonl_parser.go, pi_session_migration.go). */
module ChatBlocks {
  import opened Prelude
  import opened Text

  /** Decoded JSON, as tool arguments carry it. Object fields stand in key order. */
  datatype Json =
    | Null
    | Bool(b: bool)
    | Number(n: real)
    | String(s: string)
    | Array(items: seq<Json>)
    | Object(fields: seq<Field>)

  datatype Field = Field(key: string, value: Json)

  /** The type tag of a block that none of the named constructors stands for. */
  type OtherKind = kind: string | kind !in {"text", "thinking", "redacted_thinking", "tool_use", "tool_result"}
    witness ""

  /**
   * One content block of a chat message. A string field that is missing or not a string is "".
   * `Bare` is an element that is not an object at all.
   */
  datatype Block =
    | Bare(value: Json)
    | Text(text: string)
    | Thinking(thinking: string, signature: string)
    | RedactedThinking(data: string)
    | ToolUse(id: string, name: string, input: Json)
    | ToolResult(toolUseId: string, content: Content, isError: bool)
    | Other(kind: OtherKind, hasSource: bool, payload: Json)

  /** Message or tool-result content: a string, a list of blocks, or any other JSON value. */
  datatype Content = Plain(text: string) | Blocks(blocks: seq<Block>) | Value(json: Json)

  datatype Role = User | Assistant | OtherRole(name: string)

  datatype ChatMessage = ChatMessage(
    id: string, role: Role, content: Content, createdAt: int, forkEntryId: string,
    isMeta: bool, sourceToolUseId: string, isCompactSummary: bool)

  function AllBlocks(messages: seq<ChatMessage>): seq<Block> {
    if messages == [] then []
    else
      var m := messages[|messages| - 1];
      AllBlocks(messages[..|messages| - 1]) + if m.content.Blocks? then m.content.blocks else []
  }

  function BlockType(b: Block): string {
    match b
    case Bare(_) => ""
    case Text(_) => "text"
    case Thinking(_, _) => "thinking"
    case RedactedThinking(_) => "redacted_thinking"
    case ToolUse(_, _, _) => "tool_use"
    case ToolResult(_, _, _) => "tool_result"
    case Other(kind, _, _) => kind
  }

  /** A text that says something. */
  predicate Words(b: Block) {
    b.Text? && b.text != ""
  }

  /** Content blocks of a Pi log entry. */
  datatype PiBlock =
    | PiText(text: string)
    | PiThinking(thinking: string, signature: string)
    | PiToolCall(id: string, name: string, arguments: Json)
    | PiOther(kind: OtherKind, hasSource: bool, payload: Json)

  datatype PiContent = PiPlain(text: string) | PiBlocks(blocks: seq<PiBlock>) | PiValue(json: Json)

  datatype PiMessage =
    | PiUser(content: PiContent)
    | PiAssistant(content: PiContent, stopReason: string, providerError: string)
    | PiToolResult(toolCallId: string, content: PiContent, isError: bool)
    | PiOtherRole(name: string)

  /** One line of a Pi log. */
  datatype Entry =
    | Session(id: string, timestamp: int, cwd: string, source: string, threadId: string)
    | Message(id: string, parentId: Option<string>, timestamp: int, message: PiMessage)
    | Compaction(id: string, parentId: Option<string>, timestamp: int, summary: string,
                 firstKeptEntryId: string, tokensBefore: int)

  /**
   * What the model leaves abstract: how values print as JSON, how long the encoded forms are,
   * and the wording of a compaction summary. Every theorem holds for every choice of these.
   */
  datatype Codec = Codec(
    contentJson: Content -> string,
    piContentJson: PiContent -> string,
    argumentBytes: Json -> nat,
    lineBytes: Entry -> nat,
    summary: (string, seq<ChatMessage>, string, int, int) -> string)

  /** No JSON text is empty, and a summary has fixed wording besides the counted parts. */
  ghost predicate Sound(codec: Codec) {
    && (forall c :: codec.contentJson(c) != "")
    && (forall c :: codec.piContentJson(c) != "")
    && (forall s, ms, id, total, keep {:trigger codec.summary(s, ms, id, total, keep)} ::
          TrimSpace(codec.summary(s, ms, id, total, keep)) != "")
  }
}
