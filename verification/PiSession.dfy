/** Reading a Pi log back into chat messages (internal/app/pi_session_messages.go). */
module PiSession {
  import opened Prelude
  import opened Text
  import opened ChatBlocks
  import opened ContentMerge

  function UiToolName(name: string): string {
    var trimmed := TrimSpace(name);
    if trimmed == "bash" then "Bash"
    else if trimmed == "read" then "Read"
    else if trimmed == "write" then "Write"
    else if trimmed == "edit" then "Edit"
    else if trimmed == "ls" || trimmed == "find" then "Glob"
    else if trimmed == "grep" then "Grep"
    else if trimmed == "agent" || trimmed == "explore" then "Agent"
    else if trimmed == "ask_user_question" || trimmed == "AskUserQuestion" then "AskUserQuestion"
    else if trimmed == "todo_write" || trimmed == "TodoWrite" then "TodoWrite"
    else if trimmed == "web_search" || trimmed == "WebSearch" then "WebSearch"
    else if trimmed == "web_fetch" || trimmed == "WebFetch" then "WebFetch"
    else if trimmed == "js_exec" then "JavaScript Exec"
    else name
  }

  function UiBlock(b: PiBlock): seq<Block> {
    match b
    case PiText(text) => if text != "" then [Text(text)] else []
    case PiThinking(thinking, signature) => if thinking != "" then [Thinking(thinking, signature)] else []
    case PiToolCall(id, name, arguments) =>
      if id == "" || name == "" then []
      else [ToolUse(id, UiToolName(name), if arguments.Object? then arguments else Object([]))]
    case PiOther(kind, hasSource, payload) =>
      if kind in {"image", "input_image", "screenshot", "document", "audio", "video", "file"}
      then [Other(kind, hasSource, payload)] else []
  }

  function UiBlockList(blocks: seq<PiBlock>): seq<Block> {
    if blocks == [] then []
    else UiBlockList(blocks[..|blocks| - 1]) + UiBlock(blocks[|blocks| - 1])
  }

  function UiBlocks(content: PiContent): seq<Block> {
    match content
    case PiPlain(text) => if text != "" then [Text(text)] else []
    case PiBlocks(blocks) => UiBlockList(blocks)
    case PiValue(_) => []
  }

  function Texts(blocks: seq<Block>): seq<string> {
    if blocks == [] then []
    else (if blocks[0].Text? && blocks[0].text != "" then [blocks[0].text] else []) + Texts(blocks[1..])
  }

  function UiResultContent(codec: Codec, content: PiContent): Content {
    var blocks := UiBlocks(content);
    if blocks == [] then
      match content
      case PiPlain(text) => Plain(text)
      case PiValue(Null) => Plain("")
      case _ => Plain(codec.piContentJson(content))
    else if forall i :: 0 <= i < |blocks| ==> blocks[i].Text? then Plain(Join(Texts(blocks), "\n"))
    else Blocks(blocks)
  }

  datatype Reader = Reader(messages: seq<ChatMessage>, group: Group)

  const FRESH_READER := Reader([], NO_GROUP)

  function UserMessage(id: string, content: seq<Block>, at: int): ChatMessage {
    ChatMessage(id, User, Blocks(content), at, id, false, "", false)
  }

  function AssistantMessage(id: string, content: seq<Block>, at: int, fork: string): ChatMessage {
    ChatMessage(id, Assistant, Blocks(content), at, fork, false, "", false)
  }

  /** The message that the open group becomes. */
  function GroupMessage(g: Group, count: nat, now: int): ChatMessage
    requires g.segments != []
  {
    var first, last := g.segments[0], g.segments[|g.segments| - 1];
    var id := if g.id != "" then g.id else if first.id != "" then first.id else "pi_assistant_" + Print(count);
    var fork := if last.id != "" then last.id else id;
    var at := if g.at.Some? then g.at.value else first.createdAt;
    AssistantMessage(id, SegmentBlocks(g.segments), if at <= 0 then now else at, fork)
  }

  function FlushGroup(r: Reader, now: int): Reader {
    if r.group.segments == [] then r
    else Reader(r.messages + [GroupMessage(r.group, |r.messages|, now)], NO_GROUP)
  }

  function ReaderId(count: nat): string {
    "pi_tool_result_" + Print(count)
  }

  function ReadToolResult(codec: Codec, r: Reader, callId: string, content: PiContent, at: int): Reader {
    var named := if TrimSpace(callId) == "" then ReaderId(|r.messages| + |r.group.segments|) else callId;
    var b := ToolResult(named, UiResultContent(codec, content), false);
    r.(group :=
      if r.group.segments == [] then Upsert(r.group, ReaderId(|r.messages|), [b], at)
      else AppendToLast(r.group, [b], at))
  }

  function ReadEntry(codec: Codec, r: Reader, e: Entry, now: int): Reader {
    if !e.Message? then r
    else
      match e.message
      case PiUser(content) =>
        var f := FlushGroup(r, now);
        var blocks := UiBlocks(content);
        if blocks == [] then f
        else
          var id := if e.id != "" then e.id else "pi_user_" + Print(|f.messages|);
          f.(messages := f.messages + [UserMessage(id, blocks, e.timestamp)])
      case PiAssistant(content, _, providerError) =>
        var converted := UiBlocks(content);
        var blocks := if converted == [] && providerError != "" then [Text(providerError)] else converted;
        if blocks == [] then r
        else
          var id := if e.id != "" then e.id else "pi_assistant_" + Print(|r.messages| + |r.group.segments|);
          r.(group := Upsert(r.group, id, blocks, e.timestamp))
      case PiToolResult(callId, content, _) => ReadToolResult(codec, r, callId, content, e.timestamp)
      case PiOtherRole(_) => r
  }

  function ReadEntries(codec: Codec, r: Reader, entries: seq<Entry>, now: int): Reader {
    if entries == [] then r
    else ReadEntry(codec, ReadEntries(codec, r, entries[..|entries| - 1], now), entries[|entries| - 1], now)
  }

  function ReadLog(codec: Codec, entries: seq<Entry>, now: int): seq<ChatMessage> {
    FlushGroup(ReadEntries(codec, FRESH_READER, entries, now), now).messages
  }

  method FlushAssistantGroup(group: AssistantGroup, messages: seq<ChatMessage>, now: int) returns (out: seq<ChatMessage>)
    modifies group
    ensures Reader(out, group.State()) == FlushGroup(Reader(messages, old(group.State())), now)
  {
    if |group.segments| == 0 { return messages; }
    var content := group.Flatten();
    var id := group.groupId;
    if id == "" { id := group.segments[0].id; }
    if id == "" { id := "pi_assistant_" + Print(|messages|); }
    var fork := id;
    var lastId := group.segments[|group.segments| - 1].id;
    if lastId != "" { fork := lastId; }
    var createdAt := group.segments[0].createdAt;
    if group.createdAt.Some? { createdAt := group.createdAt.value; }
    if createdAt <= 0 { createdAt := now; }
    out := messages + [AssistantMessage(id, content, createdAt, fork)];
    group.Reset();
  }

  method ParsePiMessages(codec: Codec, entries: seq<Entry>, now: int) returns (messages: seq<ChatMessage>)
    ensures messages == ReadLog(codec, entries, now)
  {
    hide UiBlocks, UiResultContent, TrimSpace, Upsert, AppendToLast, FlushGroup, ReaderId, Print;
    messages := [];
    var group := new AssistantGroup();
    var i := 0;
    while i < |entries|
      invariant i <= |entries|
      invariant fresh(group)
      invariant Reader(messages, group.State()) == ReadEntries(codec, FRESH_READER, entries[..i], now)
    {
      var e := entries[i];
      assert entries[..i + 1][..i] == entries[..i];
      i := i + 1;
      if !e.Message? { continue; }
      match e.message {
        case PiUser(content) =>
          messages := FlushAssistantGroup(group, messages, now);
          var blocks := UiBlocks(content);
          if |blocks| == 0 { continue; }
          var id := e.id;
          if id == "" { id := "pi_user_" + Print(|messages|); }
          messages := messages + [UserMessage(id, blocks, e.timestamp)];
        case PiAssistant(content, _, providerError) =>
          var blocks := UiBlocks(content);
          if |blocks| == 0 {
            if providerError == "" { continue; }
            blocks := [Text(providerError)];
          }
          var id := e.id;
          if id == "" { id := "pi_assistant_" + Print(|messages| + |group.segments|); }
          group.UpsertSegment(id, blocks, e.timestamp);
        case PiToolResult(callId, content, _) =>
          var named := callId;
          if TrimSpace(callId) == "" { named := ReaderId(|messages| + |group.segments|); }
          var b := ToolResult(named, UiResultContent(codec, content), false);
          if |group.segments| == 0 {
            group.UpsertSegment(ReaderId(|messages|), [b], e.timestamp);
          } else {
            group.AppendBlocks([b], e.timestamp);
          }
        case PiOtherRole(_) =>
      }
    }
    assert entries[..i] == entries;
    messages := FlushAssistantGroup(group, messages, now);
  }

  lemma {:induction false} ReadEntriesConcat(codec: Codec, r: Reader, a: seq<Entry>, b: seq<Entry>, now: int)
    ensures ReadEntries(codec, r, a + b, now) == ReadEntries(codec, ReadEntries(codec, r, a, now), b, now)
  {
    if b == [] {
      assert a + b == a;
    } else {
      assert (a + b)[..|a + b| - 1] == a + b[..|b| - 1];
      ReadEntriesConcat(codec, r, a, b[..|b| - 1], now);
    }
  }

  lemma ReadOneMore(codec: Codec, r: Reader, entries: seq<Entry>, e: Entry, now: int)
    ensures ReadEntries(codec, r, entries + [e], now) == ReadEntry(codec, ReadEntries(codec, r, entries, now), e, now)
  {
    assert (entries + [e])[..|entries|] == entries;
  }

  lemma {:induction false} UiBlockListConcat(a: seq<PiBlock>, b: seq<PiBlock>)
    ensures UiBlockList(a + b) == UiBlockList(a) + UiBlockList(b)
  {
    hide UiBlock;
    if b == [] {
      assert a + b == a;
    } else {
      assert (a + b)[..|a + b| - 1] == a + b[..|b| - 1];
      UiBlockListConcat(a, b[..|b| - 1]);
    }
  }

  lemma UiBlockListOne(b: PiBlock)
    ensures UiBlockList([b]) == UiBlock(b)
  {
    assert [b][..0] == [];
  }
}
