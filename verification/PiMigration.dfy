/** From parsed legacy messages to a linear Pi log (internal/app/pi_session_migration.go, buildHostPiMigrationJSONL). */
module PiMigration {
  import opened Prelude
  import opened Text
  import opened EntryIds
  import opened ChatBlocks
  import opened PiConversion

  /** What a migration is called with, and the clock reading it uses where a timestamp is missing. */
  datatype Request = Request(threadId: string, workspacePath: string, source: string, now: int)

  /** The log so far, the entry the next one hangs on, the names in use, and the tool calls already announced. */
  datatype Log = Log(entries: seq<Entry>, parent: Option<string>, used: map<string, nat>, calls: set<string>)

  /** An assistant message being split: blocks not written yet, and how many parts have been. */
  datatype Turn = Turn(log: Log, pending: seq<PiBlock>, part: nat)

  function Stamp(at: int, now: int): int {
    if at <= 0 then now else at
  }

  function StartedAt(messages: seq<ChatMessage>, now: int): int {
    if messages == [] then now
    else if messages[0].createdAt > 0 then messages[0].createdAt
    else StartedAt(messages[1..], now)
  }

  function SessionId(req: Request): string {
    "migrated-" + req.threadId
  }

  function BaseId(prefix: string, index: nat, preferred: string): string {
    if TrimSpace(preferred) != "" then preferred else "migration_" + prefix + "_" + Print(index)
  }

  function PartId(base: string, part: nat): string {
    if part > 0 then base + "_part_" + Print(part) else base
  }

  function ResultId(base: string, index: nat): string {
    base + "_tool_result_" + Print(index)
  }

  function OrphanId(base: string, index: nat): string {
    base + "_orphan_tool_result_" + Print(index)
  }

  function Start(req: Request, messages: seq<ChatMessage>): Log {
    var id := SessionId(req);
    var stamp := Stamp(StartedAt(messages, req.now), req.now);
    Log([Session(id, stamp, req.workspacePath, req.source, req.threadId)], None, map[id := 1], {})
  }

  /** Append one message entry under a unique name and make it the parent of the next. */
  function Emit(log: Log, desired: string, stamp: int, message: PiMessage): Log {
    var id := UniqueId(log.used, desired);
    Log(log.entries + [Message(id, log.parent, stamp, message)], Some(id), Claim(log.used, desired), log.calls)
  }

  function AssistantMessage(blocks: seq<PiBlock>): PiMessage {
    PiAssistant(PiBlocks(blocks), StopReason(blocks), "")
  }

  function Flush(t: Turn, base: string, stamp: int): Turn {
    if t.pending == [] then t
    else Turn(Emit(t.log, PartId(base, t.part), stamp, AssistantMessage(t.pending)), [], t.part + 1)
  }

  function CallIds(blocks: seq<PiBlock>): set<string> {
    set i | 0 <= i < |blocks| && blocks[i].PiToolCall? && blocks[i].id != "" :: blocks[i].id
  }

  function AddBlock(codec: Codec, t: Turn, base: string, stamp: int, index: nat, b: Block): Turn {
    if b.ToolResult? then
      var f := Flush(t, base, stamp);
      if b.toolUseId == "" || b.toolUseId !in f.log.calls then
        f.(log := Emit(f.log, OrphanId(base, index), stamp, PiUser(PiBlocks(OrphanContent(codec, b.toolUseId, b.content)))))
      else
        f.(log := Emit(f.log, ResultId(base, index), stamp,
          PiToolResult(b.toolUseId, PiBlocks([PiText(ResultText(codec, b.content))]), b.isError)))
    else
      var converted := ConvertBlock(codec, b);
      t.(log := t.log.(calls := t.log.calls + CallIds(converted)), pending := t.pending + converted)
  }

  function AddBlocks(codec: Codec, log: Log, base: string, stamp: int, blocks: seq<Block>, n: nat): Turn
    requires n <= |blocks|
  {
    if n == 0 then Turn(log, [], 0)
    else AddBlock(codec, AddBlocks(codec, log, base, stamp, blocks, n - 1), base, stamp, n - 1, blocks[n - 1])
  }

  function AddMessage(codec: Codec, req: Request, log: Log, index: nat, m: ChatMessage): Log {
    var stamp := Stamp(m.createdAt, req.now);
    match m.role
    case User =>
      var content := ConvertContent(codec, m.content);
      if content == [] then log else Emit(log, BaseId("user", index, m.id), stamp, PiUser(PiBlocks(content)))
    case Assistant =>
      var base := BaseId("assistant", index, m.id);
      if m.content.Blocks? then
        Flush(AddBlocks(codec, log, base, stamp, m.content.blocks, |m.content.blocks|), base, stamp).log
      else
        var content := ConvertContent(codec, m.content);
        if content == [] then log else Emit(log, base, stamp, AssistantMessage(content))
    case OtherRole(_) => log
  }

  function AddMessages(codec: Codec, req: Request, messages: seq<ChatMessage>, n: nat): Log
    requires n <= |messages|
  {
    if n == 0 then Start(req, messages)
    else AddMessage(codec, req, AddMessages(codec, req, messages, n - 1), n - 1, messages[n - 1])
  }

  /** The log before any compaction entry. */
  function BaseLog(codec: Codec, req: Request, messages: seq<ChatMessage>): Log {
    AddMessages(codec, req, messages, |messages|)
  }

  /** The variables that buildHostPiMigrationJSONL and its closures update. */
  class Builder {
    const codec: Codec
    const req: Request
    const ids: UsedIds
    var lines: seq<Entry>
    var parentId: Option<string>
    var calls: set<string>
    var pending: seq<PiBlock>
    var part: nat

    ghost function State(): Log
      reads this, ids
    {
      Log(lines, parentId, ids.used, calls)
    }

    ghost function TurnState(): Turn
      reads this, ids
    {
      Turn(State(), pending, part)
    }

    ghost predicate Valid()
      reads this, ids
    {
      Positive(ids.used)
    }

    constructor (codec: Codec, req: Request, messages: seq<ChatMessage>)
      ensures Valid() && fresh(ids)
      ensures this.codec == codec && this.req == req
      ensures State() == Start(req, messages)
    {
      this.codec := codec;
      this.req := req;
      var id := SessionId(req);
      var at := req.now;
      var i := 0;
      while i < |messages| && messages[i].createdAt <= 0
        invariant i <= |messages|
        invariant StartedAt(messages, req.now) == StartedAt(messages[i..], req.now)
      {
        assert messages[i..][1..] == messages[i + 1..];
        i := i + 1;
      }
      if i < |messages| { at := messages[i].createdAt; }
      ids := new UsedIds(map[id := 1]);
      lines := [Session(id, Stamp(at, req.now), req.workspacePath, req.source, req.threadId)];
      parentId, calls, pending, part := None, {}, [], 0;
    }

    method EmitEntry(desired: string, stamp: int, message: PiMessage)
      requires Valid()
      modifies this, ids
      ensures Valid()
      ensures State() == Emit(old(State()), desired, stamp, message)
      ensures pending == old(pending) && part == old(part)
    {
      var id := ids.Unique(desired);
      lines := lines + [Message(id, parentId, stamp, message)];
      parentId := Some(id);
    }

    method FlushAssistant(base: string, stamp: int)
      requires Valid()
      modifies this, ids
      ensures Valid()
      ensures TurnState() == Flush(old(TurnState()), base, stamp)
    {
      if |pending| == 0 { return; }
      var id := base;
      if part > 0 {
        id := base + "_part_" + Print(part);
      }
      EmitEntry(id, stamp, AssistantMessage(pending));
      part := part + 1;
      pending := [];
    }

    method AddAssistantBlock(base: string, stamp: int, index: nat, b: Block)
      requires Valid()
      modifies this, ids
      ensures Valid()
      ensures TurnState() == AddBlock(codec, old(TurnState()), base, stamp, index, b)
    {
      hide Emit, Flush, ConvertBlock, ResultText, OrphanContent;
      if b.ToolResult? {
        FlushAssistant(base, stamp);
        if b.toolUseId == "" || b.toolUseId !in calls {
          EmitEntry(OrphanId(base, index), stamp, PiUser(PiBlocks(OrphanContent(codec, b.toolUseId, b.content))));
          return;
        }
        EmitEntry(ResultId(base, index), stamp,
          PiToolResult(b.toolUseId, PiBlocks([PiText(ResultText(codec, b.content))]), b.isError));
        return;
      }
      var converted := ConvertBlock(codec, b);
      var i := 0;
      while i < |converted|
        invariant i <= |converted|
        invariant calls == old(calls) + CallIds(converted[..i])
        invariant lines == old(lines) && parentId == old(parentId) && ids.used == old(ids.used)
        invariant pending == old(pending) && part == old(part)
      {
        assert converted[..i + 1] == converted[..i] + [converted[i]];
        CallIdsAppend(converted[..i], converted[i]);
        if converted[i].PiToolCall? && converted[i].id != "" {
          calls := calls + {converted[i].id};
        }
        i := i + 1;
      }
      assert converted[..i] == converted;
      pending := pending + converted;
    }

    method AddChatMessage(index: nat, m: ChatMessage)
      requires Valid()
      modifies this, ids
      ensures Valid()
      ensures State() == AddMessage(codec, req, old(State()), index, m)
    {
      hide Emit, Flush, AddBlock;
      var stamp := Stamp(m.createdAt, req.now);
      match m.role {
        case User =>
          var content := ConvertContent(codec, m.content);
          if |content| != 0 {
            EmitEntry(BaseId("user", index, m.id), stamp, PiUser(PiBlocks(content)));
          }
        case Assistant =>
          if !m.content.Blocks? {
            var content := ConvertContent(codec, m.content);
            if |content| != 0 {
              EmitEntry(BaseId("assistant", index, m.id), stamp, AssistantMessage(content));
            }
            return;
          }
          pending, part := [], 0;
          var base := BaseId("assistant", index, m.id);
          ghost var start := old(State());
          var i := 0;
          while i < |m.content.blocks|
            invariant i <= |m.content.blocks|
            invariant Valid()
            invariant TurnState() == AddBlocks(codec, start, base, stamp, m.content.blocks, i)
          {
            AddAssistantBlock(base, stamp, i, m.content.blocks[i]);
            i := i + 1;
          }
          FlushAssistant(base, stamp);
        case OtherRole(_) =>
      }
    }

    method AddAll(messages: seq<ChatMessage>)
      requires Valid()
      requires State() == Start(req, messages)
      modifies this, ids
      ensures Valid()
      ensures State() == BaseLog(codec, req, messages)
    {
      hide AddMessage;
      var i := 0;
      while i < |messages|
        invariant i <= |messages|
        invariant Valid()
        invariant State() == AddMessages(codec, req, messages, i)
      {
        AddChatMessage(i, messages[i]);
        i := i + 1;
      }
    }
  }

  lemma CallIdsAppend(a: seq<PiBlock>, b: PiBlock)
    ensures CallIds(a + [b]) == CallIds(a) + CallIds([b])
    ensures CallIds([b]) == if b.PiToolCall? && b.id != "" then {b.id} else {}
  {
    var ab := a + [b];
    forall x ensures x in CallIds(ab) <==> x in CallIds(a) + CallIds([b]) {
      if x in CallIds(a) {
        var i :| 0 <= i < |a| && a[i].PiToolCall? && a[i].id != "" && a[i].id == x;
        assert ab[i] == a[i];
      }
      if x in CallIds([b]) { assert ab[|a|] == b; }
      if x in CallIds(ab) {
        var i :| 0 <= i < |ab| && ab[i].PiToolCall? && ab[i].id != "" && ab[i].id == x;
        if i < |a| { assert a[i] == ab[i]; } else { assert [b][0] == ab[i]; }
      }
    }
    assert b.PiToolCall? && b.id != "" ==> [b][0].id in CallIds([b]);
  }
}
