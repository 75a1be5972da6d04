/** What every migrated log satisfies, whatever the legacy messages were. */
module PiMigrationLog {
  import opened Prelude
  import opened Text
  import opened EntryIds
  import opened ChatBlocks
  import opened PiConversion
  import opened PiMigration

  function Ids(entries: seq<Entry>): set<string> {
    set i | 0 <= i < |entries| :: entries[i].id
  }

  /** All entry names are non-empty, trimmed (but for the session's) and different from each other. */
  ghost predicate DistinctIds(entries: seq<Entry>) {
    && (forall i :: 0 <= i < |entries| ==> entries[i].id != "")
    && (forall i, j :: 0 <= i < j < |entries| ==> entries[i].id != entries[j].id)
    && (forall i :: 1 <= i < |entries| ==> Trimmed(entries[i].id))
  }

  /** A session line, then messages that each hang on the one before; the first hangs on nothing. */
  ghost predicate Chained(entries: seq<Entry>) {
    && |entries| > 0 && entries[0].Session?
    && (forall i :: 1 <= i < |entries| ==>
          entries[i].Message? && entries[i].parentId == if i == 1 then None else Some(entries[i - 1].id))
  }

  /** A message with content; an answer stops for its tools if it calls any, and reports no error. */
  predicate HasContent(m: PiMessage) {
    && !m.PiOtherRole? && m.content.PiBlocks? && m.content.blocks != []
    && (m.PiAssistant? ==>
          && m.providerError == ""
          && m.stopReason == if exists i :: 0 <= i < |m.content.blocks| && m.content.blocks[i].PiToolCall? then "toolUse" else "stop")
  }

  predicate Announces(e: Entry, call: string) {
    e.Message? && e.message.PiAssistant? && e.message.content.PiBlocks? && call in CallIds(e.message.content.blocks)
  }

  ghost predicate AnnouncedBefore(entries: seq<Entry>, n: nat, call: string) {
    exists j :: 0 <= j < n && j < |entries| && Announces(entries[j], call)
  }

  /** Every tool result names a tool call in a strictly earlier entry. */
  ghost predicate Backed(entries: seq<Entry>) {
    forall i :: 0 <= i < |entries| && entries[i].Message? && entries[i].message.PiToolResult? ==>
      AnnouncedBefore(entries, i, entries[i].message.toolCallId)
  }

  ghost predicate WellFormed(entries: seq<Entry>) {
    && DistinctIds(entries)
    && Chained(entries)
    && (forall i :: 1 <= i < |entries| ==> HasContent(entries[i].message))
    && Backed(entries)
  }

  /** The bookkeeping that goes with a well-formed log. */
  ghost predicate Consistent(log: Log) {
    && WellFormed(log.entries)
    && Positive(log.used)
    && log.used.Keys == Ids(log.entries)
    && log.parent == if |log.entries| == 1 then None else Some(log.entries[|log.entries| - 1].id)
  }

  ghost predicate CallsAnnounced(log: Log, pending: seq<PiBlock>) {
    forall c :: c in log.calls ==> AnnouncedBefore(log.entries, |log.entries|, c) || c in CallIds(pending)
  }

  lemma AnnouncedStays(entries: seq<Entry>, e: Entry, n: nat, call: string)
    requires n <= |entries| && AnnouncedBefore(entries, n, call)
    ensures AnnouncedBefore(entries + [e], n, call)
    ensures AnnouncedBefore(entries + [e], |entries| + 1, call)
  {
    var j :| 0 <= j < n && j < |entries| && Announces(entries[j], call);
    assert Announces((entries + [e])[j], call);
  }

  lemma IdsAppend(entries: seq<Entry>, e: Entry)
    ensures Ids(entries + [e]) == Ids(entries) + {e.id}
  {
    var next := entries + [e];
    assert next[|entries|] == e;
    forall x | x in Ids(entries) ensures x in Ids(next) {
      var i :| 0 <= i < |entries| && entries[i].id == x;
      assert next[i].id == x;
    }
  }

  lemma BackedAppend(entries: seq<Entry>, e: Entry)
    requires Backed(entries)
    requires e.Message? && e.message.PiToolResult? ==> AnnouncedBefore(entries, |entries|, e.message.toolCallId)
    ensures Backed(entries + [e])
  {
    var next := entries + [e];
    forall i | 0 <= i < |next| && next[i].Message? && next[i].message.PiToolResult?
      ensures AnnouncedBefore(next, i, next[i].message.toolCallId)
    {
      AnnouncedStays(entries, e, i, next[i].message.toolCallId);
    }
  }

  lemma WellFormedAppend(entries: seq<Entry>, e: Entry)
    requires WellFormed(entries)
    requires e.id !in Ids(entries) && e.id != "" && Trimmed(e.id)
    requires e.Message? && e.parentId == if |entries| == 1 then None else Some(entries[|entries| - 1].id)
    requires HasContent(e.message)
    requires e.message.PiToolResult? ==> AnnouncedBefore(entries, |entries|, e.message.toolCallId)
    ensures WellFormed(entries + [e])
  {
    assert forall i :: 0 <= i < |entries| ==> entries[i].id in Ids(entries);
    hide Backed, Trimmed;
    BackedAppend(entries, e);
  }

  lemma EmitKeepsConsistent(log: Log, desired: string, stamp: int, message: PiMessage)
    requires Consistent(log)
    requires HasContent(message)
    requires message.PiToolResult? ==> AnnouncedBefore(log.entries, |log.entries|, message.toolCallId)
    ensures Consistent(Emit(log, desired, stamp, message))
    ensures forall c :: AnnouncedBefore(log.entries, |log.entries|, c) ==>
      AnnouncedBefore(Emit(log, desired, stamp, message).entries, |log.entries| + 1, c)
  {
    UniqueIdIsFresh(log.used, desired);
    var e := Message(UniqueId(log.used, desired), log.parent, stamp, message);
    WellFormedAppend(log.entries, e);
    IdsAppend(log.entries, e);
    forall c | AnnouncedBefore(log.entries, |log.entries|, c) ensures AnnouncedBefore(log.entries + [e], |log.entries| + 1, c) {
      AnnouncedStays(log.entries, e, |log.entries|, c);
    }
  }

  lemma FlushKeeps(t: Turn, base: string, stamp: int)
    requires Consistent(t.log) && CallsAnnounced(t.log, t.pending)
    ensures Consistent(Flush(t, base, stamp).log) && CallsAnnounced(Flush(t, base, stamp).log, [])
    ensures Flush(t, base, stamp).pending == []
  {
    hide Consistent;
    if t.pending != [] {
      var f := Flush(t, base, stamp);
      EmitKeepsConsistent(t.log, PartId(base, t.part), stamp, AssistantMessage(t.pending));
      forall c | c in f.log.calls ensures AnnouncedBefore(f.log.entries, |f.log.entries|, c) {
        if c in CallIds(t.pending) {
          assert Announces(f.log.entries[|t.log.entries|], c);
        }
      }
    }
  }

  lemma ConsistentWithMoreCalls(log: Log, calls: set<string>)
    requires Consistent(log)
    ensures Consistent(log.(calls := calls))
  {
    hide WellFormed;
  }

  lemma AddBlockKeeps(codec: Codec, t: Turn, base: string, stamp: int, index: nat, b: Block)
    requires Consistent(t.log) && CallsAnnounced(t.log, t.pending)
    ensures var r := AddBlock(codec, t, base, stamp, index, b);
            Consistent(r.log) && CallsAnnounced(r.log, r.pending)
  {
    hide Consistent, Flush;
    if b.ToolResult? {
      FlushKeeps(t, base, stamp);
      var f := Flush(t, base, stamp);
      if b.toolUseId == "" || b.toolUseId !in f.log.calls {
        EmitKeepsConsistent(f.log, OrphanId(base, index), stamp, PiUser(PiBlocks(OrphanContent(codec, b.toolUseId, b.content))));
      } else {
        EmitKeepsConsistent(f.log, ResultId(base, index), stamp,
          PiToolResult(b.toolUseId, PiBlocks([PiText(ResultText(codec, b.content))]), b.isError));
      }
    } else {
      var converted := ConvertBlock(codec, b);
      CallIdsOfConcat(t.pending, converted);
      ConsistentWithMoreCalls(t.log, t.log.calls + CallIds(converted));
    }
  }

  lemma CallIdsOfConcat(a: seq<PiBlock>, b: seq<PiBlock>)
    ensures CallIds(a + b) == CallIds(a) + CallIds(b)
  {
    forall x | x in CallIds(a) ensures x in CallIds(a + b) {
      var i :| 0 <= i < |a| && a[i].PiToolCall? && a[i].id != "" && a[i].id == x;
      assert (a + b)[i] == a[i];
    }
    forall x | x in CallIds(b) ensures x in CallIds(a + b) {
      var i :| 0 <= i < |b| && b[i].PiToolCall? && b[i].id != "" && b[i].id == x;
      assert (a + b)[|a| + i] == b[i];
    }
  }

  lemma {:induction false} AddBlocksKeeps(codec: Codec, log: Log, base: string, stamp: int, blocks: seq<Block>, n: nat)
    requires n <= |blocks|
    requires Consistent(log) && CallsAnnounced(log, [])
    ensures var t := AddBlocks(codec, log, base, stamp, blocks, n);
            Consistent(t.log) && CallsAnnounced(t.log, t.pending)
  {
    hide Consistent, AddBlock;
    if n > 0 {
      AddBlocksKeeps(codec, log, base, stamp, blocks, n - 1);
      AddBlockKeeps(codec, AddBlocks(codec, log, base, stamp, blocks, n - 1), base, stamp, n - 1, blocks[n - 1]);
    }
  }

  lemma AddMessageKeeps(codec: Codec, req: Request, log: Log, index: nat, m: ChatMessage)
    requires Consistent(log) && CallsAnnounced(log, [])
    ensures var r := AddMessage(codec, req, log, index, m); Consistent(r) && CallsAnnounced(r, [])
  {
    hide Consistent, AddBlocks, Flush;
    var stamp := Stamp(m.createdAt, req.now);
    if m.role.Assistant? && m.content.Blocks? {
      var base := BaseId("assistant", index, m.id);
      var blocks := m.content.blocks;
      AddBlocksKeeps(codec, log, base, stamp, blocks, |blocks|);
      FlushKeeps(AddBlocks(codec, log, base, stamp, blocks, |blocks|), base, stamp);
    } else if !m.role.OtherRole? && ConvertContent(codec, m.content) != [] {
      var content := ConvertContent(codec, m.content);
      if m.role.User? {
        EmitKeepsConsistent(log, BaseId("user", index, m.id), stamp, PiUser(PiBlocks(content)));
      } else {
        EmitKeepsConsistent(log, BaseId("assistant", index, m.id), stamp, AssistantMessage(content));
      }
    }
  }

  lemma StartIsConsistent(req: Request, messages: seq<ChatMessage>)
    ensures Consistent(Start(req, messages)) && CallsAnnounced(Start(req, messages), [])
  {
    IdsAppend([], Start(req, messages).entries[0]);
    assert [] + Start(req, messages).entries == Start(req, messages).entries;
  }

  lemma {:induction false} AddMessagesKeeps(codec: Codec, req: Request, messages: seq<ChatMessage>, n: nat)
    requires n <= |messages|
    ensures var log := AddMessages(codec, req, messages, n); Consistent(log) && CallsAnnounced(log, [])
  {
    hide Consistent, CallsAnnounced, AddMessage, Start;
    if n == 0 {
      StartIsConsistent(req, messages);
    } else {
      AddMessagesKeeps(codec, req, messages, n - 1);
      AddMessageKeeps(codec, req, AddMessages(codec, req, messages, n - 1), n - 1, messages[n - 1]);
    }
  }

  /** For every input, the migrated log is well formed. */
  lemma MigratedLogIsWellFormed(codec: Codec, req: Request, messages: seq<ChatMessage>)
    ensures WellFormed(BaseLog(codec, req, messages).entries)
    ensures BaseLog(codec, req, messages).used.Keys == Ids(BaseLog(codec, req, messages).entries)
  {
    AddMessagesKeeps(codec, req, messages, |messages|);
  }

  /** The time of the first message that has one; now if none has. */
  ghost predicate FirstTime(messages: seq<ChatMessage>, now: int, time: int) {
    if forall i :: 0 <= i < |messages| ==> messages[i].createdAt <= 0 then time == now
    else exists i :: 0 <= i < |messages| && messages[i].createdAt == time > 0 && forall j :: 0 <= j < i ==> messages[j].createdAt <= 0
  }

  lemma {:induction false} StartsAtFirstTime(messages: seq<ChatMessage>, now: int)
    ensures FirstTime(messages, now, StartedAt(messages, now))
  {
    if messages != [] && messages[0].createdAt <= 0 {
      var rest := messages[1..];
      StartsAtFirstTime(rest, now);
      assert forall i :: 0 <= i < |rest| ==> rest[i] == messages[i + 1];
      if i :| 0 <= i < |rest| && rest[i].createdAt == StartedAt(rest, now) > 0 && forall j :: 0 <= j < i ==> rest[j].createdAt <= 0 {
        assert forall j :: 0 <= j < i + 1 ==> messages[j].createdAt <= 0 by {
          forall j | 0 < j < i + 1 ensures messages[j].createdAt <= 0 { assert rest[j - 1].createdAt <= 0; }
        }
        assert messages[i + 1].createdAt == StartedAt(messages, now);
      } else {
        assert forall i :: 0 < i < |messages| ==> messages[i] == rest[i - 1];
      }
    }
  }

  lemma FlushAppends(t: Turn, base: string, stamp: int)
    ensures t.log.entries <= Flush(t, base, stamp).log.entries
  {
    hide UniqueId, Claim;
  }

  lemma {:induction false} BlocksAppend(codec: Codec, log: Log, base: string, stamp: int, blocks: seq<Block>, n: nat)
    requires n <= |blocks|
    ensures log.entries <= AddBlocks(codec, log, base, stamp, blocks, n).log.entries
  {
    hide UniqueId, Claim, Flush, ConvertBlock, ResultText, OrphanContent;
    if n > 0 {
      BlocksAppend(codec, log, base, stamp, blocks, n - 1);
      FlushAppends(AddBlocks(codec, log, base, stamp, blocks, n - 1), base, stamp);
    }
  }

  lemma MessageAppends(codec: Codec, req: Request, log: Log, index: nat, m: ChatMessage)
    ensures log.entries <= AddMessage(codec, req, log, index, m).entries
  {
    hide UniqueId, Claim, Flush, AddBlocks, ConvertContent;
    if m.role.Assistant? && m.content.Blocks? {
      var base, stamp, blocks := BaseId("assistant", index, m.id), Stamp(m.createdAt, req.now), m.content.blocks;
      BlocksAppend(codec, log, base, stamp, blocks, |blocks|);
      FlushAppends(AddBlocks(codec, log, base, stamp, blocks, |blocks|), base, stamp);
    }
  }

  lemma {:induction false} FirstLineStays(codec: Codec, req: Request, messages: seq<ChatMessage>, n: nat)
    requires n <= |messages|
    ensures Start(req, messages).entries <= AddMessages(codec, req, messages, n).entries
  {
    hide AddMessage, Start;
    if n > 0 {
      FirstLineStays(codec, req, messages, n - 1);
      MessageAppends(codec, req, AddMessages(codec, req, messages, n - 1), n - 1, messages[n - 1]);
    }
  }

  /** A migrated log starts with the line of its session: named after the thread, at the time of the first message. */
  lemma SessionLineIsFirst(codec: Codec, req: Request, messages: seq<ChatMessage>)
    requires req.now > 0
    ensures var entries := BaseLog(codec, req, messages).entries;
      && entries != [] && entries[0].Session? && FirstTime(messages, req.now, entries[0].timestamp)
      && entries[0] == Session("migrated-" + req.threadId, entries[0].timestamp, req.workspacePath, req.source, req.threadId)
  {
    FirstLineStays(codec, req, messages, |messages|);
    StartsAtFirstTime(messages, req.now);
    hide AddMessages, StartedAt;
    assert Start(req, messages).entries[0] == BaseLog(codec, req, messages).entries[0];
    hide FirstTime;
  }

  /** Since a tool result needs an earlier call, the first message of a log cannot be one. */
  lemma FirstMessageIsNoToolResult(entries: seq<Entry>)
    requires WellFormed(entries) && |entries| > 1
    ensures !entries[1].message.PiToolResult?
  {
    assert forall call :: !AnnouncedBefore(entries, 1, call);
  }
}
