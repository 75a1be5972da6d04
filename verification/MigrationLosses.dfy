/** Chats that do not come back from a migration as they were, where the exact conditions of the other modules fail. */
module MigrationLosses {
  import opened Prelude
  import opened Text
  import opened EntryIds
  import opened ChatBlocks
  import opened PiConversion
  import opened PiMigration
  import opened PiMigrationLog
  import opened PiCompaction
  import opened PiSession
  import opened ReaderNames
  import opened PiSessionCompaction
  import RoundTrip

  /* A lost message */

  /**
   * A call, a user message, the late result of the call, and a user message that bears just the name which the
   * reader gives to that result.
   */
  const COLLIDING_CHAT: seq<ChatMessage> := [
    ChatMessage("a", Assistant, Blocks([ToolUse("c", "Read", Object([]))]), 1, "a", false, "", false),
    ChatMessage("u", User, Plain("hi"), 2, "u", false, "", false),
    ChatMessage("b", Assistant, Blocks([ToolResult("c", Plain("out"), false)]), 3, "b", false, "", false),
    ChatMessage("pi_tool_result_2", User, Plain("bye"), 4, "pi_tool_result_2", false, "", false)]

  predicate ShowsAs(e: Entry, user: bool) {
    Shows(e) && if user then e.message.PiUser? else e.message.PiAssistant?
  }

  lemma UserStepShows(codec: Codec, req: Request, log: Log, index: nat, m: ChatMessage)
    requires m.role.User? && m.content.Plain? && TrimSpace(m.content.text) != "" && |m.content.text| <= MAX_TEXT_BLOCK_CHARS
    ensures var next := AddMessage(codec, req, log, index, m);
      && |next.entries| == |log.entries| + 1 && log.entries <= next.entries && ShowsAs(next.entries[|log.entries|], true)
      && next.entries[|log.entries|].id == UniqueId(log.used, BaseId("user", index, m.id))
      && next.calls == log.calls
  {
    UiBlockListOne(PiText(m.content.text));
    TrimSpaceTrims("");
    hide TrimSpace, UniqueId, Claim, BaseId, UiBlockList;
  }

  lemma CallConverts(codec: Codec)
    ensures var converted := ConvertBlock(codec, ToolUse("c", "Read", Object([])));
      converted != [] && "c" in CallIds(converted) && UiBlockList(converted) != []
  {
    var converted := ConvertBlock(codec, ToolUse("c", "Read", Object([])));
    hide ToolArguments, UiToolName;
    assert converted[0].PiToolCall? && converted[0].id in CallIds(converted);
    UiBlockListOne(converted[0]);
    assert [converted[0]] == converted;
  }

  lemma CallStepShows(codec: Codec, req: Request, log: Log, m: ChatMessage)
    requires m.role.Assistant? && m.content == Blocks([ToolUse("c", "Read", Object([]))])
    ensures var next := AddMessage(codec, req, log, 0, m);
      && |next.entries| == |log.entries| + 1 && log.entries <= next.entries && ShowsAs(next.entries[|log.entries|], false)
      && "c" in next.calls
  {
    var blocks, base, stamp := m.content.blocks, BaseId("assistant", 0, m.id), Stamp(m.createdAt, req.now);
    CallConverts(codec);
    hide UniqueId, Claim, BaseId, UiBlockList, ConvertBlock, CallIds, Stamp, Flush, ShowsAs;
    assert AddBlocks(codec, log, base, stamp, blocks, 0) == Turn(log, [], 0);
    FlushShows(AddBlocks(codec, log, base, stamp, blocks, 1), base, stamp);
  }

  lemma FlushShows(t: Turn, base: string, stamp: int)
    requires t.pending != [] && UiBlockList(t.pending) != []
    ensures var next := Flush(t, base, stamp).log;
      && |next.entries| == |t.log.entries| + 1 && t.log.entries <= next.entries && ShowsAs(next.entries[|t.log.entries|], false)
      && next.calls == t.log.calls
  {
    hide UniqueId, Claim, UiBlockList, PartId, StopReason;
  }

  lemma ResultStepShows(codec: Codec, req: Request, log: Log, m: ChatMessage)
    requires m.role.Assistant? && m.content == Blocks([ToolResult("c", Plain("out"), false)]) && "c" in log.calls
    ensures var next := AddMessage(codec, req, log, 2, m);
      && |next.entries| == |log.entries| + 1 && log.entries <= next.entries
      && next.entries[|log.entries|].Message? && next.entries[|log.entries|].message.PiToolResult?
  {
    var blocks, base, stamp := m.content.blocks, BaseId("assistant", 2, m.id), Stamp(m.createdAt, req.now);
    hide UniqueId, Claim, BaseId, ResultText;
    assert AddBlocks(codec, log, base, stamp, blocks, 0) == Turn(log, [], 0);
    assert AddBlocks(codec, log, base, stamp, blocks, 1).pending == [];
  }

  lemma DistinctInitialsArePlain(req: Request, messages: seq<ChatMessage>)
    requires forall i :: 0 <= i < |messages| ==> messages[i].id != "" && Trimmed(messages[i].id) && messages[i].id[0] != 'm'
    requires forall j, i :: 0 <= j < i < |messages| ==> messages[j].id[0] != messages[i].id[0]
    ensures RoundTrip.PlainIds(req, messages)
  {
    assert SessionId(req)[0] == 'm';
    hide SessionId, Trimmed;
    forall j, i | 0 <= j < i < |messages| ensures !RoundTrip.Derived(messages[j].id, messages[i].id) {
      NotDerived(messages[j].id, messages[i].id);
    }
  }

  lemma NotDerived(base: string, id: string)
    requires base != "" && id != "" && base[0] != id[0]
    ensures !RoundTrip.Derived(base, id)
  {
  }

  lemma CollidingIdsArePlain(req: Request)
    ensures RoundTrip.PlainIds(req, COLLIDING_CHAT)
  {
    var c := COLLIDING_CHAT;
    hide RoundTrip.PlainIds;
    assert c[0].id[0] == 'a' && c[1].id[0] == 'u' && c[2].id[0] == 'b' && c[3].id[0] == 'p';
    DistinctInitialsArePlain(req, c);
  }

  lemma CollidingStart(codec: Codec, req: Request)
    ensures var entries := AddMessages(codec, req, COLLIDING_CHAT, 3).entries;
      && |entries| == 4 && !entries[0].Message? && ShowsAs(entries[1], false) && ShowsAs(entries[2], true)
      && entries[3].Message? && entries[3].message.PiToolResult?
  {
    var c := COLLIDING_CHAT;
    CollidingTexts();
    hide AddMessage, TrimSpace, UniqueId, BaseId, ShowsAs, StartedAt, Stamp;
    CallStepShows(codec, req, AddMessages(codec, req, c, 0), c[0]);
    UserStepShows(codec, req, AddMessages(codec, req, c, 1), 1, c[1]);
    ResultStepShows(codec, req, AddMessages(codec, req, c, 2), c[2]);
  }

  lemma CollidingShapes(codec: Codec, req: Request)
    ensures var entries := BaseLog(codec, req, COLLIDING_CHAT).entries;
      && |entries| == 5 && !entries[0].Message? && ShowsAs(entries[1], false) && ShowsAs(entries[2], true)
      && entries[3].Message? && entries[3].message.PiToolResult? && ShowsAs(entries[4], true)
      && entries[4].id == "pi_tool_result_2"
  {
    var c := COLLIDING_CHAT;
    var log := AddMessages(codec, req, c, 3);
    CollidingTexts();
    CollidingIdsArePlain(req);
    RoundTrip.PlainIdsAreKept(codec, req, c, 3);
    assert UniqueId(log.used, BaseId("user", 3, c[3].id)) == c[3].id;
    hide AddMessage, RoundTrip.PlainIds, TrimSpace, UniqueId, BaseId, ShowsAs;
    CollidingStart(codec, req);
    UserStepShows(codec, req, log, 3, c[3]);
    assert BaseLog(codec, req, c) == AddMessage(codec, req, log, 3, c[3]);
  }

  lemma CollidingTexts()
    ensures TrimSpace("hi") != "" && TrimSpace("bye") != ""
  {
    TrimSpaceTrims("hi");
    TrimSpaceTrims("bye");
  }

  lemma ShapesCollide(entries: seq<Entry>)
    requires |entries| == 5 && !entries[0].Message? && ShowsAs(entries[1], false) && ShowsAs(entries[2], true)
    requires entries[3].Message? && entries[3].message.PiToolResult? && ShowsAs(entries[4], true)
    requires entries[4].id == ReaderId(2)
    ensures Collides(entries, 0)
  {
    hide ReaderId;
    assert !Open(entries, 1) && Open(entries, 2) && !Open(entries, 3);
    assert !StartsMessage(entries, 0) && StartsMessage(entries, 1) && StartsMessage(entries, 2);
    assert Position(entries, 1) == 0;
    assert Position(entries, 2) == 1;
    assert Position(entries, 3) == 2;
    assert NamesMessage(entries, 4) && OpensWithResult(entries, 3);
  }

  /** The migration writes a well-formed log for this chat, but reading it drops a message as a repetition. */
  lemma ReaderNamesCollide(codec: Codec, req: Request, now: int)
    ensures var entries := BaseLog(codec, req, COLLIDING_CHAT).entries;
      Collides(entries, 0) && Dedup(ReadLog(codec, entries, now)) != ReadLog(codec, entries, now)
  {
    var entries := BaseLog(codec, req, COLLIDING_CHAT).entries;
    CollidingShapes(codec, req);
    assert ReaderId(2) == "pi_tool_result_2" by { assert Print(2) == "2"; }
    MigratedLogIsWellFormed(codec, req, COLLIDING_CHAT);
    hide ReaderId, BaseLog, ShowsAs, Collides, ReadLog, Dedup;
    ShapesCollide(entries);
    DistinctIdsAreNamed(entries);
    ReadNamesAreDistinct(codec, entries, now);
  }

  /* A compaction without effect */

  /** The longest text that a migrated block keeps. */
  const LINE: string := seq(MAX_TEXT_BLOCK_CHARS, _ => 'x')

  function Lines(n: nat): seq<Block> {
    seq(n, _ => Text(LINE))
  }

  function PiLines(n: nat): seq<PiBlock> {
    seq(n, _ => PiText(LINE))
  }

  const CALL_AND_RESULT: seq<Block> := [ToolUse("c", "Read", Object([])), ToolResult("c", Plain("out"), false)]

  /** A long request, and an answer that goes on at some length after a tool result. */
  function LongChat(request: nat, rest: nat): seq<ChatMessage> {
    [ChatMessage("u", User, Blocks(Lines(request)), 1, "u", false, "", false),
     ChatMessage("a", Assistant, Blocks(CALL_AND_RESULT + Lines(rest)), 2, "a", false, "", false)]
  }

  function TextLength(blocks: seq<PiBlock>): nat {
    if blocks == [] then 0
    else TextLength(blocks[..|blocks| - 1]) + if blocks[|blocks| - 1].PiText? then |blocks[|blocks| - 1].text| else 0
  }

  /** Any encoding writes at least a byte for each character of a text. */
  ghost predicate WritesTexts(codec: Codec) {
    forall e: Entry :: e.Message? && !e.message.PiOtherRole? && e.message.content.PiBlocks? ==>
      codec.lineBytes(e) >= TextLength(e.message.content.blocks)
  }

  lemma {:induction false} LinesAreLong(n: nat)
    ensures TextLength(PiLines(n)) == n * MAX_TEXT_BLOCK_CHARS
  {
    if n > 0 {
      LinesAreLong(n - 1);
      assert PiLines(n)[..n - 1] == PiLines(n - 1) && |LINE| == MAX_TEXT_BLOCK_CHARS;
    }
  }

  lemma {:induction false} LineConverts(codec: Codec)
    ensures ConvertBlock(codec, Text(LINE)) == [PiText(LINE)]
  {
    assert |LINE| == MAX_TEXT_BLOCK_CHARS;
  }

  lemma {:induction false} LinesConvert(codec: Codec, n: nat)
    ensures ConvertBlocks(codec, Lines(n)) == PiLines(n)
  {
    hide ConvertBlock;
    if n > 0 {
      LinesConvert(codec, n - 1);
      LineConverts(codec);
      assert Lines(n)[..n - 1] == Lines(n - 1) && Lines(n)[n - 1] == Text(LINE);
      assert PiLines(n) == PiLines(n - 1) + [PiText(LINE)];
    }
  }

  predicate HoldsLines(e: Entry, user: bool, n: nat) {
    && e.Message? && !e.message.PiOtherRole? && e.message.content == PiBlocks(PiLines(n))
    && if user then e.message.PiUser? else e.message.PiAssistant?
  }

  lemma {:induction false} RequestStep(codec: Codec, req: Request, log: Log, n: nat)
    requires n > 0
    ensures var entries := AddMessage(codec, req, log, 0, LongChat(n, 0)[0]).entries;
      |entries| == |log.entries| + 1 && log.entries <= entries && HoldsLines(entries[|log.entries|], true, n)
  {
    LinesConvert(codec, n);
    hide UniqueId, Claim, BaseId, Lines, ConvertBlocks, Stamp;
    assert PiLines(n) != [];
  }

  lemma {:induction false} CallIsPending(codec: Codec, log: Log, base: string, stamp: int, blocks: seq<Block>)
    requires CALL_AND_RESULT <= blocks
    ensures var t := AddBlocks(codec, log, base, stamp, blocks, 1);
      t.log.entries == log.entries && t.pending != [] && UiBlockList(t.pending) != [] && "c" in t.log.calls
  {
    assert blocks[0] == CALL_AND_RESULT[0];
    CallConverts(codec);
    hide UiBlockList, CallIds, ConvertBlock;
    assert AddBlocks(codec, log, base, stamp, blocks, 0) == Turn(log, [], 0);
  }

  lemma {:induction false} ResultFollows(codec: Codec, t: Turn, base: string, stamp: int, b: Block)
    requires b == CALL_AND_RESULT[1] && t.pending != [] && UiBlockList(t.pending) != [] && "c" in t.log.calls
    ensures var next := AddBlock(codec, t, base, stamp, 1, b);
      && |next.log.entries| == |t.log.entries| + 2 && t.log.entries <= next.log.entries && next.pending == []
      && ShowsAs(next.log.entries[|t.log.entries|], false)
      && next.log.entries[|t.log.entries| + 1].Message? && next.log.entries[|t.log.entries| + 1].message.PiToolResult?
  {
    hide UniqueId, Claim, UiBlockList, Flush, ShowsAs, ResultText, ResultId;
    FlushShows(t, base, stamp);
    FlushEmpties(t, base, stamp);
  }

  /** After the call and its result, two entries are written and nothing is pending. */
  lemma {:induction false} CallAndResultStep(codec: Codec, log: Log, base: string, stamp: int, blocks: seq<Block>)
    requires CALL_AND_RESULT <= blocks
    ensures var t := AddBlocks(codec, log, base, stamp, blocks, 2);
      && |t.log.entries| == |log.entries| + 2 && log.entries <= t.log.entries && t.pending == []
      && ShowsAs(t.log.entries[|log.entries|], false)
      && t.log.entries[|log.entries| + 1].Message? && t.log.entries[|log.entries| + 1].message.PiToolResult?
  {
    var one := AddBlocks(codec, log, base, stamp, blocks, 1);
    assert blocks[1] == CALL_AND_RESULT[1] && AddBlocks(codec, log, base, stamp, blocks, 2) == AddBlock(codec, one, base, stamp, 1, blocks[1]);
    hide AddBlock, AddBlocks, ShowsAs, UiBlockList;
    CallIsPending(codec, log, base, stamp, blocks);
    ResultFollows(codec, one, base, stamp, blocks[1]);
  }

  lemma {:induction false} FlushEmpties(t: Turn, base: string, stamp: int)
    ensures Flush(t, base, stamp).pending == []
  {
    hide Emit, PartId;
  }

  lemma {:induction false} LinesArePending(codec: Codec, log: Log, base: string, stamp: int, blocks: seq<Block>, n: nat)
    requires 2 + n <= |blocks| && (forall i :: 2 <= i < |blocks| ==> blocks[i] == Text(LINE))
    requires AddBlocks(codec, log, base, stamp, blocks, 2).pending == []
    ensures var t := AddBlocks(codec, log, base, stamp, blocks, 2 + n);
      t.log.entries == AddBlocks(codec, log, base, stamp, blocks, 2).log.entries && t.pending == PiLines(n)
  {
    if n == 0 {
      assert PiLines(0) == [];
    } else {
      hide AddBlock, PiLines, LINE;
      LinesArePending(codec, log, base, stamp, blocks, n - 1);
      LineIsAdded(codec, AddBlocks(codec, log, base, stamp, blocks, n + 1), base, stamp, n + 1);
      OneMoreLine(n - 1);
    }
  }

  lemma {:induction false} LineIsAdded(codec: Codec, t: Turn, base: string, stamp: int, index: nat)
    ensures var next := AddBlock(codec, t, base, stamp, index, Text(LINE));
      next.log.entries == t.log.entries && next.pending == t.pending + [PiText(LINE)]
  {
    LineConverts(codec);
    hide ConvertBlock, CallIds, LINE;
  }

  lemma {:induction false} OneMoreLine(n: nat)
    ensures PiLines(n + 1) == PiLines(n) + [PiText(LINE)]
  {
    hide LINE;
  }

  lemma {:induction false} AnswerStep(codec: Codec, req: Request, log: Log, n: nat)
    requires n > 0
    ensures var entries := AddMessage(codec, req, log, 1, LongChat(0, n)[1]).entries; var k := |log.entries|;
      && |entries| == k + 3 && log.entries <= entries && ShowsAs(entries[k], false)
      && entries[k + 1].Message? && entries[k + 1].message.PiToolResult? && HoldsLines(entries[k + 2], false, n)
  {
    var blocks, base, stamp := CALL_AND_RESULT + Lines(n), BaseId("assistant", 1, "a"), Stamp(2, req.now);
    assert |blocks| == 2 + n && blocks[..2] == CALL_AND_RESULT && PiLines(n) != [];
    hide BaseId, Stamp, AddBlocks, Flush, ShowsAs, PiLines, Lines;
    CallAndResultStep(codec, log, base, stamp, blocks);
    assert forall i :: 2 <= i < |blocks| ==> blocks[i] == Text(LINE) by { LinesFollow(n); }
    LinesArePending(codec, log, base, stamp, blocks, n);
    LastPart(AddBlocks(codec, log, base, stamp, blocks, 2 + n), base, stamp, n);
  }

  lemma {:induction false} LinesFollow(n: nat)
    ensures forall i :: 2 <= i < n + 2 ==> (CALL_AND_RESULT + Lines(n))[i] == Text(LINE)
  {
  }

  lemma {:induction false} LastPart(t: Turn, base: string, stamp: int, n: nat)
    requires t.pending == PiLines(n) != []
    ensures var entries := Flush(t, base, stamp).log.entries;
      |entries| == |t.log.entries| + 1 && t.log.entries <= entries && HoldsLines(entries[|t.log.entries|], false, n)
  {
    hide UniqueId, Claim, PartId, StopReason, PiLines;
  }

  /** The log of such a chat: session line, request, call, result, and the rest of the answer. */
  ghost predicate LongLog(entries: seq<Entry>, request: nat, rest: nat) {
    && |entries| == 5 && !entries[0].Message? && HoldsLines(entries[1], true, request) && ShowsAs(entries[2], false)
    && entries[3].Message? && entries[3].message.PiToolResult? && HoldsLines(entries[4], false, rest)
  }

  lemma {:induction false} LongChatIsLogged(codec: Codec, req: Request, request: nat, rest: nat)
    requires request > 0 && rest > 0
    ensures LongLog(BaseLog(codec, req, LongChat(request, rest)).entries, request, rest)
  {
    var c := LongChat(request, rest);
    hide AddMessage, HoldsLines, ShowsAs, StartedAt, Stamp, Lines;
    RequestStep(codec, req, AddMessages(codec, req, c, 0), request);
    AnswerStep(codec, req, AddMessages(codec, req, c, 1), rest);
    assert BaseLog(codec, req, c) == AddMessage(codec, req, AddMessages(codec, req, c, 1), 1, c[1]);
  }

  lemma {:induction false} InnerShapes(entries: seq<Entry>, request: nat, rest: nat)
    requires LongLog(entries, request, rest)
    ensures !NamesMessage(entries, 4) && !NamesResult(entries, entries[4].id) && !Collides(entries, 0)
  {
    hide UiBlocks, PiLines, ReaderId, Position;
    assert Open(entries, 3) && Open(entries, 4);
    assert forall t: nat :: t < |entries| ==> !OpensWithResult(entries, t);
  }

  /** A request longer than the threshold and a rest of the answer longer than the tail to keep put the cut at the rest. */
  lemma {:induction false} LongChatIsCut(codec: Codec, req: Request, request: nat, rest: nat, out: seq<Entry>)
    requires WritesTexts(codec) && RoundTrip.Migrates(codec, req, LongChat(request, rest), out)
    requires request * MAX_TEXT_BLOCK_CHARS >= COMPACT_THRESHOLD_BYTES && rest * MAX_TEXT_BLOCK_CHARS >= KEEP_TAIL_BYTES
    ensures var base := BaseLog(codec, req, LongChat(request, rest)).entries;
      LongLog(base, request, rest) && |out| == 6 && out[5].Compaction? && out[5].firstKeptEntryId == base[4].id
  {
    var chat := LongChat(request, rest);
    var base := BaseLog(codec, req, chat).entries;
    LongChatIsLogged(codec, req, request, rest);
    LongLinesCount(codec, base, request, rest);
    MigratedLogIsWellFormed(codec, req, chat);
    OversizedLogIsCompacted(codec, req, chat, out);
    assert IsStartingLine(base[4]);
    hide BaseLog, LongChat, HoldsLines, ShowsAs, CutOf, Bytes, Compacts, WellFormed, IsStartingLine, WritesTexts;
    var k: nat :| k < |base| && CutOf(codec, base, KEEP_TAIL_BYTES, Some(k)) && out[|base|].firstKeptEntryId == base[k].id;
    LongLastLineIsCut(codec, base, Some(k));
  }

  lemma {:induction false} LongLinesCount(codec: Codec, entries: seq<Entry>, request: nat, rest: nat)
    requires WritesTexts(codec) && LongLog(entries, request, rest)
    ensures Bytes(codec, entries) > request * MAX_TEXT_BLOCK_CHARS
    ensures codec.lineBytes(entries[4]) >= rest * MAX_TEXT_BLOCK_CHARS
  {
    LinesAreLong(request);
    LinesAreLong(rest);
    hide PiLines, ShowsAs, TextLength;
    BytesGrow(codec, entries, 2);
    assert entries[..2][..1] == entries[..1] && entries[..2][1] == entries[1];
    assert Bytes(codec, entries[..2]) == Bytes(codec, entries[..1]) + codec.lineBytes(entries[1]) + 1;
  }

  lemma {:induction false} LongChatIsClean(codec: Codec, request: nat, rest: nat)
    requires request > 0 && codec.argumentBytes(Object([])) <= MAX_ARGUMENT_JSON_BYTES
    ensures RoundTrip.CleanChat(codec, LongChat(request, rest))
  {
    var c := LongChat(request, rest);
    var lines, blocks := c[0].content.blocks, c[1].content.blocks;
    LineIsShown(codec);
    ResultIsShown(codec, blocks[1]);
    hide RoundTrip.Carry, LINE, RoundTrip.UseIds, TrimSpace;
    LastIsShown(codec, lines);
    LastIsShown(codec, blocks);
    hide RoundTrip.CarryAll;
    AnswerIsClean(codec, c[1], RoundTrip.CallsBefore(c, 1));
    hide RoundTrip.Answered;
  }

  /**
   * Such a chat is compacted in the middle of its answer, and reading the file gives all of it back, without the
   * summary, as if it had not been compacted.
   */
  lemma {:induction false} InnerCutHappens(codec: Codec, req: Request, request: nat, rest: nat, out: seq<Entry>, now: int)
    requires Sound(codec) && WritesTexts(codec) && codec.argumentBytes(Object([])) <= MAX_ARGUMENT_JSON_BYTES && req.now > 0
    requires RoundTrip.Migrates(codec, req, LongChat(request, rest), out)
    requires request * MAX_TEXT_BLOCK_CHARS >= COMPACT_THRESHOLD_BYTES && rest * MAX_TEXT_BLOCK_CHARS >= KEEP_TAIL_BYTES
    ensures LatestCompaction(out).Some?
    ensures RoundTrip.Matches(codec, req, LongChat(request, rest), 2, ReadSession(codec, [out], now))
  {
    var chat := LongChat(request, rest);
    var base := BaseLog(codec, req, chat).entries;
    assert |chat| == 2;
    LongChatIsCut(codec, req, request, rest, out);
    InnerShapes(base, request, rest);
    MigratedLogIsWellFormed(codec, req, chat);
    DistinctIdsAreNamed(base);
    LongChatIsClean(codec, request, rest);
    hide BaseLog, LongChat, LongLog, Sound, WritesTexts, ReadLog, ReadSession, Dedup, Compacts, NamesMessage, NamesResult, LatestCompaction,
         WellFormed, RoundTrip.CleanChat, RoundTrip.Matches, Collides, NamedEntries;
    CompactedMigrationReadsTail(codec, req, chat, out, 4, now);
    ReadNamesAreDistinct(codec, base, now);
    RoundTrip.CompactionReadsThrough(codec, req, chat, out, now);
    RoundTrip.MigrationRoundTrip(codec, req, chat, out, now);
  }

  /* A lost error flag */

  const FAILED_CALL: ChatMessage := ChatMessage("a", Assistant,
    Blocks([ToolUse("c", "Read", Object([])), ToolResult("c", Plain("no such file"), true)]), 1, "a", false, "", false)

  lemma FailedCallIsClean(codec: Codec)
    requires codec.argumentBytes(Object([])) <= MAX_ARGUMENT_JSON_BYTES
    ensures RoundTrip.CleanChat(codec, [FAILED_CALL])
  {
    ResultIsShown(codec, FAILED_CALL.content.blocks[1]);
    hide RoundTrip.Carry, RoundTrip.UseIds, TrimSpace;
    LastIsShown(codec, FAILED_CALL.content.blocks);
    hide RoundTrip.CarryAll;
    AnswerIsClean(codec, FAILED_CALL, RoundTrip.CallsBefore([FAILED_CALL], 0));
    hide RoundTrip.Answered;
  }

  lemma CallIsShown(codec: Codec, blocks: seq<Block>)
    requires blocks == [ToolUse("c", "Read", Object([]))]
    ensures RoundTrip.CarryAll(codec, blocks) != [] && "c" in RoundTrip.UseIds(blocks)
    ensures TrimSpace("c") != ""
  {
    TrimSpaceTrims("c");
    assert RoundTrip.IsCall(blocks[0]);
  }

  lemma LineIsShown(codec: Codec)
    ensures RoundTrip.Carry(codec, Text(LINE)) != []
  {
    assert |LINE| == MAX_TEXT_BLOCK_CHARS;
    hide RoundTrip.Shortened;
  }

  lemma ResultIsShown(codec: Codec, b: Block)
    requires b.ToolResult?
    ensures RoundTrip.Carry(codec, b) != []
  {
    RoundTrip.CarriedResult(codec, b);
    hide RoundTrip.Carry;
  }

  /** An answer that starts with the call and its result, and holds no other result. */
  lemma AnswerIsClean(codec: Codec, m: ChatMessage, earlier: set<string>)
    requires m.role.Assistant? && m.content.Blocks? && RoundTrip.CarryAll(codec, m.content.blocks) != []
    requires var blocks := m.content.blocks;
      && |blocks| >= 2 && blocks[0] == ToolUse("c", "Read", Object([])) && blocks[1].ToolResult? && blocks[1].toolUseId == "c"
      && forall k :: 2 <= k < |blocks| ==> !blocks[k].ToolResult?
    ensures RoundTrip.CleanMessage(codec, m, earlier)
  {
    hide RoundTrip.CarryAll, RoundTrip.Answered;
    OneResultIsAnswered(codec, m.content.blocks, earlier);
  }

  lemma OneResultIsAnswered(codec: Codec, blocks: seq<Block>, earlier: set<string>)
    requires |blocks| >= 2 && blocks[0] == ToolUse("c", "Read", Object([])) && blocks[1].ToolResult? && blocks[1].toolUseId == "c"
    requires forall k :: 2 <= k < |blocks| ==> !blocks[k].ToolResult?
    ensures RoundTrip.Answered(codec, blocks, earlier)
  {
    hide RoundTrip.CarryAll, RoundTrip.UseIds, RoundTrip.Carry, TrimSpace;
    CallIsShown(codec, [blocks[0]]);
    assert [blocks[0]] == blocks[..1];
    assert !blocks[0].ToolResult?;
    forall k | 0 <= k < |blocks| && blocks[k].ToolResult? ensures k == 1 {}
  }

  lemma LastIsShown(codec: Codec, blocks: seq<Block>)
    requires blocks != [] && RoundTrip.Carry(codec, blocks[|blocks| - 1]) != []
    ensures RoundTrip.CarryAll(codec, blocks) != []
  {
  }

  lemma CallSurvives(codec: Codec)
    requires codec.argumentBytes(Object([])) <= MAX_ARGUMENT_JSON_BYTES
    ensures RoundTrip.Carry(codec, ToolUse("c", "Read", Object([]))) == [ToolUse("c", "Read", Object([]))]
  {
    SanitizeKeeps(Object([]), 0);
    ReadIsShown();
    hide Sanitize, UiToolName, Print;
  }

  lemma ReadIsShown()
    ensures UiToolName("Read") == "Read"
  {
    TrimSpaceTrims("Read");
    hide TrimSpace;
  }

  const FAILED_CALL_READ := [ToolUse("c", "Read", Object([])), ToolResult("c", Plain("no such file"), false)]

  lemma FailedCallErased(codec: Codec)
    requires Sound(codec) && codec.argumentBytes(Object([])) <= MAX_ARGUMENT_JSON_BYTES
    ensures RoundTrip.Canonical(codec, FAILED_CALL.content) == FAILED_CALL_READ
    ensures FAILED_CALL.content.blocks[1] != FAILED_CALL_READ[1]
  {
    var blocks := FAILED_CALL.content.blocks;
    CallSurvives(codec);
    RoundTrip.ResultReadsBack(codec, blocks[1].content);
    RoundTrip.CarriedResult(codec, blocks[1]);
    hide Sound, RoundTrip.ResultReadBack, RoundTrip.Carry;
    assert blocks == [] + [blocks[0]] + [blocks[1]];
    RoundTrip.CarryOneMore(codec, [], blocks[0]);
    RoundTrip.CarryOneMore(codec, [blocks[0]], blocks[1]);
    assert [] + [blocks[0]] == [blocks[0]];
  }

  /** Even a clean chat changes: the failed call comes back as if it had succeeded. */
  lemma FailureReadsAsSuccess(codec: Codec, req: Request, out: seq<Entry>, now: int)
    requires Sound(codec) && req.now > 0 && codec.argumentBytes(Object([])) <= MAX_ARGUMENT_JSON_BYTES
    requires RoundTrip.Migrates(codec, req, [FAILED_CALL], out)
    ensures var read := ReadLog(codec, out, now);
      |read| == 1 && read[0].content == Blocks(FAILED_CALL_READ) && read[0].content != FAILED_CALL.content
  {
    FailedCallIsClean(codec);
    FailedCallErased(codec);
    hide Sound, RoundTrip.CleanChat, RoundTrip.Migrates, ReadLog, RoundTrip.EntryName, RoundTrip.Canonical;
    RoundTrip.MigrationRoundTrip(codec, req, [FAILED_CALL], out, now);
    assert RoundTrip.ReadsAs(codec, req, [FAILED_CALL], 0, ReadLog(codec, out, now)[0]);
  }
}
