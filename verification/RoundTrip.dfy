/** A migrated log reads back as the messages it was built from. */
module RoundTrip {
  import opened Prelude
  import opened Text
  import opened EntryIds
  import opened ChatBlocks
  import opened PiConversion
  import opened PiMigration
  import opened PiMigrationLog
  import opened PiCompaction
  import opened ContentMerge
  import PiSession
  import PiSessionCompaction

  /* Single blocks */

  /** The result content that the reader makes of a migrated one. */
  function ResultReadBack(codec: Codec, content: Content): Content {
    PiSession.UiResultContent(codec, PiBlocks([PiText(ResultText(codec, content))]))
  }

  /** Of a text over the limit the first and the last 2048 characters stay, trimmed, with a notice between them. */
  function Shortened(text: string): string {
    if |text| <= 4096 then text
    else
      TrimSpace(text[..2048]) + "\n\n[Legacy text block truncated during migration: omitted " + Print(|text| - 4096) + " characters.]\n\n"
      + TrimSpace(text[|text| - 2048..])
  }

  /** Tool arguments are sanitized, and only their size is told if they are still too long. */
  function Arguments(codec: Codec, input: Json): Json {
    var kept := Sanitize(if input.Object? then input else Object([]), 0);
    if codec.argumentBytes(kept) <= 32768 then kept
    else Object([Field("legacy_arguments_omitted", String("Tool arguments omitted during migration because they were "
      + Print(codec.argumentBytes(kept)) + " bytes after media/string trimming."))])
  }

  /** What a block is carried over as: of a tool result its content as text, and not its error flag. */
  function Carry(codec: Codec, b: Block): seq<Block> {
    match b
    case Text(text) => if text == "" then [] else [Text(Shortened(text))]
    case Thinking(thinking, signature) => if thinking == "" then [] else [Thinking(Shortened(thinking), signature)]
    case ToolUse(id, name, input) =>
      if id == "" || name == "" then [] else [ToolUse(id, PiSession.UiToolName(name), Arguments(codec, input))]
    case ToolResult(id, content, _) => [ToolResult(id, ResultReadBack(codec, content), false)]
    case Other(kind, _, _) =>
      if kind in {"image", "input_image", "screenshot", "document"}
      then [Text("[Legacy " + kind + " attachment omitted during migration.]")] else []
    case _ => []
  }

  function CarryAll(codec: Codec, blocks: seq<Block>): seq<Block> {
    if blocks == [] then [] else CarryAll(codec, blocks[..|blocks| - 1]) + Carry(codec, blocks[|blocks| - 1])
  }

  lemma CarryOneMore(codec: Codec, blocks: seq<Block>, b: Block)
    ensures CarryAll(codec, blocks + [b]) == CarryAll(codec, blocks) + Carry(codec, b)
  {
    assert (blocks + [b])[..|blocks|] == blocks;
  }

  lemma LongTextsAreShortened(text: string)
    ensures TrimTextBlock(text) == Shortened(text)
  {
    assert MAX_TEXT_BLOCK_CHARS / 2 == 2048;
    hide TrimSpace, Print;
  }

  lemma ShortenedIsText(text: string)
    requires text != ""
    ensures Shortened(text) != ""
  {
    hide TrimSpace, Print;
    if |text| > 4096 {
      var notice := "\n\n[Legacy text block truncated during migration: omitted ";
      assert |Shortened(text)| >= |notice|;
    }
  }

  lemma ArgumentsStayObjects(codec: Codec, input: Json)
    ensures ToolArguments(codec, input) == Arguments(codec, input) && Arguments(codec, input).Object?
  {
  }

  lemma AtMostOneReads(converted: seq<PiBlock>)
    requires |converted| <= 1
    ensures PiSession.UiBlockList(converted) == if converted == [] then [] else PiSession.UiBlock(converted[0])
    ensures CallIds(converted) == if converted != [] && converted[0].PiToolCall? && converted[0].id != "" then {converted[0].id} else {}
  {
    if converted == [] {
      NothingRead();
    } else {
      assert converted == [] + [converted[0]];
      CallIdsAppend([], converted[0]);
      PiSession.UiBlockListOne(converted[0]);
    }
  }

  lemma OneUse(b: Block)
    ensures UseIds([b]) == if IsCall(b) then {b.id} else {}
  {
    if IsCall(b) { assert IsCall([b][0]); }
  }

  lemma {:induction false} BlockReadsBack(codec: Codec, b: Block)
    requires !b.ToolResult?
    ensures PiSession.UiBlockList(ConvertBlock(codec, b)) == Carry(codec, b)
    ensures CallIds(ConvertBlock(codec, b)) == UseIds([b])
  {
    hide TrimTextBlock, Shortened, ToolArguments, Arguments, PiSession.UiToolName, PiSession.UiBlockList, CallIds, UseIds;
    AtMostOneReads(ConvertBlock(codec, b));
    OneUse(b);
    match b
    case Text(text) =>
      LongTextsAreShortened(text);
      if text != "" { ShortenedIsText(text); }
    case Thinking(thinking, _) =>
      LongTextsAreShortened(thinking);
      if thinking != "" { ShortenedIsText(thinking); }
    case ToolUse(_, _, input) => ArgumentsStayObjects(codec, input);
    case _ =>
  }

  lemma CarriedResult(codec: Codec, b: Block)
    requires b.ToolResult?
    ensures Carry(codec, b) == [ToolResult(b.toolUseId, ResultReadBack(codec, b.content), false)] == [Carry(codec, b)[0]]
  {
    hide ResultReadBack;
  }

  /** Whatever a result held, it reads back as a string. */
  lemma ResultReadsAsText(codec: Codec, content: Content)
    ensures var written := ResultText(codec, content);
      ResultReadBack(codec, content) == Plain(if written != "" then written else codec.piContentJson(PiBlocks([PiText("")])))
  {
    var written := ResultText(codec, content);
    hide ResultText;
    PiSession.UiBlockListOne(PiText(written));
    if written != "" {
      assert PiSession.Texts([Text(written)]) == [written] + PiSession.Texts([Text(written)][1..]);
    }
  }

  predicate ResultSurvives(content: Content) {
    content.Plain? && 0 < |content.text| <= MAX_TOOL_RESULT_CHARS
  }

  /** Any result content reads back as itself exactly when it is a string, neither empty nor over the limit. */
  lemma ResultReadsBack(codec: Codec, content: Content)
    requires Sound(codec)
    ensures ResultReadBack(codec, content) == content <==> ResultSurvives(content)
  {
    ResultReadsAsText(codec, content);
    if content.Plain? && |content.text| > MAX_TOOL_RESULT_CHARS {
      PrintIsShort(|content.text|);
    }
    hide ResultReadBack;
  }

  /** So the empty result does not survive: it comes back as the JSON of its block. */
  lemma EmptyResultChanges(codec: Codec)
    requires Sound(codec)
    ensures ResultReadBack(codec, Plain("")) == Plain(codec.piContentJson(PiBlocks([PiText("")])))
    ensures ResultReadBack(codec, Plain("")) != Plain("")
  {
    PiSession.UiBlockListOne(PiText(""));
  }

  /** The log message that a tool result with a known call becomes. */
  function WrittenResult(codec: Codec, b: Block): PiMessage
    requires b.ToolResult?
  {
    PiToolResult(b.toolUseId, PiBlocks([PiText(ResultText(codec, b.content))]), b.isError)
  }

  function LastBlock(g: Group): Option<Block> {
    if g.segments == [] || g.segments[|g.segments| - 1].content == [] then None
    else
      var content := g.segments[|g.segments| - 1].content;
      Some(content[|content| - 1])
  }

  /**
   * A whole tool-result block with a known call comes back as it was exactly when its call id is not blank, its
   * content survives, and it reports no error.
   */
  lemma MatchedResultReadsBack(codec: Codec, r: PiSession.Reader, e: Entry, b: Block, now: int)
    requires Sound(codec) && b.ToolResult? && e.Message? && e.message == WrittenResult(codec, b)
    requires r.group.segments == [] ==> r.group == NO_GROUP
    ensures LastBlock(PiSession.ReadEntry(codec, r, e, now).group) == Some(b) <==>
      TrimSpace(b.toolUseId) != "" && ResultSurvives(b.content) && !b.isError
  {
    ResultReadsBack(codec, b.content);
    var count := |r.messages| + |r.group.segments|;
    ReaderIdIsNotBlank(count);
    hide Sound, ResultText, PiSession.UiResultContent, PiSession.ReaderId, ResultSurvives, Later, TrimSpace;
    var named := if TrimSpace(b.toolUseId) == "" then PiSession.ReaderId(count) else b.toolUseId;
    LastIsResult(codec, r, b.toolUseId, e.message.content, e.timestamp);
    assert named == b.toolUseId <==> TrimSpace(b.toolUseId) != "";
  }

  lemma ReaderIdIsNotBlank(n: nat)
    ensures TrimSpace(PiSession.ReaderId(n)) != ""
  {
    var id := PiSession.ReaderId(n);
    assert id[0] == 'p' && IsDigit(id[|id| - 1]) by { assert id[|id| - 1] == Print(n)[|Print(n)| - 1]; }
    assert Trimmed(id);
    TrimSpaceTrims(id);
  }

  lemma LastIsResult(codec: Codec, r: PiSession.Reader, callId: string, content: PiContent, at: int)
    requires r.group.segments == [] ==> r.group == NO_GROUP
    ensures var named := if TrimSpace(callId) == "" then PiSession.ReaderId(|r.messages| + |r.group.segments|) else callId;
      LastBlock(PiSession.ReadToolResult(codec, r, callId, content, at).group) ==
        Some(ToolResult(named, PiSession.UiResultContent(codec, content), false))
  {
    hide PiSession.UiResultContent, PiSession.ReaderId, Later, TrimSpace;
  }

  lemma FlushKeepsCalls(t: Turn, base: string, stamp: int)
    requires Positive(t.log.used)
    ensures Flush(t, base, stamp).log.calls == t.log.calls && Positive(Flush(t, base, stamp).log.used)
  {
    if t.pending != [] { UniqueIdIsFresh(t.log.used, PartId(base, t.part)); }
  }

  ghost predicate EndsWithUserText(out: seq<ChatMessage>, text: string) {
    out != [] && out[|out| - 1].role.User? && out[|out| - 1].content == Blocks([Text(text)])
  }

  ghost predicate EndsWithAssistant(out: seq<ChatMessage>) {
    out != [] && out[|out| - 1].role.Assistant?
  }

  lemma OrphanReads(codec: Codec, log: Log, desired: string, stamp: int, text: string, now: int)
    requires Positive(log.used) && text != ""
    ensures EndsWithUserText(PiSession.ReadLog(codec, Emit(log, desired, stamp, PiUser(PiBlocks([PiText(text)]))).entries, now), text)
  {
    UniqueIdIsFresh(log.used, desired);
    ReadEmitted(codec, log, desired, stamp, PiUser(PiBlocks([PiText(text)])), now);
    PiSession.UiBlockListOne(PiText(text));
    hide UniqueId, Claim, PiSession.UiBlockList, SegmentBlocks;
  }

  lemma ResultMessageReads(codec: Codec, log: Log, desired: string, stamp: int, message: PiMessage, now: int)
    requires message.PiToolResult?
    ensures EndsWithAssistant(PiSession.ReadLog(codec, Emit(log, desired, stamp, message).entries, now))
  {
    ReadEmitted(codec, log, desired, stamp, message, now);
    hide UniqueId, Claim, PiSession.UiResultContent, SegmentBlocks, TrimSpace, Later, Merge;
  }

  /** A tool result whose call is unknown, or that names none, comes back as the text of a user message; others do not. */
  lemma {:induction false} UnmatchedResultReadsAsUser(codec: Codec, t: Turn, base: string, stamp: int, index: nat, b: Block, now: int)
    requires b.ToolResult? && Positive(t.log.used)
    ensures var out := PiSession.ReadLog(codec, AddBlock(codec, t, base, stamp, index, b).log.entries, now);
      if b.toolUseId == "" || b.toolUseId !in t.log.calls then
        EndsWithUserText(out, (if TrimSpace(b.toolUseId) == "" then "Legacy tool result"
          else "Legacy tool result for unmatched tool call " + b.toolUseId) + ":\n" + ResultText(codec, b.content))
      else EndsWithAssistant(out)
  {
    OrphanSays(codec, b);
    hide ResultText, TrimSpace;
    hide EndsWithUserText, EndsWithAssistant, PiSession.ReadLog, AddBlock, OrphanText, Positive;
    if b.toolUseId == "" || b.toolUseId !in t.log.calls {
      UnmatchedBlockReads(codec, t, base, stamp, index, b, now);
    } else {
      MatchedBlockReads(codec, t, base, stamp, index, b, now);
    }
  }

  lemma OrphanSays(codec: Codec, b: Block)
    requires b.ToolResult?
    ensures OrphanText(codec, b.toolUseId, b.content) == (if TrimSpace(b.toolUseId) == "" then "Legacy tool result"
      else "Legacy tool result for unmatched tool call " + b.toolUseId) + ":\n" + ResultText(codec, b.content)
  {
    hide ResultText, TrimSpace;
  }

  lemma {:induction false} UnmatchedBlockReads(codec: Codec, t: Turn, base: string, stamp: int, index: nat, b: Block, now: int)
    requires b.ToolResult? && Positive(t.log.used) && (b.toolUseId == "" || b.toolUseId !in t.log.calls)
    ensures EndsWithUserText(PiSession.ReadLog(codec, AddBlock(codec, t, base, stamp, index, b).log.entries, now),
      OrphanText(codec, b.toolUseId, b.content))
  {
    FlushKeepsCalls(t, base, stamp);
    OrphanHasText(codec, b);
    hide EndsWithUserText, PiSession.ReadLog, OrphanText, Positive, Flush, Emit, ResultText;
    OrphanReads(codec, Flush(t, base, stamp).log, OrphanId(base, index), stamp, OrphanText(codec, b.toolUseId, b.content), now);
  }

  lemma {:induction false} MatchedBlockReads(codec: Codec, t: Turn, base: string, stamp: int, index: nat, b: Block, now: int)
    requires b.ToolResult? && Positive(t.log.used) && b.toolUseId != "" && b.toolUseId in t.log.calls
    ensures EndsWithAssistant(PiSession.ReadLog(codec, AddBlock(codec, t, base, stamp, index, b).log.entries, now))
  {
    FlushKeepsCalls(t, base, stamp);
    hide EndsWithAssistant, PiSession.ReadLog, Positive, Flush, Emit, ResultText;
    ResultMessageReads(codec, Flush(t, base, stamp).log, ResultId(base, index), stamp, WrittenResult(codec, b), now);
  }

  lemma OrphanHasText(codec: Codec, b: Block)
    requires b.ToolResult?
    ensures OrphanText(codec, b.toolUseId, b.content) != ""
  {
    hide ResultText, OrphanPrefix;
    assert |OrphanText(codec, b.toolUseId, b.content)| >= 2;
  }

  /* Whole messages */

  predicate IsCall(b: Block) {
    b.ToolUse? && b.id != "" && b.name != ""
  }

  function UseIds(blocks: seq<Block>): set<string> {
    set i | 0 <= i < |blocks| && IsCall(blocks[i]) :: blocks[i].id
  }

  lemma UseIdsOfConcat(a: seq<Block>, b: seq<Block>)
    ensures UseIds(a + b) == UseIds(a) + UseIds(b)
  {
    forall x | x in UseIds(a) ensures x in UseIds(a + b) {
      var i :| 0 <= i < |a| && IsCall(a[i]) && a[i].id == x;
      assert (a + b)[i] == a[i];
    }
    forall x | x in UseIds(b) ensures x in UseIds(a + b) {
      var i :| 0 <= i < |b| && IsCall(b[i]) && b[i].id == x;
      assert (a + b)[|a| + i] == b[i];
    }
  }

  predicate SplitsIntoParts(m: ChatMessage) {
    m.role.Assistant? && m.content.Blocks?
  }

  /** The tool calls made in assistant messages before message `n`. */
  function CallsBefore(messages: seq<ChatMessage>, n: nat): set<string>
    requires n <= |messages|
  {
    if n == 0 then {}
    else CallsBefore(messages, n - 1) + if SplitsIntoParts(messages[n - 1]) then UseIds(messages[n - 1].content.blocks) else {}
  }

  /** Every tool result of the list answers a call made earlier, and something else of the list is shown before it. */
  ghost predicate Answered(codec: Codec, blocks: seq<Block>, earlier: set<string>) {
    forall k :: 0 <= k < |blocks| && blocks[k].ToolResult? ==>
      && TrimSpace(blocks[k].toolUseId) != "" && blocks[k].toolUseId in earlier + UseIds(blocks[..k])
      && CarryAll(codec, blocks[..k]) != []
  }

  /** A message that shows something, its tool results answering known calls. */
  ghost predicate CleanMessage(codec: Codec, m: ChatMessage, earlier: set<string>) {
    && !m.role.OtherRole?
    && match m.content
       case Plain(text) => TrimSpace(text) != ""
       case Blocks(blocks) =>
         && CarryAll(codec, blocks) != []
         && (if m.role.User? then forall k :: 0 <= k < |blocks| ==> !blocks[k].ToolResult?
             else Answered(codec, blocks, earlier))
       case Value(_) => false
  }

  /** The inputs the migration promises to carry over: clean messages, no two assistant messages in a row. */
  ghost predicate CleanChat(codec: Codec, messages: seq<ChatMessage>) {
    && (forall i :: 0 <= i < |messages| ==> CleanMessage(codec, messages[i], CallsBefore(messages, i)))
    && (forall i :: 0 < i < |messages| ==> !(messages[i - 1].role.Assistant? && messages[i].role.Assistant?))
  }

  function Canonical(codec: Codec, content: Content): seq<Block> {
    match content
    case Plain(text) => [Text(Shortened(text))]
    case Blocks(blocks) => CarryAll(codec, blocks)
    case Value(_) => []
  }

  function BaseName(messages: seq<ChatMessage>, i: nat): string
    requires i < |messages|
  {
    BaseId(if messages[i].role.User? then "user" else "assistant", i, messages[i].id)
  }

  /** The name under which the first entry of message `i` is written. */
  function EntryName(codec: Codec, req: Request, messages: seq<ChatMessage>, i: nat): string
    requires i < |messages|
  {
    UniqueId(AddMessages(codec, req, messages, i).used, BaseName(messages, i))
  }

  ghost predicate ReadsAs(codec: Codec, req: Request, messages: seq<ChatMessage>, i: nat, out: ChatMessage)
    requires i < |messages|
  {
    && out.role == messages[i].role
    && out.content == Blocks(Canonical(codec, messages[i].content))
    && out.createdAt == (if messages[i].createdAt > 0 then messages[i].createdAt else req.now)
    && out.id == EntryName(codec, req, messages, i)
  }

  ghost predicate Matches(codec: Codec, req: Request, messages: seq<ChatMessage>, n: nat, out: seq<ChatMessage>) {
    n <= |messages| && |out| == n && forall i :: 0 <= i < n ==> ReadsAs(codec, req, messages, i, out[i])
  }

  /* Splitting one assistant message */

  ghost predicate GroupOpen(g: Group, id: string, stamp: int, entries: seq<Entry>) {
    && g.segments != [] && g.id == id && g.at == Some(stamp)
    && g.segments[|g.segments| - 1].id in Ids(entries)
  }

  /** After some blocks of a message: what is read so far and what is pending make up those blocks. */
  ghost predicate Halfway(codec: Codec, log: Log, base: string, stamp: int, blocks: seq<Block>, t: Turn, before: PiSession.Reader, r: PiSession.Reader) {
    && Consistent(t.log) && log.used.Keys <= t.log.used.Keys
    && r.messages == before.messages
    && SegmentBlocks(r.group.segments) + PiSession.UiBlockList(t.pending) == CarryAll(codec, blocks)
    && t.log.calls == log.calls + UseIds(blocks)
    && (t.part == 0 ==> t.log.entries == log.entries && t.log.used == log.used && r.group == NO_GROUP)
    && (t.part > 0 ==> GroupOpen(r.group, UniqueId(log.used, base), stamp, t.log.entries))
  }

  ghost function Read(codec: Codec, entries: seq<Entry>, now: int): PiSession.Reader {
    PiSession.ReadEntries(codec, PiSession.FRESH_READER, entries, now)
  }

  lemma ReadEmitted(codec: Codec, log: Log, desired: string, stamp: int, message: PiMessage, now: int)
    ensures Read(codec, Emit(log, desired, stamp, message).entries, now) ==
      PiSession.ReadEntry(codec, Read(codec, log.entries, now), Message(UniqueId(log.used, desired), log.parent, stamp, message), now)
  {
    PiSession.ReadOneMore(codec, PiSession.FRESH_READER, log.entries, Message(UniqueId(log.used, desired), log.parent, stamp, message), now);
  }

  lemma NothingRead()
    ensures SegmentBlocks([]) == [] && PiSession.UiBlockList([]) == []
  {
  }

  lemma UpsertFresh(g: Group, id: string, content: seq<Block>, stamp: int)
    requires id != ""
    requires g == NO_GROUP || (g.segments != [] && g.segments[|g.segments| - 1].id != id && g.id != "" && g.at == Some(stamp))
    ensures Upsert(g, id, content, stamp) ==
      Group(g.segments + [Segment(id, content, stamp)], if g.id == "" then id else g.id, Some(stamp))
    ensures SegmentBlocks(g.segments + [Segment(id, content, stamp)]) == SegmentBlocks(g.segments) + content
  {
    SegmentBlocksAppend(g.segments, Segment(id, content, stamp));
  }

  lemma EmittedKeys(log: Log, desired: string, stamp: int, message: PiMessage)
    requires Consistent(log)
    ensures var next, id := Emit(log, desired, stamp, message), UniqueId(log.used, desired);
      && id != "" && id !in Ids(log.entries) && id in Ids(next.entries)
      && next.used.Keys == log.used.Keys + {id} && Ids(next.entries) == Ids(log.entries) + {id}
      && next.calls == log.calls
  {
    UniqueIdIsFresh(log.used, desired);
    IdsAppend(log.entries, Message(UniqueId(log.used, desired), log.parent, stamp, message));
  }

  lemma {:induction false} FlushReads(codec: Codec, log: Log, base: string, stamp: int, blocks: seq<Block>, t: Turn, before: PiSession.Reader, now: int)
    requires Halfway(codec, log, base, stamp, blocks, t, before, Read(codec, t.log.entries, now))
    requires Consistent(log)
    requires CarryAll(codec, blocks) != [] && CallsAnnounced(t.log, t.pending)
    ensures var f := Flush(t, base, stamp);
      && Halfway(codec, log, base, stamp, blocks, f, before, Read(codec, f.log.entries, now))
      && CallsAnnounced(f.log, []) && f.pending == [] && f.part > 0
  {
    hide Consistent, CallsAnnounced, UniqueId, Claim, StopReason, Ids, UseIds, CarryAll, PiSession.UiBlock, PiSession.UiBlockList, Upsert, SegmentBlocks;
    NothingRead();
    var f, r := Flush(t, base, stamp), Read(codec, t.log.entries, now);
    FlushKeeps(t, base, stamp);
    if t.pending != [] {
      var message := PiMigration.AssistantMessage(t.pending);
      ReadEmitted(codec, t.log, PartId(base, t.part), stamp, message, now);
      EmittedKeys(t.log, PartId(base, t.part), stamp, message);
      EmittedKeys(log, base, stamp, message);
      UpsertFresh(r.group, UniqueId(t.log.used, PartId(base, t.part)), PiSession.UiBlockList(t.pending), stamp);
    }
  }

  lemma ResultEntryReads(codec: Codec, r: PiSession.Reader, e: Entry, b: Block, now: int)
    requires b.ToolResult? && TrimSpace(b.toolUseId) != "" && r.group.segments != []
    requires e.Message? && e.message == PiToolResult(b.toolUseId, PiBlocks([PiText(ResultText(codec, b.content))]), b.isError)
    ensures PiSession.ReadEntry(codec, r, e, now) == r.(group := AppendToLast(r.group, Carry(codec, b), e.timestamp))
  {
    CarriedResult(codec, b);
    hide ResultText, PiSession.UiResultContent, TrimSpace, Carry;
  }

  lemma AppendKeepsOpen(g: Group, id: string, stamp: int, entries: seq<Entry>, b: Block, more: seq<Entry>)
    requires GroupOpen(g, id, stamp, entries) && Ids(entries) <= Ids(more)
    ensures GroupOpen(AppendToLast(g, [b], stamp), id, stamp, more)
    ensures SegmentBlocks(AppendToLast(g, [b], stamp).segments) == SegmentBlocks(g.segments) + [b]
  {
    AppendToLastBlocks(g, [b], stamp);
  }

  lemma OpenIsNonEmpty(g: Group, id: string, stamp: int, entries: seq<Entry>)
    requires GroupOpen(g, id, stamp, entries)
    ensures g.segments != []
  {
  }

  lemma EmitKeepsCalls(log: Log, desired: string, stamp: int, message: PiMessage)
    requires Consistent(log) && CallsAnnounced(log, [])
    requires HasContent(message)
    requires message.PiToolResult? ==> message.toolCallId in log.calls
    ensures Consistent(Emit(log, desired, stamp, message)) && CallsAnnounced(Emit(log, desired, stamp, message), [])
  {
    hide Consistent, UniqueId, Claim, AnnouncedBefore;
    EmitKeepsConsistent(log, desired, stamp, message);
  }

  lemma ExtendResults(codec: Codec, blocks: seq<Block>, b: Block)
    requires b.ToolResult?
    ensures UseIds(blocks + [b]) == UseIds(blocks)
    ensures CarryAll(codec, blocks + [b]) == CarryAll(codec, blocks) + Carry(codec, b)
  {
    UseIdsOfConcat(blocks, [b]);
    assert UseIds([b]) == {};
  }

  lemma HalfwayIsOpen(codec: Codec, log: Log, base: string, stamp: int, blocks: seq<Block>, t: Turn, before: PiSession.Reader, r: PiSession.Reader)
    requires Halfway(codec, log, base, stamp, blocks, t, before, r) && t.part > 0
    ensures Consistent(t.log) && GroupOpen(r.group, UniqueId(log.used, base), stamp, t.log.entries)
  {
    hide Consistent, GroupOpen, UniqueId, CarryAll, UseIds, SegmentBlocks, PiSession.UiBlockList;
  }

  /** Writing a result with a known call adds its block to the group that is open. */
  lemma WrittenResultReads(codec: Codec, log: Log, desired: string, stamp: int, b: Block, now: int)
    requires Consistent(log) && CallsAnnounced(log, [])
    requires b.ToolResult? && TrimSpace(b.toolUseId) != "" && b.toolUseId in log.calls
    requires Read(codec, log.entries, now).group.segments != []
    ensures var r, next := Read(codec, log.entries, now), Emit(log, desired, stamp, WrittenResult(codec, b));
      && Consistent(next) && CallsAnnounced(next, [])
      && log.used.Keys <= next.used.Keys && Ids(log.entries) <= Ids(next.entries) && next.calls == log.calls
      && Read(codec, next.entries, now) == r.(group := AppendToLast(r.group, Carry(codec, b), stamp))
  {
    hide Consistent, CallsAnnounced, UniqueId, Claim, Ids, ResultText, Carry, PiSession.ReadEntry, AppendToLast, Read, Emit, TrimSpace;
    var message := WrittenResult(codec, b);
    CarriedResult(codec, b);
    ReadEmitted(codec, log, desired, stamp, message, now);
    EmitKeepsCalls(log, desired, stamp, message);
    EmittedKeys(log, desired, stamp, message);
    ResultEntryReads(codec, Read(codec, log.entries, now), Message(UniqueId(log.used, desired), log.parent, stamp, message), b, now);
  }

  lemma {:induction false} ResultReads(codec: Codec, log: Log, base: string, stamp: int, blocks: seq<Block>, f: Turn, before: PiSession.Reader,
                    index: nat, b: Block, now: int)
    requires Halfway(codec, log, base, stamp, blocks, f, before, Read(codec, f.log.entries, now))
    requires f.part > 0 && f.pending == [] && CallsAnnounced(f.log, [])
    requires b.ToolResult? && TrimSpace(b.toolUseId) != "" && b.toolUseId in f.log.calls
    ensures var t := f.(log := Emit(f.log, ResultId(base, index), stamp,
        PiToolResult(b.toolUseId, PiBlocks([PiText(ResultText(codec, b.content))]), b.isError)));
      && Halfway(codec, log, base, stamp, blocks + [b], t, before, Read(codec, t.log.entries, now))
      && CallsAnnounced(t.log, [])
  {
    var r, id := Read(codec, f.log.entries, now), UniqueId(log.used, base);
    hide Consistent, CallsAnnounced, GroupOpen, UniqueId, Ids, ResultText, Carry, AppendToLast, Read, Emit, ResultId, SegmentBlocks, TrimSpace;
    HalfwayIsOpen(codec, log, base, stamp, blocks, f, before, r);
    hide Halfway;
    CarriedResult(codec, b);
    OpenIsNonEmpty(r.group, id, stamp, f.log.entries);
    WrittenResultReads(codec, f.log, ResultId(base, index), stamp, b, now);
    var next := Emit(f.log, ResultId(base, index), stamp, WrittenResult(codec, b));
    AppendKeepsOpen(r.group, id, stamp, f.log.entries, Carry(codec, b)[0], next.entries);
    ResultExtends(codec, log, base, stamp, blocks, f, before, r, b, next, AppendToLast(r.group, Carry(codec, b), stamp));
  }

  lemma ResultExtends(codec: Codec, log: Log, base: string, stamp: int, blocks: seq<Block>, f: Turn, before: PiSession.Reader, r: PiSession.Reader,
                      b: Block, next: Log, g: Group)
    requires Halfway(codec, log, base, stamp, blocks, f, before, r) && f.part > 0 && f.pending == [] && b.ToolResult?
    requires Consistent(next) && f.log.used.Keys <= next.used.Keys && next.calls == f.log.calls
    requires GroupOpen(g, UniqueId(log.used, base), stamp, next.entries)
    requires SegmentBlocks(g.segments) == SegmentBlocks(r.group.segments) + Carry(codec, b)
    ensures Halfway(codec, log, base, stamp, blocks + [b], f.(log := next), before, r.(group := g))
  {
    hide Consistent, GroupOpen, UniqueId, UseIds, CarryAll, SegmentBlocks;
    ExtendResults(codec, blocks, b);
    assert PiSession.UiBlockList(f.pending) == [];
  }

  lemma BlockReads(codec: Codec, log: Log, base: string, stamp: int, blocks: seq<Block>, t: Turn, before: PiSession.Reader,
                   index: nat, b: Block, now: int)
    requires Sound(codec) && Consistent(log)
    requires Halfway(codec, log, base, stamp, blocks, t, before, Read(codec, t.log.entries, now)) && CallsAnnounced(t.log, t.pending)
    requires b.ToolResult? ==>
      CarryAll(codec, blocks) != [] && TrimSpace(b.toolUseId) != "" && b.toolUseId in log.calls + UseIds(blocks)
    ensures var u := AddBlock(codec, t, base, stamp, index, b);
      && Halfway(codec, log, base, stamp, blocks + [b], u, before, Read(codec, u.log.entries, now)) && CallsAnnounced(u.log, u.pending)
  {
    if b.ToolResult? {
      assert b.toolUseId != "" by { TrimSpaceTrims(""); }
      hide Consistent, CallsAnnounced, Flush, Emit, ResultText, UseIds, GroupOpen, Carry;
      FlushReads(codec, log, base, stamp, blocks, t, before, now);
      ResultReads(codec, log, base, stamp, blocks, Flush(t, base, stamp), before, index, b, now);
    } else {
      PlainBlockReads(codec, log, base, stamp, blocks, t, before, index, b, now);
    }
  }

  lemma ExtendPlain(codec: Codec, blocks: seq<Block>, pending: seq<PiBlock>, b: Block)
    requires !b.ToolResult?
    ensures CarryAll(codec, blocks + [b]) == CarryAll(codec, blocks) + Carry(codec, b)
    ensures UseIds(blocks + [b]) == UseIds(blocks) + CallIds(ConvertBlock(codec, b))
    ensures PiSession.UiBlockList(pending + ConvertBlock(codec, b)) == PiSession.UiBlockList(pending) + Carry(codec, b)
  {
    BlockReadsBack(codec, b);
    CarryOneMore(codec, blocks, b);
    hide ConvertBlock, PiSession.UiBlockList, CallIds, Carry, CarryAll;
    UseIdsOfConcat(blocks, [b]);
    PiSession.UiBlockListConcat(pending, ConvertBlock(codec, b));
  }

  lemma PlainBlockReads(codec: Codec, log: Log, base: string, stamp: int, blocks: seq<Block>, t: Turn, before: PiSession.Reader,
                        index: nat, b: Block, now: int)
    requires Halfway(codec, log, base, stamp, blocks, t, before, Read(codec, t.log.entries, now)) && CallsAnnounced(t.log, t.pending)
    requires !b.ToolResult?
    ensures var u := AddBlock(codec, t, base, stamp, index, b);
      && Halfway(codec, log, base, stamp, blocks + [b], u, before, Read(codec, u.log.entries, now)) && CallsAnnounced(u.log, u.pending)
  {
    hide Consistent, CallsAnnounced, ConvertBlock, UseIds, CarryAll, GroupOpen, Carry, PiSession.UiBlockList, CallIds, Read, UniqueId;
    AddBlockKeeps(codec, t, base, stamp, index, b);
    ExtendPlain(codec, blocks, t.pending, b);
  }

  lemma HalfwayStart(codec: Codec, log: Log, base: string, stamp: int, before: PiSession.Reader)
    requires Consistent(log) && before.group == NO_GROUP
    ensures Halfway(codec, log, base, stamp, [], Turn(log, [], 0), before, before)
  {
    hide Consistent;
    assert CarryAll(codec, []) == [] && SegmentBlocks([]) == [] && PiSession.UiBlockList([]) == [] && UseIds([]) == {};
  }

  lemma {:induction false} BlocksRead(codec: Codec, log: Log, base: string, stamp: int, blocks: seq<Block>, n: nat,
                                      before: PiSession.Reader, now: int)
    requires Sound(codec)
    requires n <= |blocks| && Consistent(log) && CallsAnnounced(log, [])
    requires before == Read(codec, log.entries, now) && before.group == NO_GROUP
    requires Answered(codec, blocks, log.calls)
    ensures var t := AddBlocks(codec, log, base, stamp, blocks, n);
      && Halfway(codec, log, base, stamp, blocks[..n], t, before, Read(codec, t.log.entries, now)) && CallsAnnounced(t.log, t.pending)
  {
    hide Consistent, CallsAnnounced, AddBlock, Carry, Halfway, Sound, UseIds, Read;
    if n == 0 {
      HalfwayStart(codec, log, base, stamp, before);
      assert blocks[..0] == [];
    } else {
      BlocksRead(codec, log, base, stamp, blocks, n - 1, before, now);
      assert blocks[..n] == blocks[..n - 1] + [blocks[n - 1]];
      BlockReads(codec, log, base, stamp, blocks[..n - 1], AddBlocks(codec, log, base, stamp, blocks, n - 1), before,
        n - 1, blocks[n - 1], now);
    }
  }

  lemma PartedMessageReads(codec: Codec, log: Log, base: string, stamp: int, blocks: seq<Block>, before: PiSession.Reader, now: int)
    requires Sound(codec)
    requires Consistent(log) && CallsAnnounced(log, [])
    requires before == Read(codec, log.entries, now) && before.group == NO_GROUP
    requires CarryAll(codec, blocks) != [] && Answered(codec, blocks, log.calls)
    ensures var next := Flush(AddBlocks(codec, log, base, stamp, blocks, |blocks|), base, stamp).log;
      var r := Read(codec, next.entries, now);
      && r.messages == before.messages
      && GroupOpen(r.group, UniqueId(log.used, base), stamp, next.entries)
      && SegmentBlocks(r.group.segments) == CarryAll(codec, blocks)
      && next.calls == log.calls + UseIds(blocks)
  {
    hide Consistent, CallsAnnounced, Flush, AddBlocks, GroupOpen, Carry, Sound;
    BlocksRead(codec, log, base, stamp, blocks, |blocks|, before, now);
    assert blocks[..|blocks|] == blocks;
    FlushReads(codec, log, base, stamp, blocks, AddBlocks(codec, log, base, stamp, blocks, |blocks|), before, now);
    assert PiSession.UiBlockList([]) == [];
  }

  /* The whole chat */

  lemma {:induction false} BlocksConvert(codec: Codec, blocks: seq<Block>)
    requires forall k :: 0 <= k < |blocks| ==> !blocks[k].ToolResult?
    ensures PiSession.UiBlockList(ConvertBlocks(codec, blocks)) == CarryAll(codec, blocks)
  {
    hide ConvertBlock, PiSession.UiBlock, CallIds, Carry;
    if blocks == [] {
      NothingRead();
    } else {
      var front, last := blocks[..|blocks| - 1], blocks[|blocks| - 1];
      BlocksConvert(codec, front);
      BlockReadsBack(codec, last);
      PiSession.UiBlockListConcat(ConvertBlocks(codec, front), ConvertBlock(codec, last));
    }
  }

  lemma CleanContentConverts(codec: Codec, m: ChatMessage, earlier: set<string>)
    requires CleanMessage(codec, m, earlier) && !SplitsIntoParts(m)
    ensures PiSession.UiBlockList(ConvertContent(codec, m.content)) == Canonical(codec, m.content)
    ensures ConvertContent(codec, m.content) != [] && Canonical(codec, m.content) != []
  {
    match m.content
    case Plain(text) =>
      TrimSpaceTrims("");
      LongTextsAreShortened(text);
      ShortenedIsText(text);
      hide TrimTextBlock, Shortened, TrimSpace;
      PiSession.UiBlockListOne(PiText(Shortened(text)));
    case Blocks(blocks) =>
      BlocksConvert(codec, blocks);
      NothingRead();
      hide ConvertBlocks, CarryAll;
  }

  /** What is read after `n` messages: all of them once the open group is closed. */
  ghost predicate Prefix(codec: Codec, req: Request, messages: seq<ChatMessage>, n: nat, r: PiSession.Reader, now: int)
    requires n <= |messages|
  {
    var log := AddMessages(codec, req, messages, n);
    && log.calls == CallsBefore(messages, n)
    && Matches(codec, req, messages, n, PiSession.FlushGroup(r, now).messages)
    && (n == 0 || messages[n - 1].role.User? ==> r.group == NO_GROUP)
    && (r.group.segments == [] ==> r.group == NO_GROUP)
  }

  lemma UserEntryReads(codec: Codec, r: PiSession.Reader, e: Entry, now: int)
    requires e.Message? && e.id != "" && e.message.PiUser? && PiSession.UiBlocks(e.message.content) != []
    requires r.group.segments == [] ==> r.group == NO_GROUP
    ensures PiSession.ReadEntry(codec, r, e, now) == PiSession.Reader(
      PiSession.FlushGroup(r, now).messages + [PiSession.UserMessage(e.id, PiSession.UiBlocks(e.message.content), e.timestamp)], NO_GROUP)
  {
    hide PiSession.UiBlocks;
  }

  lemma AssistantEntryReads(codec: Codec, r: PiSession.Reader, e: Entry, now: int)
    requires e.Message? && e.id != "" && e.message.PiAssistant? && PiSession.UiBlocks(e.message.content) != []
    ensures PiSession.ReadEntry(codec, r, e, now) == r.(group := Upsert(r.group, e.id, PiSession.UiBlocks(e.message.content), e.timestamp))
  {
    hide PiSession.UiBlocks;
  }

  lemma PrefixOneMore(codec: Codec, req: Request, messages: seq<ChatMessage>, n: nat, r: PiSession.Reader, next: PiSession.Reader,
                      out: ChatMessage, now: int)
    requires n < |messages| && Prefix(codec, req, messages, n, r, now)
    requires ReadsAs(codec, req, messages, n, out)
    requires AddMessages(codec, req, messages, n + 1).calls == CallsBefore(messages, n + 1)
    requires PiSession.FlushGroup(next, now).messages == PiSession.FlushGroup(r, now).messages + [out]
    requires messages[n].role.User? ==> next.group == NO_GROUP
    requires next.group.segments == [] ==> next.group == NO_GROUP
    ensures Prefix(codec, req, messages, n + 1, next, now)
  {
    hide ReadsAs, PiSession.FlushGroup, AddMessages, CallsBefore;
  }

  /** Reading one user entry closes the open group and adds the message. */
  lemma UserEntryCloses(codec: Codec, r: PiSession.Reader, e: Entry, now: int, out: ChatMessage)
    requires e.Message? && e.id != "" && e.message.PiUser? && PiSession.UiBlocks(e.message.content) != []
    requires r.group.segments == [] ==> r.group == NO_GROUP
    requires out == PiSession.UserMessage(e.id, PiSession.UiBlocks(e.message.content), e.timestamp)
    ensures var next := PiSession.ReadEntry(codec, r, e, now);
      next.group == NO_GROUP && PiSession.FlushGroup(next, now).messages == PiSession.FlushGroup(r, now).messages + [out]
  {
    UserEntryReads(codec, r, e, now);
    hide PiSession.ReadEntry, PiSession.UiBlocks;
    ClosedGroup(PiSession.FlushGroup(r, now).messages + [out], now);
  }

  lemma {:induction false} UserReads(codec: Codec, req: Request, messages: seq<ChatMessage>, n: nat, now: int)
    requires n < |messages| && messages[n].role.User? && CleanMessage(codec, messages[n], CallsBefore(messages, n))
    requires Prefix(codec, req, messages, n, Read(codec, AddMessages(codec, req, messages, n).entries, now), now)
    ensures Prefix(codec, req, messages, n + 1, Read(codec, AddMessages(codec, req, messages, n + 1).entries, now), now)
  {
    var log, m := AddMessages(codec, req, messages, n), messages[n];
    var r := Read(codec, log.entries, now);
    var message := PiUser(PiBlocks(ConvertContent(codec, m.content)));
    var stamp, base := Stamp(m.createdAt, req.now), BaseName(messages, n);
    var e := Message(UniqueId(log.used, base), log.parent, stamp, message);
    var out := PiSession.UserMessage(e.id, Canonical(codec, m.content), stamp);
    hide CleanMessage, ConvertContent, Consistent, UniqueId, Claim, BaseName, Canonical, Read, PiSession.FlushGroup, PiSession.ReadEntry,
         AddMessages, AddMessage, CallsBefore, Emit, PiSession.UiBlockList, ReadsAs, Matches, Stamp, CallsAnnounced, Ids;
    UserStep(codec, req, messages, n);
    AddMessagesKeeps(codec, req, messages, n);
    EmittedKeys(log, base, stamp, message);
    ReadEmitted(codec, log, base, stamp, message, now);
    UserEntryCloses(codec, r, e, now, out);
    UserReadsAs(codec, req, messages, n, out);
    PrefixOneMore(codec, req, messages, n, r, PiSession.ReadEntry(codec, r, e, now), out, now);
  }

  lemma UserStep(codec: Codec, req: Request, messages: seq<ChatMessage>, n: nat)
    requires n < |messages| && messages[n].role.User? && CleanMessage(codec, messages[n], CallsBefore(messages, n))
    ensures AddMessages(codec, req, messages, n + 1) ==
      Emit(AddMessages(codec, req, messages, n), BaseName(messages, n), Stamp(messages[n].createdAt, req.now),
           PiUser(PiBlocks(ConvertContent(codec, messages[n].content))))
    ensures CallsBefore(messages, n + 1) == CallsBefore(messages, n)
    ensures PiSession.UiBlockList(ConvertContent(codec, messages[n].content)) == Canonical(codec, messages[n].content) != []
  {
    CleanContentConverts(codec, messages[n], CallsBefore(messages, n));
    hide CleanMessage, ConvertContent, BaseId, Canonical, Emit, PiSession.UiBlockList;
  }

  lemma UserReadsAs(codec: Codec, req: Request, messages: seq<ChatMessage>, n: nat, out: ChatMessage)
    requires n < |messages| && messages[n].role.User?
    requires out == PiSession.UserMessage(EntryName(codec, req, messages, n), Canonical(codec, messages[n].content), Stamp(messages[n].createdAt, req.now))
    ensures ReadsAs(codec, req, messages, n, out)
  {
    hide EntryName, Canonical;
  }

  lemma ClosedGroup(messages: seq<ChatMessage>, now: int)
    ensures PiSession.FlushGroup(PiSession.Reader(messages, NO_GROUP), now) == PiSession.Reader(messages, NO_GROUP)
  {
  }

  /** Closing the group that an assistant message has left open adds exactly that message. */
  lemma OpenGroupCloses(g: Group, messages: seq<ChatMessage>, id: string, stamp: int, now: int)
    requires g.segments != [] && g.id == id && id != "" && g.at == Some(stamp) && stamp > 0
    ensures var out := PiSession.FlushGroup(PiSession.Reader(messages, g), now).messages;
      && |out| == |messages| + 1 && out[..|messages|] == messages
      && out[|messages|].role == Assistant && out[|messages|].id == id
      && out[|messages|].content == Blocks(SegmentBlocks(g.segments)) && out[|messages|].createdAt == stamp
  {
    hide SegmentBlocks;
  }

  lemma AssistantGroupRead(codec: Codec, req: Request, messages: seq<ChatMessage>, n: nat, now: int)
    requires Sound(codec)
    requires n < |messages| && messages[n].role.Assistant? && CleanMessage(codec, messages[n], CallsBefore(messages, n))
    requires AddMessages(codec, req, messages, n).calls == CallsBefore(messages, n)
    requires Read(codec, AddMessages(codec, req, messages, n).entries, now).group == NO_GROUP
    ensures var before := Read(codec, AddMessages(codec, req, messages, n).entries, now);
      var r := Read(codec, AddMessages(codec, req, messages, n + 1).entries, now);
      && r.messages == before.messages && r.group.segments != []
      && r.group.id == EntryName(codec, req, messages, n) && r.group.id != ""
      && r.group.at == Some(Stamp(messages[n].createdAt, req.now))
      && SegmentBlocks(r.group.segments) == Canonical(codec, messages[n].content)
    ensures AddMessages(codec, req, messages, n + 1).calls == CallsBefore(messages, n + 1)
  {
    var log := AddMessages(codec, req, messages, n);
    hide Consistent, UniqueId, Claim, BaseId, Read, Carry, CallsAnnounced, Canonical, CleanMessage, SegmentBlocks, Sound, CallsBefore, AddMessage;
    AddMessagesKeeps(codec, req, messages, n);
    EmittedKeys(log, BaseName(messages, n), 0, PiOtherRole(""));
    if messages[n].content.Blocks? {
      PartsRead(codec, req, messages, n, log, now);
    } else {
      PlainAssistantReads(codec, req, messages, n, log, now);
    }
  }

  lemma PartsRead(codec: Codec, req: Request, messages: seq<ChatMessage>, n: nat, log: Log, now: int)
    requires Sound(codec) && Consistent(log) && CallsAnnounced(log, [])
    requires n < |messages| && SplitsIntoParts(messages[n]) && CleanMessage(codec, messages[n], log.calls)
    requires log.calls == CallsBefore(messages, n)
    requires Read(codec, log.entries, now).group == NO_GROUP
    ensures var next := AddMessage(codec, req, log, n, messages[n]);
      var before, r := Read(codec, log.entries, now), Read(codec, next.entries, now);
      && r.messages == before.messages && r.group.segments != []
      && r.group.id == UniqueId(log.used, BaseName(messages, n))
      && r.group.at == Some(Stamp(messages[n].createdAt, req.now))
      && SegmentBlocks(r.group.segments) == Canonical(codec, messages[n].content)
      && next.calls == CallsBefore(messages, n + 1)
  {
    hide Consistent, UniqueId, Claim, BaseId, Read, Carry, Flush, AddBlocks, CarryAll, Sound, CallsAnnounced, Answered, SegmentBlocks, UseIds, Ids, Stamp;
    PartedMessageReads(codec, log, BaseName(messages, n), Stamp(messages[n].createdAt, req.now), messages[n].content.blocks,
      Read(codec, log.entries, now), now);
  }

  lemma AssistantEntryOpens(codec: Codec, r: PiSession.Reader, e: Entry, now: int)
    requires e.Message? && e.id != "" && e.message.PiAssistant? && PiSession.UiBlocks(e.message.content) != []
    requires r.group == NO_GROUP
    ensures var next := PiSession.ReadEntry(codec, r, e, now);
      && next.messages == r.messages && next.group.segments != []
      && next.group.id == e.id && next.group.at == Some(e.timestamp)
      && SegmentBlocks(next.group.segments) == PiSession.UiBlocks(e.message.content)
  {
    hide PiSession.UiBlocks, PiSession.ReadEntry, Upsert, SegmentBlocks;
    AssistantEntryReads(codec, r, e, now);
    UpsertFresh(NO_GROUP, e.id, PiSession.UiBlocks(e.message.content), e.timestamp);
    NothingRead();
  }

  lemma PlainAssistantStep(codec: Codec, req: Request, messages: seq<ChatMessage>, n: nat, log: Log)
    requires n < |messages| && messages[n].role.Assistant? && !messages[n].content.Blocks?
    requires CleanMessage(codec, messages[n], log.calls)
    requires log.calls == CallsBefore(messages, n)
    ensures AddMessage(codec, req, log, n, messages[n]) ==
      Emit(log, BaseName(messages, n), Stamp(messages[n].createdAt, req.now),
           PiAssistant(PiBlocks(ConvertContent(codec, messages[n].content)), StopReason(ConvertContent(codec, messages[n].content)), ""))
    ensures CallsBefore(messages, n + 1) == CallsBefore(messages, n)
    ensures PiSession.UiBlockList(ConvertContent(codec, messages[n].content)) == Canonical(codec, messages[n].content) != []
  {
    CleanContentConverts(codec, messages[n], log.calls);
    hide CleanMessage, ConvertContent, BaseId, Canonical, Emit, PiSession.UiBlockList, StopReason, Stamp;
  }

  lemma UiBlocksOfList(blocks: seq<PiBlock>)
    ensures PiSession.UiBlocks(PiBlocks(blocks)) == PiSession.UiBlockList(blocks)
  {
  }

  lemma {:induction false} PlainAssistantReads(codec: Codec, req: Request, messages: seq<ChatMessage>, n: nat, log: Log, now: int)
    requires Consistent(log)
    requires n < |messages| && messages[n].role.Assistant? && !messages[n].content.Blocks?
    requires CleanMessage(codec, messages[n], log.calls)
    requires log.calls == CallsBefore(messages, n)
    requires Read(codec, log.entries, now).group == NO_GROUP
    ensures var next := AddMessage(codec, req, log, n, messages[n]);
      var before, r := Read(codec, log.entries, now), Read(codec, next.entries, now);
      && r.messages == before.messages && r.group.segments != []
      && r.group.id == UniqueId(log.used, BaseName(messages, n))
      && r.group.at == Some(Stamp(messages[n].createdAt, req.now))
      && SegmentBlocks(r.group.segments) == Canonical(codec, messages[n].content)
      && next.calls == CallsBefore(messages, n + 1)
  {
    var content := ConvertContent(codec, messages[n].content);
    hide PiMigration.AssistantMessage, CleanMessage, ConvertContent, Consistent, UniqueId, BaseName, Canonical, Read, StopReason, Stamp,
         SegmentBlocks, PiSession.UiBlockList, AddMessage, CallsBefore, Emit, Carry, CarryAll, UseIds, Answered, BaseId, Claim, Ids;
    UiBlocksOfList(content);
    hide PiSession.UiBlocks;
    PlainAssistantStep(codec, req, messages, n, log);
    EmittedAssistantReads(codec, log, BaseName(messages, n), Stamp(messages[n].createdAt, req.now),
      PiAssistant(PiBlocks(content), StopReason(content), ""), now);
  }

  lemma EmittedAssistantReads(codec: Codec, log: Log, base: string, stamp: int, message: PiMessage, now: int)
    requires Consistent(log) && message.PiAssistant? && PiSession.UiBlocks(message.content) != []
    requires Read(codec, log.entries, now).group == NO_GROUP
    ensures var next := Emit(log, base, stamp, message);
      var before, r := Read(codec, log.entries, now), Read(codec, next.entries, now);
      && r.messages == before.messages && r.group.segments != []
      && r.group.id == UniqueId(log.used, base)
      && r.group.at == Some(stamp)
      && SegmentBlocks(r.group.segments) == PiSession.UiBlocks(message.content)
      && next.calls == log.calls
  {
    hide Consistent, UniqueId, Claim, Read, PiSession.ReadEntry, SegmentBlocks, PiSession.UiBlocks, Ids, Emit;
    EmittedKeys(log, base, stamp, message);
    ReadEmitted(codec, log, base, stamp, message, now);
    AssistantEntryOpens(codec, Read(codec, log.entries, now), Message(UniqueId(log.used, base), log.parent, stamp, message), now);
  }

  lemma {:induction false} AssistantReads(codec: Codec, req: Request, messages: seq<ChatMessage>, n: nat, now: int)
    requires Sound(codec) && req.now > 0
    requires n < |messages| && messages[n].role.Assistant? && CleanMessage(codec, messages[n], CallsBefore(messages, n))
    requires n > 0 ==> messages[n - 1].role.User?
    requires Prefix(codec, req, messages, n, Read(codec, AddMessages(codec, req, messages, n).entries, now), now)
    ensures Prefix(codec, req, messages, n + 1, Read(codec, AddMessages(codec, req, messages, n + 1).entries, now), now)
  {
    var before := Read(codec, AddMessages(codec, req, messages, n).entries, now);
    var r := Read(codec, AddMessages(codec, req, messages, n + 1).entries, now);
    hide CleanMessage, AddMessages, CallsBefore, EntryName, Canonical, Read, PiSession.FlushGroup, Sound, SegmentBlocks, ReadsAs, Matches;
    ClosedGroup(before.messages, now);
    AssistantGroupRead(codec, req, messages, n, now);
    OpenGroupCloses(r.group, r.messages, EntryName(codec, req, messages, n), Stamp(messages[n].createdAt, req.now), now);
    var all := PiSession.FlushGroup(r, now).messages;
    var out := all[|before.messages|];
    AssistantReadsAs(codec, req, messages, n, out);
    assert all == before.messages + [out];
    PrefixOneMore(codec, req, messages, n, before, r, out, now);
  }

  lemma AssistantReadsAs(codec: Codec, req: Request, messages: seq<ChatMessage>, n: nat, out: ChatMessage)
    requires n < |messages| && messages[n].role.Assistant? && out.role.Assistant?
    requires out.content == Blocks(Canonical(codec, messages[n].content)) && out.id == EntryName(codec, req, messages, n)
    requires out.createdAt == Stamp(messages[n].createdAt, req.now)
    ensures ReadsAs(codec, req, messages, n, out)
  {
    hide EntryName, Canonical;
  }

  lemma PrefixStart(codec: Codec, req: Request, messages: seq<ChatMessage>, now: int)
    ensures Prefix(codec, req, messages, 0, Read(codec, Start(req, messages).entries, now), now)
  {
    PiSession.ReadOneMore(codec, PiSession.FRESH_READER, [], Start(req, messages).entries[0], now);
    assert [] + Start(req, messages).entries == Start(req, messages).entries;
  }

  lemma CleanAt(codec: Codec, messages: seq<ChatMessage>, i: nat)
    requires CleanChat(codec, messages) && i < |messages|
    ensures CleanMessage(codec, messages[i], CallsBefore(messages, i)) && !messages[i].role.OtherRole?
    ensures i > 0 && messages[i].role.Assistant? ==> messages[i - 1].role.User?
  {
    hide CarryAll, CallsBefore, Answered;
    if i > 0 { assert CleanMessage(codec, messages[i - 1], CallsBefore(messages, i - 1)); }
  }

  lemma {:induction false} MessagesRead(codec: Codec, req: Request, messages: seq<ChatMessage>, n: nat, now: int)
    requires Sound(codec) && req.now > 0
    requires n <= |messages| && CleanChat(codec, messages)
    ensures Prefix(codec, req, messages, n, Read(codec, AddMessages(codec, req, messages, n).entries, now), now)
  {
    hide Prefix, CleanMessage, CallsBefore, Read, Sound, CleanChat, AddMessage;
    if n == 0 {
      PrefixStart(codec, req, messages, now);
    } else {
      CleanAt(codec, messages, n - 1);
      MessagesRead(codec, req, messages, n - 1, now);
      if messages[n - 1].role.User? {
        UserReads(codec, req, messages, n - 1, now);
      } else {
        AssistantReads(codec, req, messages, n - 1, now);
      }
    }
  }

  /** `out` is what the migration writes, the compaction step included. */
  ghost predicate Migrates(codec: Codec, req: Request, messages: seq<ChatMessage>, out: seq<Entry>) {
    Compacts(codec, req, messages, BaseLog(codec, req, messages).entries, COMPACT_THRESHOLD_BYTES, KEEP_TAIL_BYTES, out)
  }

  /** The compaction step takes nothing from the messages of the log. */
  lemma CompactionReadsThrough(codec: Codec, req: Request, messages: seq<ChatMessage>, out: seq<Entry>, now: int)
    requires Migrates(codec, req, messages, out)
    ensures PiSession.ReadLog(codec, out, now) == PiSession.ReadLog(codec, BaseLog(codec, req, messages).entries, now)
  {
    var base := BaseLog(codec, req, messages).entries;
    OversizedLogIsCompacted(codec, req, messages, out);
    hide BaseLog, PiSession.ReadLog, Compacts, Bytes, CutOf;
    if |out| == |base| + 1 {
      assert out == base + [out[|base|]];
      PiSessionCompaction.CompactionIsSkipped(codec, base, out[|base|], now);
    }
  }

  /**
   * Reading the file that a migration writes, whether compacted or not, gives the messages back: roles, block
   * sequences, each block as `Carry` says, and times, one for one.
   */
  lemma MigrationRoundTrip(codec: Codec, req: Request, messages: seq<ChatMessage>, out: seq<Entry>, now: int)
    requires Sound(codec) && req.now > 0
    requires CleanChat(codec, messages) && Migrates(codec, req, messages, out)
    ensures Matches(codec, req, messages, |messages|, PiSession.ReadLog(codec, out, now))
  {
    MessagesRead(codec, req, messages, |messages|, now);
    CompactionReadsThrough(codec, req, messages, out, now);
    hide Migrates, Sound, CleanChat, Matches;
  }

  /** The blocks of a message as they were. */
  function OwnBlocks(content: Content): seq<Block> {
    match content
    case Plain(text) => [Text(text)]
    case Blocks(blocks) => blocks
    case Value(_) => []
  }

  /** Within the limits on the size of texts and arguments. */
  predicate Within(codec: Codec, b: Block) {
    match b
    case Text(text) => |text| <= 4096
    case Thinking(thinking, _) => |thinking| <= 4096
    case ToolUse(_, _, input) => codec.argumentBytes(Sanitize(if input.Object? then input else Object([]), 0)) <= 32768
    case _ => true
  }

  /** What a block must be like to come back as it was; no media block and no redacted thinking does. */
  predicate Survives(b: Block) {
    match b
    case Text(text) => text != ""
    case Thinking(thinking, _) => thinking != ""
    case ToolUse(id, name, input) =>
      id != "" && name != "" && PiSession.UiToolName(name) == name && input.Object? && Kept(input, 0)
    case ToolResult(_, content, isError) => ResultSurvives(content) && !isError
    case _ => false
  }

  lemma CarryKeeps(codec: Codec, b: Block)
    requires Sound(codec) && Within(codec, b)
    ensures |Carry(codec, b)| <= 1
    ensures Carry(codec, b) == [b] <==> Survives(b)
  {
    if b.ToolResult? { ResultReadsBack(codec, b.content); }
    if b.ToolUse? && b.input.Object? { SanitizeKeeps(b.input, 0); }
    hide Sound, ResultReadBack, ResultSurvives, Sanitize, PiSession.UiToolName, Kept;
  }

  predicate AllSurvive(blocks: seq<Block>) {
    forall k :: 0 <= k < |blocks| ==> Survives(blocks[k])
  }

  predicate AllWithin(codec: Codec, blocks: seq<Block>) {
    forall k :: 0 <= k < |blocks| ==> Within(codec, blocks[k])
  }

  lemma SplitLast(codec: Codec, blocks: seq<Block>)
    requires blocks != []
    ensures var n := |blocks| - 1;
      && (AllSurvive(blocks) <==> AllSurvive(blocks[..n]) && Survives(blocks[n]))
      && (AllWithin(codec, blocks) <==> AllWithin(codec, blocks[..n]) && Within(codec, blocks[n]))
  {
    hide Survives, Within;
    var init := blocks[..|blocks| - 1];
    assert blocks == init + [blocks[|blocks| - 1]];
    forall k | 0 <= k < |init| ensures init[k] == blocks[k] {}
  }

  lemma SameSplit<T>(a: seq<T>, b: seq<T>, s: seq<T>)
    requires s != [] && |a| <= |s| - 1 && |b| <= 1
    ensures a + b == s <==> a == s[..|s| - 1] && b == [s[|s| - 1]]
  {
    if a + b == s {
      assert s[..|s| - 1] == a;
    } else if a == s[..|s| - 1] {
      assert s == s[..|s| - 1] + [s[|s| - 1]];
    }
  }

  lemma {:induction false} CarriesAllAsTheyWere(codec: Codec, blocks: seq<Block>)
    requires Sound(codec) && AllWithin(codec, blocks)
    ensures |CarryAll(codec, blocks)| <= |blocks|
    ensures CarryAll(codec, blocks) == blocks <==> AllSurvive(blocks)
  {
    if blocks != [] {
      var n := |blocks| - 1;
      hide Sound, Carry, Survives, Within, AllSurvive, AllWithin;
      SplitLast(codec, blocks);
      CarriesAllAsTheyWere(codec, blocks[..n]);
      CarryKeeps(codec, blocks[n]);
      SameSplit(CarryAll(codec, blocks[..n]), Carry(codec, blocks[n]), blocks);
    }
  }

  /** A message within the limits comes back with its own blocks exactly when each of them survives. */
  lemma OwnBlocksComeBack(codec: Codec, req: Request, messages: seq<ChatMessage>, out: seq<Entry>, i: nat, now: int)
    requires Sound(codec) && req.now > 0
    requires CleanChat(codec, messages) && Migrates(codec, req, messages, out) && i < |messages|
    requires AllWithin(codec, OwnBlocks(messages[i].content))
    ensures var read, own := PiSession.ReadLog(codec, out, now), OwnBlocks(messages[i].content);
      |read| == |messages| && (read[i].content == Blocks(own) <==> AllSurvive(own))
  {
    MigrationRoundTrip(codec, req, messages, out, now);
    CarriesOwn(codec, messages[i], CallsBefore(messages, i));
    hide Migrates, Sound, CleanChat, EntryName, Canonical, OwnBlocks, AllSurvive, AllWithin, CallsBefore, CleanMessage;
  }

  lemma CarriesOwn(codec: Codec, m: ChatMessage, earlier: set<string>)
    requires Sound(codec) && CleanMessage(codec, m, earlier)
    requires AllWithin(codec, OwnBlocks(m.content))
    ensures Canonical(codec, m.content) == OwnBlocks(m.content) <==> AllSurvive(OwnBlocks(m.content))
  {
    match m.content
    case Plain(text) =>
      TrimSpaceTrims("");
      assert Within(codec, Text(text)) by { assert OwnBlocks(m.content)[0] == Text(text); }
      hide TrimSpace, Print;
      assert Survives(Text(text));
    case Blocks(blocks) =>
      hide CarryAll, Sound, AllSurvive, AllWithin;
      CarriesAllAsTheyWere(codec, blocks);
    case Value(_) =>
  }

  /* Names */

  /** A name that the builder may make out of another one. */
  predicate Derived(base: string, id: string) {
    base + "_part_" <= id || base + "_tool_result_" <= id || base + "_orphan_tool_result_" <= id || base + "_dup_" <= id
  }

  /** Trimmed, distinct message names, none of which looks like one made from the session's or an earlier message's. */
  ghost predicate PlainIds(req: Request, messages: seq<ChatMessage>) {
    && (forall i :: 0 <= i < |messages| ==> messages[i].id != "" && Trimmed(messages[i].id) && messages[i].id != SessionId(req))
    && (forall j, i :: 0 <= j < i < |messages| ==> messages[j].id != messages[i].id && !Derived(messages[j].id, messages[i].id))
  }

  ghost predicate From(base: string, id: string) {
    id == base || Derived(base, id)
  }

  ghost predicate NamedAfter(used: map<string, nat>, req: Request, messages: seq<ChatMessage>, n: nat)
    requires n <= |messages|
  {
    forall id :: id in used ==> id == SessionId(req) || exists j :: 0 <= j < n && From(messages[j].id, id)
  }

  lemma UniqueIdStaysDerived(used: map<string, nat>, base: string, desired: string)
    requires Positive(used) && desired != "" && Trimmed(desired) && From(base, desired)
    ensures From(base, UniqueId(used, desired))
  {
    UniqueIdKeepsName(used, desired);
    hide UniqueId;
    if desired != base {
      assert desired <= UniqueId(used, desired);
    }
  }

  lemma EmitNames(log: Log, desired: string, stamp: int, message: PiMessage, req: Request, messages: seq<ChatMessage>, n: nat)
    requires Positive(log.used) && desired != "" && Trimmed(desired)
    requires n < |messages| && From(messages[n].id, desired)
    requires NamedAfter(log.used, req, messages, n + 1)
    ensures NamedAfter(Emit(log, desired, stamp, message).used, req, messages, n + 1)
    ensures Positive(Emit(log, desired, stamp, message).used)
  {
    UniqueIdIsFresh(log.used, desired);
    UniqueIdStaysDerived(log.used, messages[n].id, desired);
    hide UniqueId, Claim, Derived, Trimmed;
  }

  /* Messages that are not written */

  /** What a message shows of its own, besides tool results. */
  function ShownOf(codec: Codec, content: Content): seq<Block> {
    match content
    case Plain(text) => if TrimSpace(text) == "" then [] else [Text(Shortened(text))]
    case Blocks(blocks) => CarryAll(codec, blocks)
    case Value(_) => []
  }

  lemma ShowsOrNot(codec: Codec, b: Block)
    requires !b.ToolResult?
    ensures ConvertBlock(codec, b) == [] <==> Carry(codec, b) == []
  {
    hide TrimTextBlock, Shortened, ToolArguments, Arguments, PiSession.UiToolName, MediaOmittedText;
  }

  lemma {:induction false} AllShowOrNot(codec: Codec, blocks: seq<Block>)
    requires forall k :: 0 <= k < |blocks| ==> !blocks[k].ToolResult?
    ensures ConvertBlocks(codec, blocks) == [] <==> CarryAll(codec, blocks) == []
  {
    if blocks != [] {
      AllShowOrNot(codec, blocks[..|blocks| - 1]);
      ShowsOrNot(codec, blocks[|blocks| - 1]);
      hide ConvertBlock, Carry;
    }
  }

  lemma {:induction false} BlocksPend(codec: Codec, log: Log, base: string, stamp: int, blocks: seq<Block>, n: nat)
    requires n <= |blocks| && forall k :: 0 <= k < |blocks| ==> !blocks[k].ToolResult?
    ensures var t := AddBlocks(codec, log, base, stamp, blocks, n);
      t.log.entries == log.entries && t.pending == ConvertBlocks(codec, blocks[..n])
  {
    hide ConvertBlock, CallIds;
    if n > 0 {
      BlocksPend(codec, log, base, stamp, blocks, n - 1);
      assert blocks[..n][..n - 1] == blocks[..n - 1];
    }
  }

  /** A message without tool results is written exactly when it has a role that is written and shows something. */
  lemma {:induction false} SilentMessagesAreSkipped(codec: Codec, req: Request, log: Log, index: nat, m: ChatMessage)
    requires m.content.Blocks? ==> forall k :: 0 <= k < |m.content.blocks| ==> !m.content.blocks[k].ToolResult?
    ensures AddMessage(codec, req, log, index, m).entries == log.entries <==> m.role.OtherRole? || ShownOf(codec, m.content) == []
  {
    hide TrimSpace, TrimTextBlock, Shortened, ConvertBlocks, CarryAll, UniqueId, Claim, BaseId, PartId, StopReason, AddBlocks;
    if m.content.Blocks? {
      var blocks := m.content.blocks;
      AllShowOrNot(codec, blocks);
      BlocksPend(codec, log, BaseId("assistant", index, m.id), Stamp(m.createdAt, req.now), blocks, |blocks|);
      assert blocks[..|blocks|] == blocks;
    }
  }

  /** The names that entries ask for: that of their message, marked for further parts and for results; one is made up if it has none. */
  lemma DesiredNames(messages: seq<ChatMessage>, i: nat, base: string, k: nat)
    requires i < |messages|
    ensures BaseName(messages, i) ==
      if TrimSpace(messages[i].id) != "" then messages[i].id
      else if messages[i].role.User? then "migration_user_" + Print(i) else "migration_assistant_" + Print(i)
    ensures PartId(base, 0) == base && PartId(base, k + 1) == base + "_part_" + Print(k + 1)
    ensures ResultId(base, k) == base + "_tool_result_" + Print(k)
    ensures OrphanId(base, k) == base + "_orphan_tool_result_" + Print(k)
  {
    hide TrimSpace, Print;
    assert "migration_" + "user" + "_" == "migration_user_" && "migration_" + "assistant" + "_" == "migration_assistant_";
  }

  lemma PartNames(base: string, k: nat)
    requires base != "" && Trimmed(base)
    ensures PartId(base, k) != "" && Trimmed(PartId(base, k)) && From(base, PartId(base, k))
    ensures ResultId(base, k) != "" && Trimmed(ResultId(base, k)) && From(base, ResultId(base, k))
    ensures OrphanId(base, k) != "" && Trimmed(OrphanId(base, k)) && From(base, OrphanId(base, k))
  {
    TaggedTrimmed(base, "_part_", k);
    TaggedTrimmed(base, "_tool_result_", k);
    TaggedTrimmed(base, "_orphan_tool_result_", k);
  }

  lemma FlushNames(t: Turn, stamp: int, req: Request, messages: seq<ChatMessage>, n: nat)
    requires n < |messages| && messages[n].id != "" && Trimmed(messages[n].id)
    requires Positive(t.log.used) && NamedAfter(t.log.used, req, messages, n + 1)
    ensures var u := Flush(t, messages[n].id, stamp).log.used; Positive(u) && NamedAfter(u, req, messages, n + 1)
  {
    hide NamedAfter, Trimmed, From, PartId, Emit, Positive, StopReason;
    PartNames(messages[n].id, t.part);
    if t.pending != [] {
      EmitNames(t.log, PartId(messages[n].id, t.part), stamp, PiMigration.AssistantMessage(t.pending), req, messages, n);
    }
  }

  lemma {:induction false} BlockNames(codec: Codec, log: Log, stamp: int, blocks: seq<Block>, k: nat, req: Request, messages: seq<ChatMessage>, n: nat)
    requires n < |messages| && messages[n].id != "" && Trimmed(messages[n].id) && k <= |blocks|
    requires Positive(log.used) && NamedAfter(log.used, req, messages, n + 1)
    ensures var u := AddBlocks(codec, log, messages[n].id, stamp, blocks, k).log.used; Positive(u) && NamedAfter(u, req, messages, n + 1)
  {
    hide NamedAfter, Trimmed, From, PartId, ResultId, OrphanId, Emit, Positive, Flush, ConvertBlock, ResultText, OrphanContent;
    if k > 0 {
      BlockNames(codec, log, stamp, blocks, k - 1, req, messages, n);
      var t, base, b := AddBlocks(codec, log, messages[n].id, stamp, blocks, k - 1), messages[n].id, blocks[k - 1];
      FlushNames(t, stamp, req, messages, n);
      PartNames(base, k - 1);
      var f := Flush(t, base, stamp);
      EmitNames(f.log, OrphanId(base, k - 1), stamp, PiUser(PiBlocks(OrphanContent(codec, if b.ToolResult? then b.toolUseId else "",
        if b.ToolResult? then b.content else Plain("")))), req, messages, n);
      if b.ToolResult? {
        EmitNames(f.log, ResultId(base, k - 1), stamp,
          PiToolResult(b.toolUseId, PiBlocks([PiText(ResultText(codec, b.content))]), b.isError), req, messages, n);
      }
    }
  }

  lemma MessageNames(codec: Codec, req: Request, log: Log, messages: seq<ChatMessage>, n: nat)
    requires n < |messages| && messages[n].id != "" && Trimmed(messages[n].id)
    requires Positive(log.used) && NamedAfter(log.used, req, messages, n + 1)
    ensures var u := AddMessage(codec, req, log, n, messages[n]).used; Positive(u) && NamedAfter(u, req, messages, n + 1)
  {
    var m, base := messages[n], messages[n].id;
    var stamp := Stamp(m.createdAt, req.now);
    OwnName("user", n, base);
    OwnName("assistant", n, base);
    hide NamedAfter, Trimmed, Emit, Positive, Flush, AddBlocks, ConvertContent, BaseId, StopReason, Derived;
    if SplitsIntoParts(m) {
      BlockNames(codec, log, stamp, m.content.blocks, |m.content.blocks|, req, messages, n);
      FlushNames(AddBlocks(codec, log, base, stamp, m.content.blocks, |m.content.blocks|), stamp, req, messages, n);
    } else {
      var content := ConvertContent(codec, m.content);
      EmitNames(log, base, stamp, PiUser(PiBlocks(content)), req, messages, n);
      EmitNames(log, base, stamp, PiMigration.AssistantMessage(content), req, messages, n);
    }
  }

  lemma OwnName(prefix: string, index: nat, id: string)
    requires id != "" && Trimmed(id)
    ensures BaseId(prefix, index, id) == id
  {
    TrimSpaceTrims(id);
  }

  lemma MoreNames(used: map<string, nat>, req: Request, messages: seq<ChatMessage>, n: nat)
    requires n < |messages| && NamedAfter(used, req, messages, n)
    ensures NamedAfter(used, req, messages, n + 1)
  {
    hide From, SessionId;
  }

  lemma {:induction false} MessagesNames(codec: Codec, req: Request, messages: seq<ChatMessage>, n: nat)
    requires n <= |messages|
    requires forall i :: 0 <= i < |messages| ==> messages[i].id != "" && Trimmed(messages[i].id)
    ensures var u := AddMessages(codec, req, messages, n).used; Positive(u) && NamedAfter(u, req, messages, n)
  {
    hide AddMessage, Derived, Trimmed, SessionId, StartedAt, Stamp;
    if n > 0 {
      MessagesNames(codec, req, messages, n - 1);
      var log := AddMessages(codec, req, messages, n - 1);
      MoreNames(log.used, req, messages, n - 1);
      MessageNames(codec, req, log, messages, n - 1);
    }
  }

  /** A message with a plain name is written, and so read back, under that very name. */
  lemma PlainIdsAreKept(codec: Codec, req: Request, messages: seq<ChatMessage>, i: nat)
    requires PlainIds(req, messages) && i < |messages|
    ensures EntryName(codec, req, messages, i) == messages[i].id
  {
    MessagesNames(codec, req, messages, i);
    OwnName(if messages[i].role.User? then "user" else "assistant", i, messages[i].id);
    hide AddMessages, Derived, SessionId, UniqueId, BaseId, Trimmed;
    UniqueIdKeepsName(AddMessages(codec, req, messages, i).used, messages[i].id);
  }

  /** With plain names the round trip keeps the names too. */
  lemma MigrationKeepsIds(codec: Codec, req: Request, messages: seq<ChatMessage>, out: seq<Entry>, now: int)
    requires Sound(codec) && req.now > 0
    requires CleanChat(codec, messages) && PlainIds(req, messages) && Migrates(codec, req, messages, out)
    ensures var read := PiSession.ReadLog(codec, out, now);
      |read| == |messages| && forall i :: 0 <= i < |messages| ==> read[i].id == messages[i].id
  {
    hide Sound, CleanChat, PlainIds, Migrates, PiSession.ReadLog, BaseLog, EntryName, Canonical;
    MigrationRoundTrip(codec, req, messages, out, now);
    forall i | 0 <= i < |messages| ensures EntryName(codec, req, messages, i) == messages[i].id {
      PlainIdsAreKept(codec, req, messages, i);
    }
  }
}
