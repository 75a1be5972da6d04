/** What the entries of a Pi log show in the messages read from it (internal/app/pi_session_messages.go). */
module PiReading {
  import opened Prelude
  import opened Places
  import opened Text
  import opened ChatBlocks
  import opened ContentMerge
  import opened PiSession

  /* Names of tools */

  /** The tools whose names are shown differently, with the names shown. */
  const TOOL_NAMES: map<string, string> := map[
    "bash" := "Bash", "read" := "Read", "write" := "Write", "edit" := "Edit", "ls" := "Glob", "find" := "Glob",
    "grep" := "Grep", "agent" := "Agent", "explore" := "Agent", "ask_user_question" := "AskUserQuestion",
    "AskUserQuestion" := "AskUserQuestion", "todo_write" := "TodoWrite", "TodoWrite" := "TodoWrite",
    "web_search" := "WebSearch", "WebSearch" := "WebSearch", "web_fetch" := "WebFetch", "WebFetch" := "WebFetch",
    "js_exec" := "JavaScript Exec"]

  lemma ToolNamesAreListed(name: string)
    ensures UiToolName(name) == if TrimSpace(name) in TOOL_NAMES then TOOL_NAMES[TrimSpace(name)] else name
  {
    hide TrimSpace;
  }

  /* Blocks */

  /** What is shown of a list: non-empty texts and thinking, named calls, and media. */
  predicate Visible(b: PiBlock) {
    match b
    case PiText(text) => text != ""
    case PiThinking(thinking, _) => thinking != ""
    case PiToolCall(id, name, _) => id != "" && name != ""
    case PiOther(kind, _, _) => kind in {"image", "input_image", "screenshot", "document", "audio", "video", "file"}
  }

  function Show(b: PiBlock): Block {
    match b
    case PiText(text) => Text(text)
    case PiThinking(thinking, signature) => Thinking(thinking, signature)
    case PiToolCall(id, name, arguments) => ToolUse(id, UiToolName(name), if arguments.Object? then arguments else Object([]))
    case PiOther(kind, hasSource, payload) => Other(kind, hasSource, payload)
  }

  ghost function AreVisible(blocks: seq<PiBlock>): nat -> bool {
    (k: nat) => k < |blocks| && Visible(blocks[k])
  }

  ghost function ShownAt(blocks: seq<PiBlock>, places: seq<nat>): seq<Block>
    requires forall i :: 0 <= i < |places| ==> places[i] < |blocks|
  {
    seq(|places|, i requires 0 <= i < |places| => Show(blocks[places[i]]))
  }

  lemma VisibleIsShown(b: PiBlock)
    ensures UiBlock(b) == if Visible(b) then [Show(b)] else []
  {
    hide UiToolName;
  }

  lemma ShownAtOneMore(blocks: seq<PiBlock>, places: seq<nat>, n: nat)
    requires n < |blocks| && forall i :: 0 <= i < |places| ==> places[i] < |blocks|
    ensures ShownAt(blocks, places + [n]) == ShownAt(blocks, places) + [Show(blocks[n])]
    ensures ShownAt(blocks, []) == []
  {
    hide Show;
  }

  lemma {:induction false} ShownUpTo(blocks: seq<PiBlock>, n: nat, places: seq<nat>)
    requires n <= |blocks| && Listing(places, n, AreVisible(blocks))
    ensures UiBlockList(blocks[..n]) == ShownAt(blocks, places)
  {
    if n == 0 {
      assert ShownAt(blocks, []) == [];
      assert places == [];
    } else {
      var last: nat := n - 1;
      assert blocks[..n] == blocks[..last] + [blocks[last]];
      UiBlockListConcat(blocks[..last], [blocks[last]]);
      UiBlockListOne(blocks[last]);
      VisibleIsShown(blocks[last]);
      ListingOneLess(places, last, AreVisible(blocks));
      hide UiBlockList, UiBlock, Show, Visible, ShownAt;
      if Visible(blocks[last]) {
        var front := places[..|places| - 1];
        ShownUpTo(blocks, last, front);
        assert places == front + [last];
        ShownAtOneMore(blocks, front, last);
      } else {
        ShownUpTo(blocks, last, places);
      }
    }
  }

  /** A list is shown block by block, in order, without those that are not visible. */
  lemma VisibleBlocksAreShown(blocks: seq<PiBlock>, places: seq<nat>)
    requires Listing(places, |blocks|, AreVisible(blocks))
    ensures UiBlocks(PiBlocks(blocks)) == ShownAt(blocks, places)
  {
    ShownUpTo(blocks, |blocks|, places);
    assert blocks[..|blocks|] == blocks;
    hide UiBlockList;
  }

  lemma {:induction false} AllTexts(blocks: seq<Block>)
    requires forall i :: 0 <= i < |blocks| ==> Words(blocks[i])
    ensures Texts(blocks) == seq(|blocks|, i requires 0 <= i < |blocks| && Words(blocks[i]) => blocks[i].text)
  {
    if blocks != [] {
      assert forall i :: 0 <= i < |blocks| - 1 ==> blocks[1..][i] == blocks[i + 1];
      AllTexts(blocks[1..]);
    }
  }

  ghost function PiTextsAt(blocks: seq<PiBlock>, places: seq<nat>): seq<string>
    requires forall i :: 0 <= i < |places| ==> places[i] < |blocks| && blocks[places[i]].PiText?
  {
    seq(|places|, i requires 0 <= i < |places| => blocks[places[i]].text)
  }

  /**
   * The list that a result holds is shown as its texts joined with line breaks, if only texts are visible; as the blocks
   * that are, if others are among them; and as its JSON if none are.
   */
  lemma ResultListIsShown(codec: Codec, blocks: seq<PiBlock>, places: seq<nat>)
    requires Listing(places, |blocks|, AreVisible(blocks))
    ensures UiResultContent(codec, PiBlocks(blocks)) ==
      if places == [] then Plain(codec.piContentJson(PiBlocks(blocks)))
      else if forall i :: 0 <= i < |places| ==> blocks[places[i]].PiText? then
        Plain(Join(PiTextsAt(blocks, places), "\n"))
      else Blocks(ShownAt(blocks, places))
  {
    var shown := ShownAt(blocks, places);
    VisibleBlocksAreShown(blocks, places);
    hide UiBlocks, Join, Texts;
    forall i | 0 <= i < |places| ensures shown[i].Text? <==> blocks[places[i]].PiText? {}
    if forall i :: 0 <= i < |places| ==> blocks[places[i]].PiText? {
      forall i | 0 <= i < |shown| ensures Words(shown[i]) { assert Visible(blocks[places[i]]); }
      AllTexts(shown);
      assert Texts(shown) == PiTextsAt(blocks, places);
    }
  }

  /** Text is shown as it is, no value as nothing, and any other value as its JSON. */
  lemma OtherResultsAreShown(codec: Codec, content: PiContent)
    requires !content.PiBlocks?
    ensures UiResultContent(codec, content) == Plain(
      if content.PiPlain? then content.text else if content.json == Null then "" else codec.piContentJson(content))
  {
    if content.PiPlain? && content.text != "" {
      assert [Text(content.text)][1..] == [];
      assert Texts([Text(content.text)]) == [content.text];
    }
  }

  /* Whole logs */

  function Shown(content: PiContent): seq<Block> {
    match content
    case PiPlain(text) => if text == "" then [] else [Text(text)]
    case PiBlocks(blocks) => ShownBlocks(blocks)
    case PiValue(_) => []
  }

  function ShownBlocks(blocks: seq<PiBlock>): seq<Block> {
    if blocks == [] then []
    else (if Visible(blocks[0]) then [Show(blocks[0])] else []) + ShownBlocks(blocks[1..])
  }

  lemma {:induction false} BlocksAreShown(blocks: seq<PiBlock>)
    ensures UiBlockList(blocks) == ShownBlocks(blocks)
  {
    if blocks != [] {
      assert blocks == [blocks[0]] + blocks[1..];
      UiBlockListConcat([blocks[0]], blocks[1..]);
      UiBlockListOne(blocks[0]);
      VisibleIsShown(blocks[0]);
      BlocksAreShown(blocks[1..]);
      hide UiBlockList, UiBlock, Visible, Show;
    }
  }

  lemma ContentIsShown(content: PiContent)
    ensures UiBlocks(content) == Shown(content)
  {
    if content.PiBlocks? { BlocksAreShown(content.blocks); }
    hide UiBlockList, ShownBlocks;
  }

  /** What one entry adds to the messages; without any block to show, an answer shows the error of its provider. */
  function Adds(codec: Codec, e: Entry): seq<Block> {
    if !e.Message? then []
    else
      match e.message
      case PiUser(content) => Shown(content)
      case PiAssistant(content, _, providerError) =>
        if Shown(content) == [] && providerError != "" then [Text(providerError)] else Shown(content)
      case PiToolResult(callId, content, _) => [ToolResult(callId, UiResultContent(codec, content), false)]
      case PiOtherRole(_) => []
  }

  function AllAdded(codec: Codec, entries: seq<Entry>): seq<Block> {
    if entries == [] then [] else AllAdded(codec, entries[..|entries| - 1]) + Adds(codec, entries[|entries| - 1])
  }

  /** Entries with names of their own, none of them one that the reader makes up, and results that name their calls. */
  predicate WellNamed(entries: seq<Entry>) {
    && (forall i, j :: 0 <= i < j < |entries| ==> entries[i].id != entries[j].id)
    && (forall i :: 0 <= i < |entries| ==> entries[i].id != "" && !("pi_tool_result_" <= entries[i].id))
    && (forall i :: 0 <= i < |entries| && entries[i].Message? && entries[i].message.PiToolResult? ==>
          TrimSpace(entries[i].message.toolCallId) != "")
  }

  ghost function Open(r: Reader): seq<Block> {
    AllBlocks(r.messages) + SegmentBlocks(r.group.segments)
  }

  /** The last segment is named after one of the entries read, or by the reader. */
  ghost predicate LastNamed(r: Reader, entries: seq<Entry>) {
    var n := |r.group.segments|;
    n > 0 ==>
      "pi_tool_result_" <= r.group.segments[n - 1].id || exists i :: 0 <= i < |entries| && entries[i].id == r.group.segments[n - 1].id
  }

  lemma AllBlocksAppend(messages: seq<ChatMessage>, m: ChatMessage)
    ensures AllBlocks(messages + [m]) == AllBlocks(messages) + if m.content.Blocks? then m.content.blocks else []
  {
    assert (messages + [m])[..|messages|] == messages;
  }

  lemma FlushAddsNothing(r: Reader, now: int)
    ensures Open(FlushGroup(r, now)) == Open(r) && FlushGroup(r, now).group.segments == []
  {
    assert SegmentBlocks([]) == [];
    if r.group.segments != [] {
      AllBlocksAppend(r.messages, GroupMessage(r.group, |r.messages|, now));
      hide SegmentBlocks, AllBlocks;
    }
  }

  lemma UpsertAdds(g: Group, id: string, blocks: seq<Block>, t: int)
    requires g.segments != [] ==> g.segments[|g.segments| - 1].id != id
    ensures SegmentBlocks(Upsert(g, id, blocks, t).segments) == SegmentBlocks(g.segments) + blocks
    ensures var s := Upsert(g, id, blocks, t).segments; s != [] && s[|s| - 1].id == id
  {
    SegmentBlocksAppend(g.segments, Segment(id, blocks, t));
    hide SegmentBlocks, Merge;
  }

  lemma MessageAdds(r: Reader, m: ChatMessage)
    requires r.group.segments == [] && m.content.Blocks?
    ensures Open(r.(messages := r.messages + [m])) == Open(r) + m.content.blocks
  {
    AllBlocksAppend(r.messages, m);
    assert SegmentBlocks([]) == [];
    hide AllBlocks, SegmentBlocks;
  }

  lemma UserAdds(codec: Codec, r: Reader, e: Entry, now: int)
    requires e.Message? && e.message.PiUser? && e.id != ""
    ensures var next := ReadEntry(codec, r, e, now);
      Open(next) == Open(r) + Adds(codec, e) && next.group.segments == []
  {
    var f, blocks := FlushGroup(r, now), UiBlocks(e.message.content);
    ContentIsShown(e.message.content);
    hide UiBlocks, Shown, FlushGroup, Open;
    FlushAddsNothing(r, now);
    MessageAdds(f, PiSession.UserMessage(e.id, blocks, e.timestamp));
  }

  lemma AnswerAdds(codec: Codec, r: Reader, e: Entry, now: int)
    requires e.Message? && e.message.PiAssistant? && e.id != ""
    requires r.group.segments != [] ==> r.group.segments[|r.group.segments| - 1].id != e.id
    ensures var next := ReadEntry(codec, r, e, now);
      && Open(next) == Open(r) + Adds(codec, e)
      && (next == r || (next.group.segments != [] && next.group.segments[|next.group.segments| - 1].id == e.id))
  {
    ContentIsShown(e.message.content);
    hide UiBlocks, Shown, Upsert, SegmentBlocks, AllBlocks;
    UpsertAdds(r.group, e.id, Adds(codec, e), e.timestamp);
  }

  lemma ResultAdds(codec: Codec, r: Reader, e: Entry, now: int)
    requires e.Message? && e.message.PiToolResult? && TrimSpace(e.message.toolCallId) != ""
    ensures var next := ReadEntry(codec, r, e, now);
      && Open(next) == Open(r) + Adds(codec, e) && next.group.segments != []
      && var id := next.group.segments[|next.group.segments| - 1].id;
         "pi_tool_result_" <= id || (r.group.segments != [] && id == r.group.segments[|r.group.segments| - 1].id)
  {
    var id, blocks := ReaderId(|r.messages|), Adds(codec, e);
    assert "pi_tool_result_" <= id;
    hide UiResultContent, TrimSpace, Upsert, SegmentBlocks, AllBlocks, ReaderId;
    if r.group.segments == [] {
      UpsertAdds(r.group, id, blocks, e.timestamp);
    } else {
      AppendToLastBlocks(r.group, blocks, e.timestamp);
    }
  }

  lemma LastStaysNamed(r: Reader, entries: seq<Entry>, e: Entry)
    requires LastNamed(r, entries)
    ensures LastNamed(r, entries + [e])
  {
    var n := |r.group.segments|;
    if n > 0 && !("pi_tool_result_" <= r.group.segments[n - 1].id) {
      var i :| 0 <= i < |entries| && entries[i].id == r.group.segments[n - 1].id;
      assert (entries + [e])[i] == entries[i];
    }
  }

  lemma EntryAdds(codec: Codec, r: Reader, entries: seq<Entry>, e: Entry, now: int)
    requires LastNamed(r, entries) && WellNamed(entries + [e])
    ensures var next := ReadEntry(codec, r, e, now);
      Open(next) == Open(r) + Adds(codec, e) && LastNamed(next, entries + [e])
  {
    var all, n := entries + [e], |r.group.segments|;
    assert all[|entries|] == e;
    assert forall i :: 0 <= i < |entries| ==> all[i] == entries[i];
    LastStaysNamed(r, entries, e);
    hide Open, Adds, ReadEntry, TrimSpace;
    if !e.Message? || e.message.PiOtherRole? {
      NothingAdded(codec, r, e, now);
    } else if e.message.PiUser? {
      UserAdds(codec, r, e, now);
    } else if e.message.PiAssistant? {
      assert forall i :: 0 <= i < |entries| ==> all[i].id != all[|entries|].id;
      AnswerAdds(codec, r, e, now);
    } else {
      ResultAdds(codec, r, e, now);
    }
  }

  lemma NothingAdded(codec: Codec, r: Reader, e: Entry, now: int)
    requires !e.Message? || e.message.PiOtherRole?
    ensures ReadEntry(codec, r, e, now) == r && Adds(codec, e) == [] && Open(r) == Open(r) + Adds(codec, e)
  {
  }

  lemma WellNamedPrefix(entries: seq<Entry>)
    requires WellNamed(entries) && entries != []
    ensures WellNamed(entries[..|entries| - 1])
  {
    hide TrimSpace;
  }

  lemma {:induction false} EntriesAdd(codec: Codec, entries: seq<Entry>, now: int)
    requires WellNamed(entries)
    ensures var r := ReadEntries(codec, FRESH_READER, entries, now);
      Open(r) == AllAdded(codec, entries) && LastNamed(r, entries)
  {
    if entries == [] {
      assert SegmentBlocks([]) == [] && AllBlocks([]) == [];
    } else {
      var init, e := entries[..|entries| - 1], entries[|entries| - 1];
      assert entries == init + [e];
      WellNamedPrefix(entries);
      EntriesAdd(codec, init, now);
      hide Open, LastNamed, WellNamed, ReadEntry, Adds;
      EntryAdds(codec, ReadEntries(codec, FRESH_READER, init, now), init, e, now);
    }
  }

  /** Reading a well-named log loses no block, repeats none and moves none: its messages hold what its entries add, in order. */
  lemma BlocksAreConserved(codec: Codec, entries: seq<Entry>, now: int)
    requires WellNamed(entries)
    ensures AllBlocks(ReadLog(codec, entries, now)) == AllAdded(codec, entries)
  {
    EntriesAdd(codec, entries, now);
    FlushAddsNothing(ReadEntries(codec, FRESH_READER, entries, now), now);
    assert SegmentBlocks([]) == [];
    hide ReadEntries, FlushGroup, AllBlocks, AllAdded;
  }
}
