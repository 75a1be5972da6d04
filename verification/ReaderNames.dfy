/** The names of the messages that reading a Pi log gives, and when two of them are the same (internal/app/pi_session_messages.go). */
module ReaderNames {
  import opened Text
  import opened ChatBlocks
  import opened ContentMerge
  import opened PiSession

  /* Which entries start a message */

  /** The reader makes something of the entry. */
  predicate Shows(e: Entry) {
    e.Message? &&
    match e.message
    case PiUser(content) => UiBlocks(content) != []
    case PiAssistant(content, _, providerError) => UiBlocks(content) != [] || providerError != ""
    case PiToolResult(_, _, _) => true
    case PiOtherRole(_) => false
  }

  /** After the first `n` entries an assistant message is under way: the last entry that counts is not a user's. */
  predicate Open(entries: seq<Entry>, n: nat)
    requires n <= |entries|
  {
    n > 0 &&
    var e := entries[n - 1];
    if e.Message? && e.message.PiUser? then false else Shows(e) || Open(entries, n - 1)
  }

  predicate StartsMessage(entries: seq<Entry>, i: nat)
    requires i < |entries|
  {
    Shows(entries[i]) && (entries[i].message.PiUser? || !Open(entries, i))
  }

  /** The number of messages that start in the first `n` entries. */
  function Position(entries: seq<Entry>, n: nat): nat
    requires n <= |entries|
  {
    if n == 0 then 0 else Position(entries, n - 1) + if StartsMessage(entries, n - 1) then 1 else 0
  }

  /** The message that starts with entry `i` bears the entry's own name. */
  predicate NamesMessage(entries: seq<Entry>, i: nat)
    requires i < |entries|
  {
    StartsMessage(entries, i) && !entries[i].message.PiToolResult?
  }

  /** The message that starts with entry `t` begins with a tool result and is named after its position. */
  predicate OpensWithResult(entries: seq<Entry>, t: nat)
    requires t < |entries|
  {
    StartsMessage(entries, t) && entries[t].message.PiToolResult?
  }

  /**
   * An entry that names a message bears just the name that the reader gives to a message beginning with a tool
   * result, and the later of the two stands at `from` or after it.
   */
  predicate Collides(entries: seq<Entry>, from: nat) {
    exists i: nat, t: nat :: i < |entries| && t < |entries| && (i >= from || t >= from) &&
      NamesMessage(entries, i) && OpensWithResult(entries, t) && entries[i].id == ReaderId(Position(entries, t))
  }

  /* The heads of the messages */

  /** A message's name, whether it is a user's, and whether it begins with a tool result. */
  datatype Head = Head(name: string, byUser: bool, byResult: bool)

  predicate ResultFirst(blocks: seq<Block>) {
    blocks != [] && blocks[0].ToolResult?
  }

  function HeadOf(m: ChatMessage): Head {
    Head(m.id, m.role.User?, m.content.Blocks? && ResultFirst(m.content.blocks))
  }

  function HeadsOf(messages: seq<ChatMessage>): (heads: seq<Head>)
    ensures |heads| == |messages|
    ensures forall i :: 0 <= i < |messages| ==> heads[i] == HeadOf(messages[i])
  {
    seq(|messages|, i requires 0 <= i < |messages| => HeadOf(messages[i]))
  }

  function HeadAt(entries: seq<Entry>, i: nat): Head
    requires i < |entries| && StartsMessage(entries, i)
  {
    var m := entries[i].message;
    Head(if m.PiToolResult? then ReaderId(Position(entries, i)) else entries[i].id, m.PiUser?, m.PiToolResult?)
  }

  function Heads(entries: seq<Entry>, n: nat): (heads: seq<Head>)
    requires n <= |entries|
    ensures |heads| == Position(entries, n)
  {
    if n == 0 then []
    else Heads(entries, n - 1) + if StartsMessage(entries, n - 1) then [HeadAt(entries, n - 1)] else []
  }

  /** Every entry has a name, and no two have the same. */
  ghost predicate NamedEntries(entries: seq<Entry>) {
    && (forall i :: 0 <= i < |entries| ==> entries[i].id != "")
    && (forall i, j :: 0 <= i < j < |entries| ==> entries[i].id != entries[j].id)
  }

  /* The first block of a group */

  lemma {:induction false} ListHoldsNoResult(blocks: seq<PiBlock>)
    ensures forall i :: 0 <= i < |UiBlockList(blocks)| ==> !UiBlockList(blocks)[i].ToolResult?
  {
    hide UiToolName;
    if blocks != [] { ListHoldsNoResult(blocks[..|blocks| - 1]); }
  }

  lemma ContentHoldsNoResult(content: PiContent)
    ensures forall i :: 0 <= i < |UiBlocks(content)| ==> !UiBlocks(content)[i].ToolResult?
  {
    if content.PiBlocks? { ListHoldsNoResult(content.blocks); }
  }

  lemma {:induction false} SurvivorsBegin(existing: seq<Block>, incoming: seq<Block>, n: nat)
    requires 0 < n <= |existing| && Survives(existing[0], incoming)
    ensures Survivors(existing, incoming, n) != [] && Survivors(existing, incoming, n)[0] == existing[0]
  {
    hide Survives;
    if n > 1 {
      SurvivorsBegin(existing, incoming, n - 1);
    } else {
      assert Survivors(existing, incoming, 0) == [];
    }
  }

  /** Merging in blocks that hold no tool result leaves one that stands first where it is. */
  lemma MergeKeepsLead(existing: seq<Block>, incoming: seq<Block>)
    requires ResultFirst(existing) && forall i :: 0 <= i < |incoming| ==> !incoming[i].ToolResult?
    ensures ResultFirst(Merge(existing, incoming))
  {
    if HasText(incoming) {
      assert Survives(existing[0], incoming);
      SurvivorsBegin(existing, incoming, |existing|);
    } else {
      MergeByKeyKeepsResults(existing, incoming, |incoming|);
    }
  }

  predicate Leads(g: Group) {
    g.segments != [] && ResultFirst(g.segments[0].content)
  }

  /** An open group has a first block: a tool result, or else its segments are all named by entries. */
  ghost predicate GroupSound(g: Group, ids: set<string>) {
    g.segments != [] ==>
      && g.id != "" && g.segments[0].content != []
      && (Leads(g) || forall k :: 0 <= k < |g.segments| ==> g.segments[k].id in ids)
  }

  /** Another assistant entry of the same message leaves its first block where it is. */
  lemma UpsertKeepsLead(g: Group, ids: set<string>, id: string, blocks: seq<Block>, at: int)
    requires g.segments != [] && GroupSound(g, ids) && id !in ids
    requires blocks != [] && forall i :: 0 <= i < |blocks| ==> !blocks[i].ToolResult?
    ensures var u := Upsert(g, id, blocks, at);
      u.segments != [] && u.id == g.id && GroupSound(u, ids + {id}) && Leads(u) == Leads(g)
  {
    if Leads(g) { MergeKeepsLead(g.segments[0].content, blocks); }
    hide Merge, Later;
  }

  lemma UpsertOpens(id: string, blocks: seq<Block>, at: int, ids: set<string>)
    requires id != "" && blocks != []
    requires ResultFirst(blocks) || id in ids
    ensures var u := Upsert(NO_GROUP, id, blocks, at);
      u.segments != [] && u.id == id && GroupSound(u, ids) && Leads(u) == ResultFirst(blocks)
  {
    hide Merge, Later;
  }

  lemma AppendKeepsLead(g: Group, ids: set<string>, b: Block, at: int)
    requires g.segments != [] && GroupSound(g, ids)
    ensures var u := AppendToLast(g, [b], at);
      u.segments != [] && u.id == g.id && GroupSound(u, ids) && Leads(u) == Leads(g)
  {
    hide Later;
  }

  lemma MoreIdsSound(g: Group, ids: set<string>, id: string)
    requires GroupSound(g, ids)
    ensures GroupSound(g, ids + {id})
  {
  }

  lemma {:induction false} FirstBlock(segments: seq<Segment>)
    requires segments != [] && segments[0].content != []
    ensures SegmentBlocks(segments) != [] && SegmentBlocks(segments)[0] == segments[0].content[0]
  {
    if |segments| > 1 {
      FirstBlock(segments[..|segments| - 1]);
    } else {
      assert SegmentBlocks(segments[..0]) == [];
    }
  }

  /* The reader follows the heads */

  function IdsBefore(entries: seq<Entry>, n: nat): set<string>
    requires n <= |entries|
  {
    set i | 0 <= i < n :: entries[i].id
  }

  lemma NextId(entries: seq<Entry>, n: nat)
    requires n < |entries| && NamedEntries(entries)
    ensures IdsBefore(entries, n + 1) == IdsBefore(entries, n) + {entries[n].id}
    ensures entries[n].id !in IdsBefore(entries, n) && entries[n].id != ""
  {
  }

  ghost predicate Mirrors(r: Reader, entries: seq<Entry>, n: nat)
    requires n <= |entries|
  {
    && (r.group.segments == [] ==> r.group == NO_GROUP)
    && (Open(entries, n) <==> r.group.segments != [])
    && Heads(entries, n) == HeadsOf(r.messages) + if Open(entries, n) then [Head(r.group.id, false, Leads(r.group))] else []
  }

  lemma FlushedHeads(r: Reader, entries: seq<Entry>, n: nat, now: int)
    requires n <= |entries| && Mirrors(r, entries, n) && GroupSound(r.group, IdsBefore(entries, n))
    ensures HeadsOf(FlushGroup(r, now).messages) == Heads(entries, n)
    ensures FlushGroup(r, now).group == NO_GROUP
  {
    if r.group.segments != [] { FirstBlock(r.group.segments); }
    hide Heads, Open, SegmentBlocks, IdsBefore;
  }

  lemma UserMirrors(codec: Codec, r: Reader, entries: seq<Entry>, n: nat, now: int)
    requires n < |entries| && NamedEntries(entries) && Mirrors(r, entries, n) && GroupSound(r.group, IdsBefore(entries, n))
    requires entries[n].Message? && entries[n].message.PiUser?
    ensures Mirrors(ReadEntry(codec, r, entries[n], now), entries, n + 1)
    ensures ReadEntry(codec, r, entries[n], now).group == NO_GROUP
  {
    FlushedHeads(r, entries, n, now);
    var f := FlushGroup(r, now);
    var m := UserMessage(entries[n].id, UiBlocks(entries[n].message.content), entries[n].timestamp);
    assert HeadsOf(f.messages + [m]) == HeadsOf(f.messages) + [HeadOf(m)];
    ContentHoldsNoResult(entries[n].message.content);
    hide FlushGroup, UiBlocks, ReaderId, GroupSound, IdsBefore;
  }

  lemma AssistantMirrors(codec: Codec, r: Reader, entries: seq<Entry>, n: nat, now: int)
    requires n < |entries| && NamedEntries(entries) && Mirrors(r, entries, n) && GroupSound(r.group, IdsBefore(entries, n))
    requires entries[n].Message? && entries[n].message.PiAssistant?
    ensures var next := ReadEntry(codec, r, entries[n], now);
      Mirrors(next, entries, n + 1) && GroupSound(next.group, IdsBefore(entries, n + 1))
  {
    var e := entries[n];
    var converted := UiBlocks(e.message.content);
    var blocks := if converted == [] && e.message.providerError != "" then [Text(e.message.providerError)] else converted;
    ContentHoldsNoResult(e.message.content);
    NextId(entries, n);
    hide Upsert, UiBlocks, ReaderId, GroupSound, IdsBefore, NamedEntries;
    if blocks == [] {
      MoreIdsSound(r.group, IdsBefore(entries, n), e.id);
    } else if r.group.segments == [] {
      UpsertOpens(e.id, blocks, e.timestamp, IdsBefore(entries, n + 1));
    } else {
      UpsertKeepsLead(r.group, IdsBefore(entries, n), e.id, blocks, e.timestamp);
    }
  }

  lemma ReaderIds(m: nat, n: nat)
    ensures ReaderId(m) != ""
    ensures ReaderId(m) == ReaderId(n) ==> m == n
  {
    var p := |"pi_tool_result_"|;
    assert ReaderId(m)[p..] == Print(m) && ReaderId(n)[p..] == Print(n);
    if ReaderId(m) == ReaderId(n) { PrintInjective(m, n); }
  }

  lemma ResultLeads(codec: Codec, r: Reader, ids: set<string>, callId: string, content: PiContent, at: int)
    requires (r.group.segments == [] ==> r.group == NO_GROUP) && GroupSound(r.group, ids)
    ensures var next := ReadToolResult(codec, r, callId, content, at);
      && next.messages == r.messages && next.group.segments != [] && GroupSound(next.group, ids)
      && next.group.id == (if r.group.segments == [] then ReaderId(|r.messages|) else r.group.id)
      && Leads(next.group) == (r.group.segments == [] || Leads(r.group))
  {
    var named := if TrimSpace(callId) == "" then ReaderId(|r.messages| + |r.group.segments|) else callId;
    var b := ToolResult(named, UiResultContent(codec, content), false);
    ReaderIds(|r.messages|, 0);
    hide UiResultContent, TrimSpace, ReaderId, Upsert, AppendToLast, GroupSound, Leads;
    if r.group.segments == [] {
      UpsertOpens(ReaderId(|r.messages|), [b], at, ids);
    } else {
      AppendKeepsLead(r.group, ids, b, at);
    }
  }

  lemma ResultMirrors(codec: Codec, r: Reader, entries: seq<Entry>, n: nat, now: int)
    requires n < |entries| && NamedEntries(entries) && Mirrors(r, entries, n) && GroupSound(r.group, IdsBefore(entries, n))
    requires entries[n].Message? && entries[n].message.PiToolResult?
    ensures var next := ReadEntry(codec, r, entries[n], now);
      Mirrors(next, entries, n + 1) && GroupSound(next.group, IdsBefore(entries, n + 1))
  {
    var e := entries[n];
    ResultLeads(codec, r, IdsBefore(entries, n), e.message.toolCallId, e.message.content, e.timestamp);
    NextId(entries, n);
    hide ReadToolResult, ReaderId, GroupSound, IdsBefore, Leads, NamedEntries;
    MoreIdsSound(ReadToolResult(codec, r, e.message.toolCallId, e.message.content, e.timestamp).group, IdsBefore(entries, n), e.id);
  }

  lemma EntryMirrors(codec: Codec, r: Reader, entries: seq<Entry>, n: nat, now: int)
    requires n < |entries| && NamedEntries(entries) && Mirrors(r, entries, n) && GroupSound(r.group, IdsBefore(entries, n))
    ensures var next := ReadEntry(codec, r, entries[n], now);
      Mirrors(next, entries, n + 1) && GroupSound(next.group, IdsBefore(entries, n + 1))
  {
    hide Mirrors, ReadEntry, NamedEntries, IdsBefore;
    if entries[n].Message? && entries[n].message.PiUser? {
      UserMirrors(codec, r, entries, n, now);
    } else if entries[n].Message? && entries[n].message.PiAssistant? {
      AssistantMirrors(codec, r, entries, n, now);
    } else if entries[n].Message? && entries[n].message.PiToolResult? {
      ResultMirrors(codec, r, entries, n, now);
    } else {
      NextId(entries, n);
      hide GroupSound;
      MoreIdsSound(r.group, IdsBefore(entries, n), entries[n].id);
      OtherMirrors(codec, r, entries, n, now);
    }
  }

  lemma OtherMirrors(codec: Codec, r: Reader, entries: seq<Entry>, n: nat, now: int)
    requires n < |entries| && Mirrors(r, entries, n)
    requires entries[n].Message? ==> entries[n].message.PiOtherRole?
    ensures ReadEntry(codec, r, entries[n], now) == r && Mirrors(r, entries, n + 1)
  {
  }

  lemma {:induction false} EntriesMirror(codec: Codec, entries: seq<Entry>, n: nat, now: int)
    requires n <= |entries| && NamedEntries(entries)
    ensures var r := ReadEntries(codec, FRESH_READER, entries[..n], now);
      Mirrors(r, entries, n) && GroupSound(r.group, IdsBefore(entries, n))
  {
    if n > 0 {
      hide Mirrors, ReadEntry, GroupSound, NamedEntries, IdsBefore;
      EntriesMirror(codec, entries, n - 1, now);
      assert entries[..n] == entries[..n - 1] + [entries[n - 1]];
      ReadOneMore(codec, FRESH_READER, entries[..n - 1], entries[n - 1], now);
      EntryMirrors(codec, ReadEntries(codec, FRESH_READER, entries[..n - 1], now), entries, n - 1, now);
    }
  }

  /** The messages read from any part of a log, by name, role and first block, are the ones its entries start. */
  lemma ReadGivesHeads(codec: Codec, entries: seq<Entry>, n: nat, now: int)
    requires n <= |entries| && NamedEntries(entries)
    ensures HeadsOf(ReadLog(codec, entries[..n], now)) == Heads(entries, n)
    ensures |ReadLog(codec, entries[..n], now)| == Position(entries, n)
  {
    EntriesMirror(codec, entries, n, now);
    FlushedHeads(ReadEntries(codec, FRESH_READER, entries[..n], now), entries, n, now);
  }

  /** An entry that starts a message splits the reading: what stands before it is read as if it were the whole log. */
  lemma StarterSplitsReading(codec: Codec, entries: seq<Entry>, k: nat, now: int)
    requires NamedEntries(entries) && k < |entries| && StartsMessage(entries, k)
    ensures ReadLog(codec, entries[..k], now) <= ReadLog(codec, entries, now)
    ensures |ReadLog(codec, entries[..k], now)| == Position(entries, k) < |ReadLog(codec, entries, now)|
    ensures HeadOf(ReadLog(codec, entries, now)[Position(entries, k)]) == HeadAt(entries, k)
  {
    var r := ReadEntries(codec, FRESH_READER, entries[..k], now);
    var next := ReadEntry(codec, r, entries[k], now);
    assert entries == (entries[..k] + [entries[k]]) + entries[k + 1..] && entries[..|entries|] == entries;
    ReadEntriesConcat(codec, FRESH_READER, entries[..k] + [entries[k]], entries[k + 1..], now);
    ReadOneMore(codec, FRESH_READER, entries[..k], entries[k], now);
    EntriesMirror(codec, entries, k, now);
    ReadGivesHeads(codec, entries, k, now);
    ReadGivesHeads(codec, entries, |entries|, now);
    StarterHasHead(entries, k, |entries|);
    StarterFlushes(codec, r, entries, k, now);
    EntriesOnlyAdd(codec, next, entries[k + 1..], now);
    hide ReadEntry, Mirrors, GroupSound, HeadAt, Position, Heads, StartsMessage, ReadEntries, FlushGroup, IdsBefore, NamedEntries, HeadOf;
    assert HeadsOf(ReadLog(codec, entries, now))[Position(entries, k)] == HeadAt(entries, k);
  }

  lemma StarterFlushes(codec: Codec, r: Reader, entries: seq<Entry>, k: nat, now: int)
    requires k < |entries| && StartsMessage(entries, k) && Mirrors(r, entries, k)
    ensures FlushGroup(r, now).messages <= ReadEntry(codec, r, entries[k], now).messages
  {
    hide Upsert, UiBlocks, UiResultContent, AppendToLast, ReaderId, Heads;
  }

  lemma EntryOnlyAdds(codec: Codec, r: Reader, e: Entry, now: int)
    ensures r.messages <= ReadEntry(codec, r, e, now).messages
  {
    hide Upsert, UiBlocks, UiResultContent, AppendToLast;
  }

  lemma {:induction false} EntriesOnlyAdd(codec: Codec, r: Reader, entries: seq<Entry>, now: int)
    ensures r.messages <= FlushGroup(ReadEntries(codec, r, entries, now), now).messages
    ensures r.messages <= ReadEntries(codec, r, entries, now).messages
  {
    hide ReadEntry;
    if entries != [] {
      EntriesOnlyAdd(codec, r, entries[..|entries| - 1], now);
      EntryOnlyAdds(codec, ReadEntries(codec, r, entries[..|entries| - 1], now), entries[|entries| - 1], now);
    }
  }

  /* Repeated names */

  lemma {:induction false} PositionGrows(entries: seq<Entry>, a: nat, b: nat)
    requires a <= b <= |entries|
    ensures Position(entries, a) <= Position(entries, b)
    ensures Heads(entries, a) <= Heads(entries, b)
  {
    if a < b { PositionGrows(entries, a, b - 1); }
  }

  lemma StarterHasHead(entries: seq<Entry>, s: nat, n: nat)
    requires s < n <= |entries| && StartsMessage(entries, s)
    ensures Position(entries, s) < Position(entries, n)
    ensures Heads(entries, n)[Position(entries, s)] == HeadAt(entries, s)
  {
    PositionGrows(entries, s + 1, n);
    assert Heads(entries, s + 1)[Position(entries, s)] == HeadAt(entries, s);
  }

  lemma {:induction false} HeadHasStarter(entries: seq<Entry>, n: nat, j: nat) returns (s: nat)
    requires n <= |entries| && j < Position(entries, n)
    ensures s < n && StartsMessage(entries, s) && Position(entries, s) == j
    ensures Heads(entries, n)[j] == HeadAt(entries, s)
  {
    if j < Position(entries, n - 1) {
      s := HeadHasStarter(entries, n - 1, j);
    } else {
      s := n - 1;
    }
  }

  lemma HeadsAreNamed(entries: seq<Entry>, n: nat)
    requires n <= |entries| && NamedEntries(entries)
    ensures forall j :: 0 <= j < Position(entries, n) ==> Heads(entries, n)[j].name != ""
  {
    forall j: nat | j < Position(entries, n) ensures Heads(entries, n)[j].name != "" {
      var s := HeadHasStarter(entries, n, j);
      ReaderIds(j, j);
    }
  }

  /** A name stands at `p` or after it that stood before. */
  ghost predicate RepeatsFrom(heads: seq<Head>, p: nat) {
    exists a: nat, b: nat :: a < b < |heads| && p <= b && heads[a].name == heads[b].name
  }

  /** Names repeat exactly where an entry bears the name of a message that begins with a tool result. */
  lemma RepeatsIffCollides(entries: seq<Entry>, from: nat)
    requires NamedEntries(entries) && from <= |entries|
    ensures RepeatsFrom(Heads(entries, |entries|), Position(entries, from)) <==> Collides(entries, from)
  {
    var heads, p := Heads(entries, |entries|), Position(entries, from);
    if RepeatsFrom(heads, p) {
      var a: nat, b: nat :| a < b < |heads| && p <= b && heads[a].name == heads[b].name;
      RepeatCollides(entries, from, a, b);
    }
    if Collides(entries, from) {
      var i: nat, t: nat :| i < |entries| && t < |entries| && (i >= from || t >= from) &&
        NamesMessage(entries, i) && OpensWithResult(entries, t) && entries[i].id == ReaderId(Position(entries, t));
      CollisionRepeats(entries, from, i, t);
    }
  }

  lemma RepeatCollides(entries: seq<Entry>, from: nat, a: nat, b: nat)
    requires NamedEntries(entries) && from <= |entries|
    requires a < b < Position(entries, |entries|) && Position(entries, from) <= b
    requires Heads(entries, |entries|)[a].name == Heads(entries, |entries|)[b].name
    ensures Collides(entries, from)
  {
    var s := HeadHasStarter(entries, |entries|, a);
    var t := HeadHasStarter(entries, |entries|, b);
    if t < from { StarterHasHead(entries, t, from); }
    ReaderIds(a, b);
    hide ReaderId, Position, Heads, Open, Shows;
    assert entries[s].message.PiToolResult? != entries[t].message.PiToolResult?;
    if entries[s].message.PiToolResult? {
      assert NamesMessage(entries, t) && OpensWithResult(entries, s);
    } else {
      assert NamesMessage(entries, s) && OpensWithResult(entries, t);
    }
  }

  lemma CollisionRepeats(entries: seq<Entry>, from: nat, i: nat, t: nat)
    requires i < |entries| && t < |entries| && from <= |entries| && (i >= from || t >= from)
    requires NamesMessage(entries, i) && OpensWithResult(entries, t) && entries[i].id == ReaderId(Position(entries, t))
    ensures RepeatsFrom(Heads(entries, |entries|), Position(entries, from))
  {
    StarterHasHead(entries, i, |entries|);
    StarterHasHead(entries, t, |entries|);
    var first, last := if i < t then i else t, if i < t then t else i;
    StarterHasHead(entries, first, last);
    PositionGrows(entries, from, last);
    hide ReaderId, Position, Heads, Open, Shows;
    assert Heads(entries, |entries|)[Position(entries, first)].name == Heads(entries, |entries|)[Position(entries, last)].name;
  }

  /* Entries that start nothing */

  lemma {:induction false} PositionOfPrefix(a: seq<Entry>, b: seq<Entry>, n: nat)
    requires n <= |a| && a <= b
    ensures Position(a, n) == Position(b, n) && Open(a, n) == Open(b, n)
  {
    if n > 0 {
      PositionOfPrefix(a, b, n - 1);
      assert a[n - 1] == b[n - 1];
    }
  }

  /** A line at the end that is no message starts nothing, and leaves the others as they are. */
  lemma CompactionStartsNothing(entries: seq<Entry>, e: Entry, i: nat)
    requires e.Compaction? && i < |entries|
    ensures NamesMessage(entries + [e], i) == NamesMessage(entries, i) && OpensWithResult(entries + [e], i) == OpensWithResult(entries, i)
    ensures Position(entries + [e], i) == Position(entries, i) && !StartsMessage(entries + [e], |entries|)
  {
    PositionOfPrefix(entries, entries + [e], i);
  }

  /** A compaction line at the end changes no name. */
  lemma CompactionCollidesNot(entries: seq<Entry>, e: Entry, from: nat)
    requires e.Compaction?
    ensures Collides(entries + [e], from) <==> Collides(entries, from)
  {
    var all := entries + [e];
    forall i: nat | i < |entries|
      ensures NamesMessage(all, i) == NamesMessage(entries, i) && OpensWithResult(all, i) == OpensWithResult(entries, i)
      ensures Position(all, i) == Position(entries, i) && all[i] == entries[i]
    {
      CompactionStartsNothing(entries, e, i);
    }
    hide ReaderId, Position;
    assert !StartsMessage(all, |entries|);
  }
}
