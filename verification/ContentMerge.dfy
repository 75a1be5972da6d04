/** Merging snapshots of one assistant message, and grouping assistant segments (internal/app/chat_jsonl_parser.go). */
module ContentMerge {
  import opened Prelude
  import opened Text
  import opened ChatBlocks

  predicate HasText(blocks: seq<Block>) {
    exists i :: 0 <= i < |blocks| && blocks[i].Text? && blocks[i].text != ""
  }

  predicate HasType(blocks: seq<Block>, kind: string) {
    exists i :: 0 <= i < |blocks| && !blocks[i].Bare? && BlockType(blocks[i]) == kind
  }

  /** The slot a block of a snapshot belongs to: tool uses by name, everything else by type and position. */
  function Key(b: Block, index: nat): string {
    if b.ToolUse? then
      "tool_use:" + if b.id != "" then b.id else if b.name != "" then b.name else Print(index)
    else BlockType(b) + ":" + Print(index)
  }

  /** The last of the first `n` blocks with the given key, or -1. */
  function LastWithKey(blocks: seq<Block>, key: string, n: nat): (j: int)
    requires n <= |blocks|
    ensures -1 <= j < n
    ensures j >= 0 ==> Key(blocks[j], j) == key
  {
    if n == 0 then -1
    else if Key(blocks[n - 1], n - 1) == key then n - 1
    else LastWithKey(blocks, key, n - 1)
  }

  function MergeByKey(existing: seq<Block>, incoming: seq<Block>, n: nat): (merged: seq<Block>)
    requires n <= |incoming|
    ensures |merged| >= |existing|
  {
    if n == 0 then existing
    else
      var merged := MergeByKey(existing, incoming, n - 1);
      var j := LastWithKey(existing, Key(incoming[n - 1], n - 1), |existing|);
      if j >= 0 then merged[j := incoming[n - 1]] else merged + [incoming[n - 1]]
  }

  /** Whether a text-bearing snapshot leaves an earlier block in place. */
  predicate Survives(b: Block, incoming: seq<Block>) {
    match b
    case ToolResult(_, _, _) => !HasType(incoming, "tool_result")
    case Thinking(_, _) => !HasType(incoming, "thinking")
    case RedactedThinking(_) => !HasType(incoming, "redacted_thinking")
    case _ => false
  }

  function Survivors(existing: seq<Block>, incoming: seq<Block>, n: nat): seq<Block>
    requires n <= |existing|
  {
    if n == 0 then []
    else
      Survivors(existing, incoming, n - 1) + if Survives(existing[n - 1], incoming) then [existing[n - 1]] else []
  }

  function Merge(existing: seq<Block>, incoming: seq<Block>): seq<Block> {
    if !HasText(incoming) then MergeByKey(existing, incoming, |incoming|)
    else Survivors(existing, incoming, |existing|) + incoming
  }

  method MergeContentBlocks(existing: seq<Block>, incoming: seq<Block>) returns (merged: seq<Block>)
    ensures merged == Merge(existing, incoming)
  {
    if !HasText(incoming) {
      merged := OverwriteByKey(existing, incoming);
      return;
    }
    var preserved := Preserve(existing, incoming);
    if |preserved| == 0 {
      return incoming;
    }
    merged := preserved + incoming;
  }

  /** The keys of a snapshot, each with the last place it stands at. */
  ghost predicate Indexes(keys: map<string, int>, blocks: seq<Block>, n: nat)
    requires n <= |blocks|
  {
    forall key :: LastWithKey(blocks, key, n) == if key in keys then keys[key] else -1
  }

  method IndexKeys(blocks: seq<Block>) returns (keys: map<string, int>)
    ensures Indexes(keys, blocks, |blocks|)
  {
    keys := map[];
    var i := 0;
    while i < |blocks|
      invariant i <= |blocks|
      invariant Indexes(keys, blocks, i)
    {
      keys := keys[Key(blocks[i], i) := i];
      i := i + 1;
    }
  }

  method OverwriteByKey(existing: seq<Block>, incoming: seq<Block>) returns (merged: seq<Block>)
    ensures merged == MergeByKey(existing, incoming, |incoming|)
  {
    var keys := IndexKeys(existing);
    merged := existing;
    var i := 0;
    while i < |incoming|
      invariant i <= |incoming|
      invariant merged == MergeByKey(existing, incoming, i)
    {
      var key := Key(incoming[i], i);
      var j := if key in keys then keys[key] else -1;
      assert j == LastWithKey(existing, key, |existing|);
      if j >= 0 {
        merged := merged[j := incoming[i]];
      } else {
        merged := merged + [incoming[i]];
      }
      i := i + 1;
    }
  }

  method Preserve(existing: seq<Block>, incoming: seq<Block>) returns (preserved: seq<Block>)
    ensures preserved == Survivors(existing, incoming, |existing|)
  {
    var hasResult := HasType(incoming, "tool_result");
    var hasThinking := HasType(incoming, "thinking");
    var hasRedacted := HasType(incoming, "redacted_thinking");
    preserved := [];
    var i := 0;
    while i < |existing|
      invariant i <= |existing|
      invariant preserved == Survivors(existing, incoming, i)
    {
      var keep := match existing[i]
        case ToolResult(_, _, _) => !hasResult
        case Thinking(_, _) => !hasThinking
        case RedactedThinking(_) => !hasRedacted
        case _ => false;
      if keep {
        preserved := preserved + [existing[i]];
      }
      i := i + 1;
    }
  }

  /* Tool results survive a merge. */

  function Results(blocks: seq<Block>): seq<Block> {
    if blocks == [] then []
    else
      var last := blocks[|blocks| - 1];
      Results(blocks[..|blocks| - 1]) + if last.ToolResult? then [last] else []
  }

  lemma {:induction false} ResultsOfConcat(a: seq<Block>, b: seq<Block>)
    ensures Results(a + b) == Results(a) + Results(b)
  {
    if b == [] {
      assert a + b == a;
    } else {
      assert (a + b)[..|a + b| - 1] == a + b[..|b| - 1];
      ResultsOfConcat(a, b[..|b| - 1]);
    }
  }

  lemma {:induction false} NoResults(blocks: seq<Block>)
    requires forall i :: 0 <= i < |blocks| ==> !blocks[i].ToolResult?
    ensures Results(blocks) == []
  {
    if blocks != [] { NoResults(blocks[..|blocks| - 1]); }
  }

  /** Two lists with the same tool results in the same places, the longer one with none beyond. */
  ghost predicate SameResults(a: seq<Block>, b: seq<Block>) {
    && |a| <= |b|
    && (forall i :: 0 <= i < |a| && a[i].ToolResult? ==> b[i] == a[i])
    && (forall i :: 0 <= i < |a| && !a[i].ToolResult? ==> !b[i].ToolResult?)
    && (forall i :: |a| <= i < |b| ==> !b[i].ToolResult?)
  }

  lemma {:induction false} SameResultsEqual(a: seq<Block>, b: seq<Block>)
    requires SameResults(a, b)
    ensures Results(a) == Results(b)
  {
    if |b| > |a| {
      SameResultsEqual(a, b[..|b| - 1]);
    } else if a != [] {
      SameResultsEqual(a[..|a| - 1], b[..|b| - 1]);
    }
  }

  lemma LastColon(a: string, n: nat)
    ensures var x := a + ":" + Print(n); x[|a|] == ':' && forall i :: |a| < i < |x| ==> x[i] != ':'
  {
    var x := a + ":" + Print(n);
    forall i | |a| < i < |x| ensures x[i] != ':' {
      assert x[i] == Print(n)[i - |a| - 1];
    }
  }

  /** A kind can be read back from a key of kind and position: the position has no colon. */
  lemma KeyParts(a: string, b: string, m: nat, n: nat)
    requires a + ":" + Print(m) == b + ":" + Print(n)
    ensures a == b
  {
    LastColon(a, m);
    LastColon(b, n);
    assert a == (a + ":" + Print(m))[..|a|] && b == (b + ":" + Print(n))[..|b|];
  }

  lemma KeySixth(b: Block, n: nat)
    ensures b.ToolUse? ==> |Key(b, n)| > 5 && Key(b, n)[5] == 'u'
    ensures b.ToolResult? ==> |Key(b, n)| > 5 && Key(b, n)[5] == 'r'
  {
  }

  /** No block of another type can land in the slot of a tool result. */
  lemma ResultKeysAreOwn(r: Block, m: nat, b: Block, n: nat)
    requires r.ToolResult? && Key(r, m) == Key(b, n)
    ensures b.ToolResult?
  {
    KeySixth(r, m);
    KeySixth(b, n);
    if !b.ToolUse? {
      KeyParts(BlockType(r), BlockType(b), m, n);
    }
  }

  /** A block that is no tool result changes none, in a slot of its own or at the end. */
  lemma SlotKeepsResults(existing: seq<Block>, merged: seq<Block>, j: int, b: Block)
    requires SameResults(existing, merged) && -1 <= j < |existing| && !b.ToolResult?
    requires j >= 0 ==> !existing[j].ToolResult?
    ensures SameResults(existing, if j >= 0 then merged[j := b] else merged + [b])
  {
  }

  lemma {:induction false} MergeByKeyKeepsResults(existing: seq<Block>, incoming: seq<Block>, n: nat)
    requires n <= |incoming|
    requires forall i :: 0 <= i < |incoming| ==> !incoming[i].ToolResult?
    ensures SameResults(existing, MergeByKey(existing, incoming, n))
  {
    if n > 0 {
      hide SameResults, Key, LastWithKey;
      MergeByKeyKeepsResults(existing, incoming, n - 1);
      var b := incoming[n - 1];
      var j := LastWithKey(existing, Key(b, n - 1), |existing|);
      if j >= 0 && existing[j].ToolResult? { ResultKeysAreOwn(existing[j], j, b, n - 1); }
      SlotKeepsResults(existing, MergeByKey(existing, incoming, n - 1), j, b);
    }
  }

  lemma {:induction false} SurvivorsKeepResults(existing: seq<Block>, incoming: seq<Block>, n: nat)
    requires n <= |existing|
    requires forall i :: 0 <= i < |incoming| ==> !incoming[i].ToolResult?
    ensures Results(Survivors(existing, incoming, n)) == Results(existing[..n])
  {
    if n > 0 {
      SurvivorsKeepResults(existing, incoming, n - 1);
      assert existing[..n][..n - 1] == existing[..n - 1];
      var b := existing[n - 1];
      var kept: seq<Block> := if Survives(b, incoming) then [b] else [];
      ResultsOfConcat(Survivors(existing, incoming, n - 1), kept);
      if b.ToolResult? {
        assert kept == [b] && [b][..0] == [];
      } else {
        NoResults(kept);
      }
    }
  }

  /** Merging in a snapshot without tool results neither loses, repeats nor reorders the ones already there. */
  lemma MergeKeepsResults(existing: seq<Block>, incoming: seq<Block>)
    requires forall i :: 0 <= i < |incoming| ==> !incoming[i].ToolResult?
    ensures Results(Merge(existing, incoming)) == Results(existing)
  {
    if !HasText(incoming) {
      MergeByKeyKeepsResults(existing, incoming, |incoming|);
      SameResultsEqual(existing, Merge(existing, incoming));
    } else {
      SurvivorsKeepResults(existing, incoming, |existing|);
      assert existing[..|existing|] == existing;
      ResultsOfConcat(Survivors(existing, incoming, |existing|), incoming);
      NoResults(incoming);
    }
  }

  /* The open group of assistant segments */

  datatype Segment = Segment(id: string, content: seq<Block>, createdAt: int)

  datatype Group = Group(segments: seq<Segment>, id: string, at: Option<int>)

  const NO_GROUP := Group([], "", None)

  function Later(at: Option<int>, t: int): Option<int> {
    if at.None? || t > at.value then Some(t) else at
  }

  function Upsert(g: Group, id: string, content: seq<Block>, t: int): Group {
    var groupId := if g.id == "" then id else g.id;
    var n := |g.segments|;
    if n > 0 && g.segments[n - 1].id == id then
      var last := g.segments[n - 1];
      Group(g.segments[n - 1 := last.(content := Merge(last.content, content))], groupId, Later(g.at, t))
    else
      Group(g.segments + [Segment(id, content, t)], groupId, Later(g.at, t))
  }

  function AppendToLast(g: Group, blocks: seq<Block>, t: int): Group
    requires g.segments != []
  {
    var n := |g.segments|;
    var last := g.segments[n - 1];
    Group(g.segments[n - 1 := last.(content := last.content + blocks)], g.id, Later(g.at, t))
  }

  function SegmentBlocks(segments: seq<Segment>): seq<Block> {
    if segments == [] then []
    else SegmentBlocks(segments[..|segments| - 1]) + segments[|segments| - 1].content
  }

  /** The variables assistantSegments, assistantGroupID and assistantGroupCreatedAt that both parsers keep. */
  class AssistantGroup {
    var segments: seq<Segment>
    var groupId: string
    var createdAt: Option<int>

    ghost function State(): Group
      reads this
    {
      Group(segments, groupId, createdAt)
    }

    constructor ()
      ensures State() == NO_GROUP
    {
      segments, groupId, createdAt := [], "", None;
    }

    method Reset()
      modifies this
      ensures State() == NO_GROUP
    {
      segments, groupId, createdAt := [], "", None;
    }

    method Touch(t: int)
      modifies this
      ensures State() == old(State()).(at := Later(old(createdAt), t))
    {
      if createdAt.None? || t > createdAt.value {
        createdAt := Some(t);
      }
    }

    method UpsertSegment(id: string, content: seq<Block>, t: int)
      modifies this
      ensures State() == Upsert(old(State()), id, content, t)
    {
      hide Merge;
      if groupId == "" {
        groupId := id;
      }
      Touch(t);
      if |segments| > 0 {
        var last := segments[|segments| - 1];
        if last.id == id {
          var merged := MergeContentBlocks(last.content, content);
          segments := segments[|segments| - 1 := last.(content := merged)];
          return;
        }
      }
      segments := segments + [Segment(id, content, t)];
    }

    method AppendBlocks(blocks: seq<Block>, t: int)
      requires segments != []
      modifies this
      ensures State() == AppendToLast(old(State()), blocks, t)
    {
      var last := segments[|segments| - 1];
      segments := segments[|segments| - 1 := last.(content := last.content + blocks)];
      Touch(t);
    }

    method Flatten() returns (content: seq<Block>)
      ensures content == SegmentBlocks(segments)
    {
      content := [];
      var i := 0;
      while i < |segments|
        invariant i <= |segments|
        invariant content == SegmentBlocks(segments[..i])
      {
        assert segments[..i + 1][..i] == segments[..i];
        content := content + segments[i].content;
        i := i + 1;
      }
      assert segments[..i] == segments;
    }
  }

  lemma {:induction false} SegmentBlocksAppend(segments: seq<Segment>, s: Segment)
    ensures SegmentBlocks(segments + [s]) == SegmentBlocks(segments) + s.content
  {
    assert (segments + [s])[..|segments|] == segments;
  }

  lemma AppendToLastBlocks(g: Group, blocks: seq<Block>, t: int)
    requires g.segments != []
    ensures SegmentBlocks(AppendToLast(g, blocks, t).segments) == SegmentBlocks(g.segments) + blocks
  {
    var n := |g.segments|;
    assert AppendToLast(g, blocks, t).segments[..n - 1] == g.segments[..n - 1];
  }
}
