/** What a merged snapshot holds, place by place (internal/app/chat_jsonl_parser.go, mergeContentBlocks). */
module SnapshotMerge {
  import opened Places
  import opened Text
  import opened ChatBlocks
  import opened ContentMerge

  /* Slots */

  /** A tool use goes by its id, without one by its name, and without either by its position. */
  function Label(b: Block, index: nat): string
    requires b.ToolUse?
  {
    if b.id != "" then b.id else if b.name != "" then b.name else Print(index)
  }

  /**
   * Two blocks share a slot: two tool uses that go by the same name, or two others of one type at the same position.
   * A block of a made-up type that starts with "tool_use:" can be taken for a tool use.
   */
  predicate SameSlot(b: Block, m: nat, c: Block, n: nat) {
    if b.ToolUse? && c.ToolUse? then Label(b, m) == Label(c, n)
    else if b.ToolUse? then c.Other? && c.kind + ":" + Print(n) == "tool_use:" + Label(b, m)
    else if c.ToolUse? then b.Other? && b.kind + ":" + Print(m) == "tool_use:" + Label(c, n)
    else BlockType(b) == BlockType(c) && m == n
  }

  lemma SameTail(head: string, a: string, b: string)
    requires head + a == head + b
    ensures a == b
  {
    assert a == (head + a)[|head|..] && b == (head + b)[|head|..];
  }

  lemma TypeKeys(b: Block, m: nat, c: Block, n: nat)
    requires !b.ToolUse? && !c.ToolUse?
    ensures Key(b, m) == Key(c, n) <==> BlockType(b) == BlockType(c) && m == n
  {
    if Key(b, m) == Key(c, n) {
      KeyParts(BlockType(b), BlockType(c), m, n);
      SameTail(BlockType(b) + ":", Print(m), Print(n));
      PrintInjective(m, n);
    }
  }

  /** No text, thinking or tool result, and no bare value, has a key like that of a tool use. */
  lemma UseKeysAreOwn(b: Block, m: nat, c: Block, n: nat)
    requires b.ToolUse? && !c.ToolUse? && !c.Other?
    ensures Key(b, m) != Key(c, n)
  {
    assert Key(b, m)[0] == 't' && Key(b, m)[1] == 'o' && Key(b, m)[5] == 'u';
    var key := Key(c, n);
    match c
    case Bare(_) => assert key[0] == ':';
    case Text(_) => assert key[1] == 'e';
    case Thinking(_, _) => assert key[1] == 'h';
    case RedactedThinking(_) => assert key[0] == 'r';
    case ToolResult(_, _, _) => assert key[5] == 'r';
  }

  lemma KeysAreSlots(b: Block, m: nat, c: Block, n: nat)
    ensures Key(b, m) == Key(c, n) <==> SameSlot(b, m, c, n)
  {
    if b.ToolUse? && c.ToolUse? {
      if Key(b, m) == Key(c, n) { SameTail("tool_use:", Label(b, m), Label(c, n)); }
    } else if b.ToolUse? {
      if !c.Other? { UseKeysAreOwn(b, m, c, n); }
    } else if c.ToolUse? {
      if !b.Other? { UseKeysAreOwn(c, n, b, m); }
    } else {
      TypeKeys(b, m, c, n);
    }
  }

  /* A snapshot without text */

  /** An incoming block belongs at place `j`: the last one of its slot. */
  ghost predicate Belongs(existing: seq<Block>, c: Block, n: nat, j: nat) {
    && j < |existing| && SameSlot(existing[j], j, c, n)
    && forall k: nat :: j < k < |existing| ==> !SameSlot(existing[k], k, c, n)
  }

  /** The incoming blocks that share no slot with any that is there. */
  ghost predicate IsNew(existing: seq<Block>, c: Block, n: nat) {
    forall k: nat :: k < |existing| ==> !SameSlot(existing[k], k, c, n)
  }

  ghost function AreNew(existing: seq<Block>, incoming: seq<Block>): nat -> bool {
    (i: nat) => i < |incoming| && IsNew(existing, incoming[i], i)
  }

  lemma {:induction false} LastIsLast(blocks: seq<Block>, key: string, n: nat)
    requires n <= |blocks|
    ensures forall k: nat :: LastWithKey(blocks, key, n) < k < n ==> Key(blocks[k], k) != key
  {
    hide Key;
    if n > 0 && Key(blocks[n - 1], n - 1) != key { LastIsLast(blocks, key, n - 1); }
  }

  lemma LastBelongs(existing: seq<Block>, c: Block, n: nat)
    ensures var j := LastWithKey(existing, Key(c, n), |existing|);
      if j >= 0 then Belongs(existing, c, n, j) else IsNew(existing, c, n)
  {
    hide Key, SameSlot, LastWithKey;
    LastIsLast(existing, Key(c, n), |existing|);
    AllKeysAreSlots(existing, c, n);
  }

  lemma AllKeysAreSlots(existing: seq<Block>, c: Block, n: nat)
    ensures forall k: nat :: k < |existing| ==> (Key(existing[k], k) == Key(c, n) <==> SameSlot(existing[k], k, c, n))
  {
    hide Key, SameSlot;
    forall k: nat | k < |existing| ensures Key(existing[k], k) == Key(c, n) <==> SameSlot(existing[k], k, c, n) {
      KeysAreSlots(existing[k], k, c, n);
    }
  }

  /** The block at place `j` after the first `n` incoming ones: the latest that belongs there, or the one that was there. */
  ghost predicate TakenBy(existing: seq<Block>, incoming: seq<Block>, n: nat, j: nat, b: Block)
    requires n <= |incoming| && j < |existing|
  {
    if exists i: nat :: i < n && Belongs(existing, incoming[i], i, j) then
      exists i: nat :: i < n && Belongs(existing, incoming[i], i, j) && b == incoming[i]
        && forall k: nat :: i < k < n ==> !Belongs(existing, incoming[k], k, j)
    else b == existing[j]
  }

  lemma TakenOneMore(existing: seq<Block>, incoming: seq<Block>, n: nat, j: nat, b: Block)
    requires n < |incoming| && j < |existing| && TakenBy(existing, incoming, n, j, b)
    ensures TakenBy(existing, incoming, n + 1, j, if Belongs(existing, incoming[n], n, j) then incoming[n] else b)
  {
    hide Belongs;
  }

  ghost predicate MergedUpTo(existing: seq<Block>, incoming: seq<Block>, n: nat, merged: seq<Block>, news: seq<nat>)
    requires n <= |incoming| && forall i :: 0 <= i < |news| ==> news[i] < |incoming|
  {
    && |merged| == |existing| + |news|
    && (forall j: nat :: j < |existing| ==> TakenBy(existing, incoming, n, j, merged[j]))
    && merged[|existing|..] == At(incoming, news)
  }

  lemma OnlyOnePlace(existing: seq<Block>, c: Block, n: nat, j: nat)
    requires Belongs(existing, c, n, j)
    ensures forall k: nat :: Belongs(existing, c, n, k) ==> k == j
    ensures !IsNew(existing, c, n)
  {
    hide SameSlot;
  }

  lemma NewBelongsNowhere(existing: seq<Block>, c: Block, n: nat)
    requires IsNew(existing, c, n)
    ensures forall k: nat :: !Belongs(existing, c, n, k)
  {
    hide SameSlot;
  }

  lemma PlaceTaken(existing: seq<Block>, incoming: seq<Block>, n: nat, merged: seq<Block>, news: seq<nat>, j: nat)
    requires n < |incoming| && forall i :: 0 <= i < |news| ==> news[i] < |incoming|
    requires MergedUpTo(existing, incoming, n, merged, news) && Belongs(existing, incoming[n], n, j)
    ensures MergedUpTo(existing, incoming, n + 1, merged[j := incoming[n]], news)
  {
    hide Belongs, TakenBy;
    OnlyOnePlace(existing, incoming[n], n, j);
    InPlace(existing, incoming[n], n, j);
    var changed := merged[j := incoming[n]];
    forall k: nat | k < |existing| ensures TakenBy(existing, incoming, n + 1, k, changed[k]) {
      TakenOneMore(existing, incoming, n, k, merged[k]);
    }
    assert changed[|existing|..] == merged[|existing|..];
  }

  lemma InPlace(existing: seq<Block>, c: Block, n: nat, j: nat)
    requires Belongs(existing, c, n, j)
    ensures j < |existing|
  {
  }

  lemma PlaceAdded(existing: seq<Block>, incoming: seq<Block>, n: nat, merged: seq<Block>, news: seq<nat>)
    requires n < |incoming| && forall i :: 0 <= i < |news| ==> news[i] < |incoming|
    requires MergedUpTo(existing, incoming, n, merged, news) && IsNew(existing, incoming[n], n)
    ensures MergedUpTo(existing, incoming, n + 1, merged + [incoming[n]], news + [n])
  {
    hide Belongs, TakenBy;
    NewBelongsNowhere(existing, incoming[n], n);
    var grown := merged + [incoming[n]];
    forall k: nat | k < |existing| ensures TakenBy(existing, incoming, n + 1, k, grown[k]) {
      TakenOneMore(existing, incoming, n, k, merged[k]);
    }
    assert grown[|existing|..] == merged[|existing|..] + [incoming[n]];
  }

  lemma MergeByKeyOneMore(existing: seq<Block>, incoming: seq<Block>, n: nat)
    requires n < |incoming|
    ensures var j := LastWithKey(existing, Key(incoming[n], n), |existing|);
      MergeByKey(existing, incoming, n + 1) ==
        if j >= 0 then MergeByKey(existing, incoming, n)[j := incoming[n]] else MergeByKey(existing, incoming, n) + [incoming[n]]
  {
    hide Key, LastWithKey;
  }

  lemma {:induction false} MergesUpTo(existing: seq<Block>, incoming: seq<Block>, n: nat, news: seq<nat>)
    requires n <= |incoming| && Listing(news, n, AreNew(existing, incoming))
    ensures MergedUpTo(existing, incoming, n, MergeByKey(existing, incoming, n), news)
  {
    hide Key, LastWithKey, SameSlot, TakenBy;
    if n == 0 {
      assert news == [];
      NothingMerged(existing, incoming);
    } else {
      var i: nat := n - 1;
      var merged, j := MergeByKey(existing, incoming, i), LastWithKey(existing, Key(incoming[i], i), |existing|);
      LastBelongs(existing, incoming[i], i);
      ListingOneLess(news, i, AreNew(existing, incoming));
      MergeByKeyOneMore(existing, incoming, i);
      hide MergeByKey, Belongs, MergedUpTo, IsNew;
      if j >= 0 {
        OnlyOnePlace(existing, incoming[i], i, j);
        MergesUpTo(existing, incoming, i, news);
        PlaceTaken(existing, incoming, i, merged, news, j);
      } else {
        var front := news[..|news| - 1];
        assert news == front + [i];
        MergesUpTo(existing, incoming, i, front);
        PlaceAdded(existing, incoming, i, merged, front);
      }
    }
  }

  lemma NothingMerged(existing: seq<Block>, incoming: seq<Block>)
    ensures MergedUpTo(existing, incoming, 0, MergeByKey(existing, incoming, 0), [])
  {
  }

  /**
   * A snapshot without text changes only the places that its blocks belong at, each of which then holds the latest block
   * that belongs there; the blocks that share no slot with any that was there follow at the end, in order.
   */
  lemma MergeWithoutText(existing: seq<Block>, incoming: seq<Block>, news: seq<nat>)
    requires forall i :: 0 <= i < |incoming| ==> !(incoming[i].Text? && incoming[i].text != "")
    requires Listing(news, |incoming|, AreNew(existing, incoming))
    ensures var merged := Merge(existing, incoming);
      && |merged| == |existing| + |news|
      && (forall j: nat :: j < |existing| ==> TakenBy(existing, incoming, |incoming|, j, merged[j]))
      && merged[|existing|..] == At(incoming, news)
  {
    MergesUpTo(existing, incoming, |incoming|, news);
    hide TakenBy, MergeByKey, IsNew;
  }

  /* A snapshot with text */

  /** What stays besides a snapshot with text: tool results and thinking of kinds that the snapshot has none of. */
  ghost predicate Stays(b: Block, incoming: seq<Block>) {
    || (b.ToolResult? && forall i :: 0 <= i < |incoming| ==> !incoming[i].ToolResult?)
    || (b.Thinking? && forall i :: 0 <= i < |incoming| ==> !incoming[i].Thinking?)
    || (b.RedactedThinking? && forall i :: 0 <= i < |incoming| ==> !incoming[i].RedactedThinking?)
  }

  ghost function DoStay(existing: seq<Block>, incoming: seq<Block>): nat -> bool {
    (k: nat) => k < |existing| && Stays(existing[k], incoming)
  }

  lemma TypesAreConstructors(b: Block)
    ensures !b.Bare? && BlockType(b) == "tool_result" <==> b.ToolResult?
    ensures !b.Bare? && BlockType(b) == "thinking" <==> b.Thinking?
    ensures !b.Bare? && BlockType(b) == "redacted_thinking" <==> b.RedactedThinking?
  {
    match b
    case Text(_) => assert BlockType(b)[1] == 'e';
    case Thinking(_, _) => assert BlockType(b)[1] == 'h';
    case RedactedThinking(_) => assert BlockType(b)[0] == 'r';
    case ToolUse(_, _, _) => assert BlockType(b)[5] == 'u';
    case ToolResult(_, _, _) => assert BlockType(b)[5] == 'r';
    case _ =>
  }

  lemma StayingSurvives(b: Block, incoming: seq<Block>)
    ensures Survives(b, incoming) <==> Stays(b, incoming)
  {
    forall i | 0 <= i < |incoming|
      ensures !incoming[i].Bare? && BlockType(incoming[i]) == "tool_result" <==> incoming[i].ToolResult?
      ensures !incoming[i].Bare? && BlockType(incoming[i]) == "thinking" <==> incoming[i].Thinking?
      ensures !incoming[i].Bare? && BlockType(incoming[i]) == "redacted_thinking" <==> incoming[i].RedactedThinking?
    {
      TypesAreConstructors(incoming[i]);
    }
  }

  lemma SurvivorsOneMore(existing: seq<Block>, incoming: seq<Block>, n: nat)
    requires n < |existing|
    ensures Survivors(existing, incoming, n + 1) ==
      Survivors(existing, incoming, n) + if Stays(existing[n], incoming) then [existing[n]] else []
  {
    StayingSurvives(existing[n], incoming);
    hide Stays, ContentMerge.Survives;
  }

  lemma {:induction false} SurvivorsUpTo(existing: seq<Block>, incoming: seq<Block>, n: nat, places: seq<nat>)
    requires n <= |existing| && Listing(places, n, DoStay(existing, incoming))
    ensures Survivors(existing, incoming, n) == At(existing, places)
  {
    hide Stays, ContentMerge.Survives, At;
    if n == 0 {
      assert places == [];
      NothingAt(existing);
    } else {
      var last: nat := n - 1;
      SurvivorsOneMore(existing, incoming, last);
      ListingOneLess(places, last, DoStay(existing, incoming));
      hide Survivors;
      if Stays(existing[last], incoming) {
        var front := places[..|places| - 1];
        SurvivorsUpTo(existing, incoming, last, front);
        assert places == front + [last];
        AtOneMore(existing, front, last);
      } else {
        SurvivorsUpTo(existing, incoming, last, places);
      }
    }
  }

  /** A snapshot with text stands at the end as a whole; before it stays, in order, just what it does not supersede. */
  lemma MergeWithText(existing: seq<Block>, incoming: seq<Block>, places: seq<nat>)
    requires exists i :: 0 <= i < |incoming| && incoming[i].Text? && incoming[i].text != ""
    requires Listing(places, |existing|, DoStay(existing, incoming))
    ensures Merge(existing, incoming) == At(existing, places) + incoming
  {
    SurvivorsUpTo(existing, incoming, |existing|, places);
    hide Stays;
  }
}
