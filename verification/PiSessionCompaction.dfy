/** Reading a session file that carries a compaction entry (internal/app/pi_session_messages.go). */
module PiSessionCompaction {
  import opened Prelude
  import opened Text
  import opened ChatBlocks
  import opened ContentMerge
  import opened PiSession
  import opened ReaderNames
  import opened PiMigration
  import opened PiMigrationLog
  import opened PiConversion
  import opened PiCompaction
  import opened Places

  datatype Summary = Summary(text: string, firstKept: string, timestamp: int)

  /** The last usable compaction entry: one with a summary and the name of an entry to keep from. */
  function LatestCompaction(entries: seq<Entry>): Option<Summary> {
    if entries == [] then None
    else
      var e := entries[|entries| - 1];
      if e.Compaction? && TrimSpace(e.summary) != "" && TrimSpace(e.firstKeptEntryId) != "" then
        Some(Summary(TrimSpace(e.summary), TrimSpace(e.firstKeptEntryId), e.timestamp))
      else LatestCompaction(entries[..|entries| - 1])
  }

  function Names(messages: seq<ChatMessage>): set<string> {
    set i | 0 <= i < |messages| :: messages[i].id
  }

  /** Messages whose name was seen before are dropped. */
  function Dedup(messages: seq<ChatMessage>): seq<ChatMessage> {
    if messages == [] then []
    else
      var kept, m := Dedup(messages[..|messages| - 1]), messages[|messages| - 1];
      if m.id != "" && m.id in Names(messages[..|messages| - 1]) then kept else kept + [m]
  }

  function FirstNamed(messages: seq<ChatMessage>, id: string): (i: nat)
    ensures i <= |messages| && (i < |messages| ==> messages[i].id == id)
    ensures forall k :: 0 <= k < i ==> messages[k].id != id
  {
    if messages == [] then 0
    else
      var i := FirstNamed(messages[..|messages| - 1], id);
      if i < |messages| - 1 then i
      else if messages[|messages| - 1].id == id then |messages| - 1
      else |messages|
  }

  function SummaryMessage(s: Summary, now: int): ChatMessage {
    ChatMessage("pi_compaction_summary", User, Blocks([Text("[Context Summary]\n\n" + s.text)]),
      if s.timestamp <= 0 then now else s.timestamp, "", false, "", true)
  }

  function CompactedMessages(messages: seq<ChatMessage>, latest: Option<Summary>, now: int): seq<ChatMessage> {
    if latest.None? || FirstNamed(messages, latest.value.firstKept) == |messages| then messages
    else [SummaryMessage(latest.value, now)] + messages[FirstNamed(messages, latest.value.firstKept)..]
  }

  /** The files of a session directory in the order of their names, each read on its own. */
  function ReadFiles(codec: Codec, files: seq<seq<Entry>>, now: int): seq<ChatMessage> {
    if files == [] then []
    else ReadFiles(codec, files[..|files| - 1], now) + ReadLog(codec, files[|files| - 1], now)
  }

  function LatestInFiles(files: seq<seq<Entry>>): Option<Summary> {
    if files == [] then None
    else if LatestCompaction(files[|files| - 1]).Some? then LatestCompaction(files[|files| - 1])
    else LatestInFiles(files[..|files| - 1])
  }

  function ReadSession(codec: Codec, files: seq<seq<Entry>>, now: int): seq<ChatMessage> {
    CompactedMessages(Dedup(ReadFiles(codec, files, now)), LatestInFiles(files), now)
  }

  method FindLatestCompaction(entries: seq<Entry>) returns (latest: Option<Summary>)
    ensures latest == LatestCompaction(entries)
  {
    latest := None;
    var i := 0;
    while i < |entries|
      invariant i <= |entries|
      invariant latest == LatestCompaction(entries[..i])
    {
      var e := entries[i];
      assert entries[..i + 1][..i] == entries[..i];
      if e.Compaction? {
        var summary, firstKept := TrimSpace(e.summary), TrimSpace(e.firstKeptEntryId);
        if summary != "" && firstKept != "" {
          latest := Some(Summary(summary, firstKept, e.timestamp));
        }
      }
      i := i + 1;
    }
    assert entries[..i] == entries;
  }

  /** The messages of one more file join those kept so far, unless their names were seen. */
  method DropSeen(kept: seq<ChatMessage>, seen: set<string>, messages: seq<ChatMessage>, ghost earlier: seq<ChatMessage>)
    returns (all: seq<ChatMessage>, names: set<string>)
    requires kept == Dedup(earlier) && seen == Names(earlier) - {""}
    ensures all == Dedup(earlier + messages) && names == Names(earlier + messages) - {""}
  {
    all, names := kept, seen;
    hide Dedup, Names;
    ghost var done := earlier;
    PrefixStarts(earlier, messages);
    var i := 0;
    while i < |messages|
      invariant i <= |messages| && done == earlier + messages[..i]
      invariant names == Names(done) - {""}
      invariant all == Dedup(done)
    {
      var m := messages[i];
      DedupOneMore(done, m);
      PrefixGrows(earlier, messages, i);
      i, done := i + 1, done + [m];
      if m.id != "" {
        if m.id in names { continue; }
        names := names + {m.id};
      }
      all := all + [m];
    }
  }

  lemma PrefixStarts(earlier: seq<ChatMessage>, messages: seq<ChatMessage>)
    ensures earlier + messages[..0] == earlier && messages[..|messages|] == messages
  {
  }

  lemma PrefixGrows(earlier: seq<ChatMessage>, messages: seq<ChatMessage>, i: nat)
    requires i < |messages|
    ensures earlier + messages[..i + 1] == (earlier + messages[..i]) + [messages[i]]
  {
  }

  lemma DedupOneMore(messages: seq<ChatMessage>, m: ChatMessage)
    ensures Names(messages + [m]) == Names(messages) + {m.id}
    ensures Dedup(messages + [m]) == if m.id != "" && m.id in Names(messages) then Dedup(messages) else Dedup(messages) + [m]
  {
    NamesAppend(messages, m);
    assert (messages + [m])[..|messages|] == messages;
  }

  method CompactSessionMessages(messages: seq<ChatMessage>, latest: Option<Summary>, now: int) returns (out: seq<ChatMessage>)
    ensures out == CompactedMessages(messages, latest, now)
  {
    if |messages| == 0 { return []; }
    if latest.Some? {
      var i := 0;
      while i < |messages|
        invariant i <= |messages|
        invariant forall k :: 0 <= k < i ==> messages[k].id != latest.value.firstKept
      {
        if messages[i].id == latest.value.firstKept {
          return [SummaryMessage(latest.value, now)] + messages[i..];
        }
        i := i + 1;
      }
    }
    out := messages;
  }

  method ReadSessionMessages(codec: Codec, files: seq<seq<Entry>>, now: int) returns (out: seq<ChatMessage>)
    ensures out == ReadSession(codec, files, now)
  {
    var kept: seq<ChatMessage>, seen: set<string>, latest: Option<Summary> := [], {}, None;
    var i := 0;
    while i < |files|
      invariant i <= |files|
      invariant latest == LatestInFiles(files[..i])
      invariant kept == Dedup(ReadFiles(codec, files[..i], now)) && seen == Names(ReadFiles(codec, files[..i], now)) - {""}
    {
      assert files[..i + 1][..i] == files[..i];
      var current := FindLatestCompaction(files[i]);
      if current.Some? { latest := current; }
      var messages := ParsePiMessages(codec, files[i], now);
      kept, seen := DropSeen(kept, seen, messages, ReadFiles(codec, files[..i], now));
      i := i + 1;
    }
    assert files[..i] == files;
    out := CompactSessionMessages(kept, latest, now);
  }

  lemma OneFile(codec: Codec, entries: seq<Entry>, now: int)
    ensures ReadFiles(codec, [entries], now) == ReadLog(codec, entries, now)
    ensures LatestInFiles([entries]) == LatestCompaction(entries)
  {
    assert [entries][..0] == [];
    assert ReadFiles(codec, [], now) + ReadLog(codec, entries, now) == ReadLog(codec, entries, now);
  }

  lemma NamesAppend(messages: seq<ChatMessage>, m: ChatMessage)
    ensures Names(messages + [m]) == Names(messages) + {m.id}
  {
    var all := messages + [m];
    assert all[|messages|] == m;
    forall x | x in Names(messages) ensures x in Names(all) {
      var i :| 0 <= i < |messages| && messages[i].id == x;
      assert all[i].id == x;
    }
  }

  /* Names of the messages read */

  /** From position `from` on, every name is new. */
  ghost predicate DistinctNames(messages: seq<ChatMessage>, from: nat) {
    forall i, j :: 0 <= i < j < |messages| && from <= j && messages[j].id != "" ==> messages[i].id != messages[j].id
  }

  lemma {:induction false} DedupIsNoLonger(messages: seq<ChatMessage>)
    ensures |Dedup(messages)| <= |messages|
  {
    if messages != [] { DedupIsNoLonger(messages[..|messages| - 1]); }
  }

  lemma DistinctOneMore(messages: seq<ChatMessage>, m: ChatMessage, from: nat)
    requires from <= |messages|
    ensures DistinctNames(messages + [m], from) <==> DistinctNames(messages, from) && (m.id == "" || m.id !in Names(messages))
  {
    var all := messages + [m];
    assert forall i :: 0 <= i < |messages| ==> all[i] == messages[i];
    assert all[|messages|] == m;
  }

  /** Every message is kept exactly when no name stands twice. */
  lemma {:induction false} DedupKeepsAll(messages: seq<ChatMessage>)
    ensures Dedup(messages) == messages <==> DistinctNames(messages, 0)
  {
    hide DistinctNames;
    if messages == [] {
      NoNames([]);
    } else {
      var init, m := messages[..|messages| - 1], messages[|messages| - 1];
      DedupKeepsAll(init);
      DedupIsNoLonger(init);
      DistinctOneMore(init, m, 0);
      assert messages == init + [m];
    }
  }

  lemma NoNames(messages: seq<ChatMessage>)
    ensures DistinctNames(messages, |messages|)
  {
  }

  /** A message that is kept: one without a name, or the first of its name. */
  ghost predicate IsFirst(messages: seq<ChatMessage>, k: nat)
    requires k < |messages|
  {
    messages[k].id == "" || forall i :: 0 <= i < k ==> messages[i].id != messages[k].id
  }

  ghost function AreFirst(messages: seq<ChatMessage>): nat -> bool {
    (k: nat) => k < |messages| && IsFirst(messages, k)
  }

  lemma DedupTakesFirst(messages: seq<ChatMessage>, k: nat)
    requires k < |messages|
    ensures Dedup(messages[..k + 1]) == Dedup(messages[..k]) + if IsFirst(messages, k) then [messages[k]] else []
  {
    var before := messages[..k];
    assert messages[..k + 1] == before + [messages[k]];
    DedupOneMore(before, messages[k]);
    hide Dedup;
    if i :| 0 <= i < k && messages[i].id == messages[k].id { assert before[i].id == messages[k].id; }
  }

  lemma {:induction false} DedupUpTo(messages: seq<ChatMessage>, n: nat, places: seq<nat>)
    requires n <= |messages| && Listing(places, n, AreFirst(messages))
    ensures Dedup(messages[..n]) == At(messages, places)
  {
    hide IsFirst, At;
    if n == 0 {
      assert places == [];
      NothingAt(messages);
    } else {
      var last: nat := n - 1;
      DedupTakesFirst(messages, last);
      ListingOneLess(places, last, AreFirst(messages));
      hide Dedup;
      if IsFirst(messages, last) {
        var front := places[..|places| - 1];
        DedupUpTo(messages, last, front);
        assert places == front + [last];
        AtOneMore(messages, front, last);
      } else {
        DedupUpTo(messages, last, places);
      }
    }
  }

  /** Of messages with the same name the first is kept, and the order stays. */
  lemma FirstsAreKept(messages: seq<ChatMessage>, places: seq<nat>)
    requires Listing(places, |messages|, AreFirst(messages))
    ensures Dedup(messages) == At(messages, places)
  {
    DedupUpTo(messages, |messages|, places);
    assert messages[..|messages|] == messages;
  }

  /* Several files */

  lemma {:induction false} FilesFollow(codec: Codec, file: seq<Entry>, files: seq<seq<Entry>>, now: int)
    ensures ReadFiles(codec, [], now) == []
    ensures ReadFiles(codec, [file] + files, now) == ReadLog(codec, file, now) + ReadFiles(codec, files, now)
  {
    if files == [] {
      assert [file] + files == [file];
      OneFile(codec, file, now);
    } else {
      var init, last := files[..|files| - 1], files[|files| - 1];
      FilesFollow(codec, file, init, now);
      assert ([file] + files)[..|files|] == [file] + init;
    }
  }

  predicate Usable(e: Entry) {
    e.Compaction? && TrimSpace(e.summary) != "" && TrimSpace(e.firstKeptEntryId) != ""
  }

  /** Line `i` is the last usable one, and says this. */
  predicate SaysLast(entries: seq<Entry>, i: int, s: Summary) {
    && 0 <= i < |entries| && Usable(entries[i]) && (forall j :: i < j < |entries| ==> !Usable(entries[j]))
    && s == Summary(TrimSpace(entries[i].summary), TrimSpace(entries[i].firstKeptEntryId), entries[i].timestamp)
  }

  lemma NoneAfter(entries: seq<Entry>, e: Entry)
    requires !Usable(e)
    ensures (forall i :: 0 <= i < |entries| ==> !Usable(entries[i])) ==> forall i :: 0 <= i < |entries + [e]| ==> !Usable((entries + [e])[i])
    ensures forall i, s :: SaysLast(entries, i, s) ==> SaysLast(entries + [e], i, s)
  {
    hide Usable, TrimSpace;
    var all := entries + [e];
    forall i | 0 <= i < |entries| ensures all[i] == entries[i] {}
  }

  /** The last compaction line of a file that has a summary and names an entry; what it says, trimmed. */
  lemma {:induction false} LatestIsLast(entries: seq<Entry>)
    ensures match LatestCompaction(entries)
      case None => forall i :: 0 <= i < |entries| ==> !Usable(entries[i])
      case Some(s) => exists i :: SaysLast(entries, i, s)
  {
    if entries != [] {
      var init, e := entries[..|entries| - 1], entries[|entries| - 1];
      LatestOneMore(entries);
      LatestIsLast(init);
      assert entries == init + [e];
      if Usable(e) {
        assert SaysLast(entries, |init|, LatestCompaction(entries).value);
      } else {
        NoneAfter(init, e);
      }
      hide TrimSpace, LatestCompaction, Usable, SaysLast;
    }
  }

  lemma LatestOneMore(entries: seq<Entry>)
    requires entries != []
    ensures var e := entries[|entries| - 1];
      LatestCompaction(entries) ==
        if Usable(e) then Some(Summary(TrimSpace(e.summary), TrimSpace(e.firstKeptEntryId), e.timestamp))
        else LatestCompaction(entries[..|entries| - 1])
  {
    hide TrimSpace;
  }

  /** Of several files the last one with such a line counts. */
  lemma {:induction false} LatestFileCounts(files: seq<seq<Entry>>)
    ensures LatestInFiles(files).None? <==> forall i :: 0 <= i < |files| ==> LatestCompaction(files[i]).None?
    ensures LatestInFiles(files).Some? ==>
      exists i :: 0 <= i < |files| && LatestInFiles(files) == LatestCompaction(files[i])
        && forall j :: i < j < |files| ==> LatestCompaction(files[j]).None?
  {
    hide LatestCompaction;
    if files != [] && LatestCompaction(files[|files| - 1]).None? { LatestFileCounts(files[..|files| - 1]); }
  }

  /** What stands for the messages that a compaction leaves out. */
  lemma SummaryStandsFirst(messages: seq<ChatMessage>, s: Summary, now: int, k: nat)
    requires k < |messages| && messages[k].id == s.firstKept && forall i :: 0 <= i < k ==> messages[i].id != s.firstKept
    ensures CompactedMessages(messages, Some(s), now) ==
      [ChatMessage("pi_compaction_summary", User, Blocks([Text("[Context Summary]\n\n" + s.text)]),
                   if s.timestamp > 0 then s.timestamp else now, "", false, "", true)] + messages[k..]
  {
    FirstNamedIs(messages, s.firstKept, k);
  }

  /** The part of `later` that is kept after `earlier`. */
  function DedupAfter(earlier: seq<ChatMessage>, later: seq<ChatMessage>): (kept: seq<ChatMessage>)
    ensures |kept| <= |later|
  {
    if later == [] then []
    else
      var kept, m := DedupAfter(earlier, later[..|later| - 1]), later[|later| - 1];
      if m.id != "" && m.id in Names(earlier + later[..|later| - 1]) then kept else kept + [m]
  }

  lemma {:induction false} DedupAfterKeepsAll(earlier: seq<ChatMessage>, later: seq<ChatMessage>)
    ensures DedupAfter(earlier, later) == later <==> DistinctNames(earlier + later, |earlier|)
  {
    hide DistinctNames;
    if later == [] {
      NoNames(earlier);
      assert earlier + later == earlier;
    } else {
      var init, m := later[..|later| - 1], later[|later| - 1];
      DedupAfterKeepsAll(earlier, init);
      DistinctOneMore(earlier + init, m, |earlier|);
      assert later == init + [m] && earlier + later == (earlier + init) + [m];
    }
  }

  lemma {:induction false} DedupAddsNoName(messages: seq<ChatMessage>, id: string)
    requires id !in Names(messages)
    ensures id !in Names(Dedup(messages))
  {
    if messages != [] {
      var init, m := messages[..|messages| - 1], messages[|messages| - 1];
      assert messages == init + [m];
      NamesAppend(init, m);
      NamesAppend(Dedup(init), m);
      DedupAddsNoName(init, id);
    }
  }

  lemma FirstNamedIs(messages: seq<ChatMessage>, id: string, f: nat)
    requires f < |messages| && messages[f].id == id
    requires forall i :: 0 <= i < f ==> messages[i].id != id
    ensures FirstNamed(messages, id) == f
  {
  }

  lemma DedupAfterOneMore(earlier: seq<ChatMessage>, later: seq<ChatMessage>, m: ChatMessage)
    ensures DedupAfter(earlier, later + [m]) ==
      DedupAfter(earlier, later) + if m.id != "" && m.id in Names(earlier + later) then [] else [m]
  {
    assert (later + [m])[..|later|] == later;
  }

  /** What is kept from the first message of a name on. */
  lemma {:induction false} KeptFrom(messages: seq<ChatMessage>, id: string, f: nat) returns (g: nat)
    requires id != "" && f < |messages| && messages[f].id == id && id !in Names(messages[..f])
    ensures g < |Dedup(messages)| && g == FirstNamed(Dedup(messages), id)
    ensures Dedup(messages)[g] == messages[f] && Dedup(messages)[g..] == DedupAfter(messages[..f], messages[f..])
  {
    var init, m := messages[..|messages| - 1], messages[|messages| - 1];
    assert messages == init + [m];
    hide Dedup, DedupAfter, Names, FirstNamed;
    if f < |init| {
      assert init[..f] == messages[..f];
      g := KeptFrom(init, id, f);
      KeptOneMore(init, m, id, f, g);
    } else {
      g := |Dedup(init)|;
      assert init == messages[..f] && messages[f..] == [m];
      FirstOfItsName(init, m);
      DedupOneMore(init, m);
    }
  }

  lemma SlicesOneMore(s: seq<ChatMessage>, m: ChatMessage, k: nat)
    requires k < |s|
    ensures (s + [m])[k..] == s[k..] + [m] && (s + [m])[..k] == s[..k] && (s + [m])[k] == s[k] && s[..k] + s[k..] == s
  {
  }

  lemma KeptOneMore(init: seq<ChatMessage>, m: ChatMessage, id: string, f: nat, g: nat)
    requires f < |init| && g < |Dedup(init)| && g == FirstNamed(Dedup(init), id)
    requires Dedup(init)[g..] == DedupAfter(init[..f], init[f..])
    ensures var messages := init + [m]; var kept := Dedup(messages);
      && g < |kept| && g == FirstNamed(kept, id) && kept[g] == Dedup(init)[g]
      && kept[g..] == DedupAfter(messages[..f], messages[f..])
  {
    var kept := Dedup(init);
    hide Dedup, DedupAfter, Names, FirstNamed;
    DedupOneMore(init, m);
    DedupAfterOneMore(init[..f], init[f..], m);
    SlicesOneMore(init, m, f);
    SlicesOneMore(kept, m, g);
    FirstNamedIs(kept + [m], id, g);
  }

  lemma FirstOfItsName(init: seq<ChatMessage>, m: ChatMessage)
    requires m.id !in Names(init)
    ensures FirstNamed(Dedup(init) + [m], m.id) == |Dedup(init)|
    ensures DedupAfter(init, [m]) == [m]
  {
    DedupAddsNoName(init, m.id);
    NotNamed(Dedup(init), m.id);
    FirstNamedIs(Dedup(init) + [m], m.id, |Dedup(init)|);
    DedupAfterOneMore(init, [], m);
    assert [] + [m] == [m] && init + [] == init;
  }

  lemma NotNamed(messages: seq<ChatMessage>, id: string)
    ensures id !in Names(messages) <==> forall i :: 0 <= i < |messages| ==> messages[i].id != id
  {
  }

  /** Repetitions among messages that all have a name, seen from their heads. */
  lemma HeadsRepeat(messages: seq<ChatMessage>, from: nat)
    requires forall i :: 0 <= i < |messages| ==> messages[i].id != ""
    ensures DistinctNames(messages, from) <==> !RepeatsFrom(HeadsOf(messages), from)
  {
    var heads := HeadsOf(messages);
    if !RepeatsFrom(heads, from) {
      forall i: nat, j: nat | i < j < |messages| && from <= j ensures messages[i].id != messages[j].id {
        assert heads[i].name == messages[i].id && heads[j].name == messages[j].id;
      }
    }
  }

  lemma NamesRepeatIff(codec: Codec, entries: seq<Entry>, from: nat, now: int)
    requires NamedEntries(entries) && from <= |entries|
    ensures DistinctNames(ReadLog(codec, entries, now), Position(entries, from)) <==> !Collides(entries, from)
  {
    hide ReadLog, Position, Heads, Collides, RepeatsFrom, DistinctNames;
    assert entries[..|entries|] == entries;
    ReadGivesHeads(codec, entries, |entries|, now);
    HeadsAreNamed(entries, |entries|);
    NamesOfHeads(ReadLog(codec, entries, now));
    HeadsRepeat(ReadLog(codec, entries, now), Position(entries, from));
    RepeatsIffCollides(entries, from);
  }

  lemma NamesOfHeads(messages: seq<ChatMessage>)
    ensures (forall i :: 0 <= i < |messages| ==> messages[i].id == HeadsOf(messages)[i].name)
  {
  }

  /** Reading a log whose entries have names of their own keeps every message exactly when no two names collide. */
  lemma ReadNamesAreDistinct(codec: Codec, entries: seq<Entry>, now: int)
    requires NamedEntries(entries)
    ensures Dedup(ReadLog(codec, entries, now)) == ReadLog(codec, entries, now) <==> !Collides(entries, 0)
  {
    DedupKeepsAll(ReadLog(codec, entries, now));
    NamesRepeatIff(codec, entries, 0, now);
    hide ReadLog, Dedup, Collides, DistinctNames;
  }

  /* Compacted sessions */

  /** The part of a log's messages from the message of entry `k` on. */
  ghost function MessagesFrom(codec: Codec, entries: seq<Entry>, k: nat, now: int): seq<ChatMessage>
    requires NamedEntries(entries) && k < |entries| && StartsMessage(entries, k)
  {
    StarterSplitsReading(codec, entries, k, now);
    ReadLog(codec, entries, now)[Position(entries, k)..]
  }

  /** Of two messages with the name of an entry, the earlier one begins with a tool result, and the entry's own does not. */
  lemma EarlierIsResult(codec: Codec, entries: seq<Entry>, k: nat, f: nat, now: int)
    requires NamedEntries(entries) && k < |entries| && NamesMessage(entries, k)
    requires f < Position(entries, k) < |ReadLog(codec, entries, now)|
    requires ReadLog(codec, entries, now)[f].id == entries[k].id
    ensures HeadOf(ReadLog(codec, entries, now)[f]).byResult && !HeadOf(ReadLog(codec, entries, now)[Position(entries, k)]).byResult
  {
    StarterSplitsReading(codec, entries, k, now);
    hide ReadLog, ReaderId, HeadOf;
    assert entries[..|entries|] == entries;
    ReadGivesHeads(codec, entries, |entries|, now);
    var s := HeadHasStarter(entries, k, f);
    PositionGrows(entries, k, |entries|);
    assert HeadOf(ReadLog(codec, entries, now)[f]) == HeadAt(entries, s) && HeadAt(entries, s).name == entries[k].id by {
      assert HeadsOf(ReadLog(codec, entries, now))[f] == HeadAt(entries, s);
      HeadsName(ReadLog(codec, entries, now), f);
    }
  }

  lemma HeadsName(messages: seq<ChatMessage>, f: nat)
    requires f < |messages|
    ensures HeadsOf(messages)[f].name == messages[f].id && HeadsOf(messages)[f] == HeadOf(messages[f])
  {
  }

  lemma SameTail(m: ChatMessage, a: seq<ChatMessage>, b: seq<ChatMessage>)
    ensures [m] + a == [m] + b <==> a == b
  {
    assert ([m] + a)[1..] == a && ([m] + b)[1..] == b;
  }

  lemma FirstOfName(messages: seq<ChatMessage>, p: nat) returns (f: nat)
    requires p < |messages|
    ensures f <= p && messages[f].id == messages[p].id && messages[p].id !in Names(messages[..f])
  {
    f := FirstNamed(messages, messages[p].id);
    NotNamed(messages[..f], messages[p].id);
  }

  /** What a compaction makes of the messages from the first kept one on. */
  lemma CompactedTail(full: seq<ChatMessage>, f: nat, s: Summary, now: int)
    requires f < |full| && s.firstKept != "" && full[f].id == s.firstKept && s.firstKept !in Names(full[..f])
    ensures var kept := DedupAfter(full[..f], full[f..]);
      kept != [] && kept[0] == full[f] && CompactedMessages(Dedup(full), Some(s), now) == [SummaryMessage(s, now)] + kept
  {
    hide SummaryMessage, DedupAfter, Dedup, FirstNamed, Names;
    var g := KeptFrom(full, s.firstKept, f);
  }

  lemma CompactedFrom(full: seq<ChatMessage>, p: nat, s: Summary, now: int)
    requires p < |full| && s.firstKept != "" && full[p].id == s.firstKept
    requires forall f :: 0 <= f < p && full[f].id == s.firstKept ==> full[f] != full[p]
    ensures CompactedMessages(Dedup(full), Some(s), now) == [SummaryMessage(s, now)] + full[p..] <==> DistinctNames(full, p)
  {
    hide SummaryMessage, DedupAfter, Dedup, FirstNamed, DistinctNames, Names, CompactedMessages;
    var f := FirstOfName(full, p);
    CompactedTail(full, f, s, now);
    SameTail(SummaryMessage(s, now), DedupAfter(full[..f], full[f..]), full[p..]);
    KeptTail(full, f, p);
  }

  lemma KeptTail(full: seq<ChatMessage>, f: nat, p: nat)
    requires f <= p < |full| && full[f].id == full[p].id != "" && (f < p ==> full[f] != full[p])
    requires var kept := DedupAfter(full[..f], full[f..]); kept != [] && kept[0] == full[f]
    ensures DedupAfter(full[..f], full[f..]) == full[p..] <==> DistinctNames(full, p)
  {
    hide DedupAfter, DistinctNames;
    if f == p {
      DedupAfterKeepsAll(full[..p], full[p..]);
      assert full[..p] + full[p..] == full;
    } else {
      assert full[p..][0] == full[p];
      EarlierRepeats(full, f, p);
    }
  }

  lemma EarlierRepeats(full: seq<ChatMessage>, f: nat, p: nat)
    requires f < p < |full| && full[f].id == full[p].id != ""
    ensures !DistinctNames(full, p)
  {
  }

  /**
   * Reading a compacted session whose latest compaction keeps from an entry that names a message gives the summary
   * followed by exactly the messages that the log without compaction gives from that entry on, that entry's own
   * first, if and only if no name from there on collides.
   */
  lemma CompactedReading(codec: Codec, entries: seq<Entry>, k: nat, now: int)
    requires NamedEntries(entries) && k < |entries| && NamesMessage(entries, k)
    requires LatestCompaction(entries).Some? && LatestCompaction(entries).value.firstKept == entries[k].id
    ensures var expected := [SummaryMessage(LatestCompaction(entries).value, now)] + MessagesFrom(codec, entries, k, now);
      ReadSession(codec, [entries], now) == expected <==> !Collides(entries, k)
    ensures ReadLog(codec, entries, now) == ReadLog(codec, entries[..k], now) + MessagesFrom(codec, entries, k, now)
    ensures MessagesFrom(codec, entries, k, now) != [] && MessagesFrom(codec, entries, k, now)[0].id == entries[k].id
  {
    OneFile(codec, entries, now);
    hide ReadLog, Dedup, LatestCompaction, NamedEntries, SummaryMessage, Collides, CompactedMessages, ReadFiles, LatestInFiles, Position,
         StartsMessage, MessagesFrom;
    MessagesSplit(codec, entries, k, now);
    CompactedLogFrom(codec, entries, k, LatestCompaction(entries).value, now);
  }

  lemma MessagesSplit(codec: Codec, entries: seq<Entry>, k: nat, now: int)
    requires NamedEntries(entries) && k < |entries| && NamesMessage(entries, k)
    ensures ReadLog(codec, entries, now) == ReadLog(codec, entries[..k], now) + MessagesFrom(codec, entries, k, now)
    ensures MessagesFrom(codec, entries, k, now) != [] && MessagesFrom(codec, entries, k, now)[0].id == entries[k].id
  {
    var full, before := ReadLog(codec, entries, now), ReadLog(codec, entries[..k], now);
    hide ReadLog, NamedEntries, Position, StartsMessage;
    StarterSplitsReading(codec, entries, k, now);
    assert full == before + full[|before|..];
  }

  lemma CompactedLogFrom(codec: Codec, entries: seq<Entry>, k: nat, s: Summary, now: int)
    requires NamedEntries(entries) && k < |entries| && NamesMessage(entries, k) && s.firstKept == entries[k].id
    ensures var full := ReadLog(codec, entries, now); var expected := [SummaryMessage(s, now)] + MessagesFrom(codec, entries, k, now);
      CompactedMessages(Dedup(full), Some(s), now) == expected <==> !Collides(entries, k)
  {
    var full, p := ReadLog(codec, entries, now), Position(entries, k);
    assert entries[k].id != "";
    StarterSplitsReading(codec, entries, k, now);
    NamesRepeatIff(codec, entries, k, now);
    hide ReadLog, Dedup, NamedEntries, DistinctNames, SummaryMessage, Collides, Position, CompactedMessages, Heads, StartsMessage;
    assert full[p].id == entries[k].id;
    forall f | 0 <= f < p && full[f].id == entries[k].id ensures full[f] != full[p] {
      EarlierIsResult(codec, entries, k, f, now);
    }
    CompactedFrom(full, p, s, now);
  }

  /** A message that begins with a tool result bears the name. */
  predicate NamesResult(entries: seq<Entry>, name: string) {
    exists t: nat :: t < |entries| && OpensWithResult(entries, t) && ReaderId(Position(entries, t)) == name
  }

  /** A name that no entry gives to a message of its own is read only where a tool result's position yields it. */
  lemma OnlyResultsBear(codec: Codec, entries: seq<Entry>, k: nat, now: int)
    requires NamedEntries(entries) && k < |entries| && !NamesMessage(entries, k)
    ensures entries[k].id in Names(ReadLog(codec, entries, now)) <==> NamesResult(entries, entries[k].id)
  {
    var full, name := ReadLog(codec, entries, now), entries[k].id;
    hide ReadLog, ReaderId, HeadOf, Position, Heads, Open, Shows, NamesMessage, NamesResult;
    assert entries[..|entries|] == entries;
    ReadGivesHeads(codec, entries, |entries|, now);
    if name in Names(full) {
      var f :| 0 <= f < |full| && full[f].id == name;
      HeadsName(full, f);
      BearerIsResult(entries, k, f);
    }
    if NamesResult(entries, name) {
      var f := ResultBears(entries, name);
      HeadsName(full, f);
    }
  }

  lemma {:induction false} BearerIsResult(entries: seq<Entry>, k: nat, f: nat)
    requires NamedEntries(entries) && k < |entries| && !NamesMessage(entries, k)
    requires f < Position(entries, |entries|) && Heads(entries, |entries|)[f].name == entries[k].id
    ensures NamesResult(entries, entries[k].id)
  {
    var s := HeadHasStarter(entries, |entries|, f);
    hide ReaderId, Position, Heads, Open, Shows;
    assert OpensWithResult(entries, s);
  }

  lemma ResultBears(entries: seq<Entry>, name: string) returns (f: nat)
    requires NamesResult(entries, name)
    ensures f < Position(entries, |entries|) && Heads(entries, |entries|)[f].name == name
  {
    var t: nat :| t < |entries| && OpensWithResult(entries, t) && ReaderId(Position(entries, t)) == name;
    StarterHasHead(entries, t, |entries|);
    f := Position(entries, t);
  }

  lemma {:induction false} DedupKeepsNames(messages: seq<ChatMessage>, id: string)
    requires id != ""
    ensures id in Names(Dedup(messages)) <==> id in Names(messages)
  {
    if messages != [] {
      var init, m := messages[..|messages| - 1], messages[|messages| - 1];
      assert messages == init + [m];
      NamesAppend(init, m);
      NamesAppend(Dedup(init), m);
      DedupKeepsNames(init, id);
    }
  }

  lemma {:induction false} DedupTakes(messages: seq<ChatMessage>)
    ensures forall m :: m in Dedup(messages) ==> m in messages
  {
    if messages != [] { DedupTakes(messages[..|messages| - 1]); }
  }

  lemma {:induction false} NoSummaryIsRead(codec: Codec, entries: seq<Entry>, now: int)
    ensures forall m :: m in ReadEntries(codec, FRESH_READER, entries, now).messages ==> !m.isCompactSummary
    ensures forall m :: m in ReadLog(codec, entries, now) ==> !m.isCompactSummary
  {
    hide UiBlocks, UiResultContent, Upsert, AppendToLast, SegmentBlocks, ReaderId, TrimSpace;
    if entries != [] { NoSummaryIsRead(codec, entries[..|entries| - 1], now); }
  }

  lemma SummaryShows(kept: seq<ChatMessage>, s: Summary, now: int)
    requires forall m :: m in kept ==> !m.isCompactSummary
    ensures CompactedMessages(kept, Some(s), now) == kept <==> s.firstKept !in Names(kept)
  {
    NotNamed(kept, s.firstKept);
    var out := CompactedMessages(kept, Some(s), now);
    if FirstNamed(kept, s.firstKept) < |kept| {
      assert out[0].isCompactSummary && kept[0] in kept;
    }
  }

  /**
   * A compaction that keeps from an entry in the middle of an assistant's message, or from one that shows nothing, is
   * ignored by the reader, unless a message that begins with a tool result happens to bear the entry's name.
   */
  lemma InnerCutIsIgnored(codec: Codec, entries: seq<Entry>, k: nat, now: int)
    requires NamedEntries(entries) && k < |entries| && !NamesMessage(entries, k)
    requires LatestCompaction(entries).Some? && LatestCompaction(entries).value.firstKept == entries[k].id
    ensures ReadSession(codec, [entries], now) == Dedup(ReadLog(codec, entries, now)) <==> !NamesResult(entries, entries[k].id)
  {
    var full := ReadLog(codec, entries, now);
    assert entries[k].id != "";
    OneFile(codec, entries, now);
    OnlyResultsBear(codec, entries, k, now);
    NoSummaryIsRead(codec, entries, now);
    hide ReadLog, Dedup, LatestCompaction, NamedEntries, CompactedMessages, ReadFiles, LatestInFiles, Names, NamesResult, NamesMessage;
    DedupKeepsNames(full, entries[k].id);
    DedupTakes(full);
    SummaryShows(Dedup(full), LatestCompaction(entries).value, now);
  }

  /* Compacted migrations */

  lemma CompactionIsSkipped(codec: Codec, entries: seq<Entry>, e: Entry, now: int)
    requires e.Compaction?
    ensures ReadLog(codec, entries + [e], now) == ReadLog(codec, entries, now)
  {
    ReadOneMore(codec, FRESH_READER, entries, e, now);
    hide FlushGroup;
  }

  lemma LastCompactionCounts(entries: seq<Entry>, e: Entry)
    requires e.Compaction? && TrimSpace(e.summary) != "" && e.firstKeptEntryId != "" && Trimmed(e.firstKeptEntryId)
    ensures LatestCompaction(entries + [e]) == Some(Summary(TrimSpace(e.summary), e.firstKeptEntryId, e.timestamp))
  {
    TrimSpaceTrims(e.firstKeptEntryId);
    hide TrimSpace, Trimmed;
  }

  /** No user entry of a migrated log is invisible to the reader. */
  ghost predicate UsersReadable(entries: seq<Entry>) {
    forall i :: 0 <= i < |entries| && entries[i].Message? && entries[i].message.PiUser? ==> UiBlocks(entries[i].message.content) != []
  }

  lemma EmitKeepsReadable(log: Log, desired: string, stamp: int, message: PiMessage)
    requires UsersReadable(log.entries)
    requires message.PiUser? ==> UiBlocks(message.content) != []
    ensures UsersReadable(Emit(log, desired, stamp, message).entries)
  {
    hide UiBlocks;
  }

  lemma ConvertedBlockShows(codec: Codec, b: Block)
    ensures ConvertBlock(codec, b) != [] ==> UiBlockList(ConvertBlock(codec, b)) != []
  {
    var converted := ConvertBlock(codec, b);
    hide ToolArguments, Sanitize, UiToolName, TrimSpace, Print;
    if converted != [] {
      UiBlockListOne(converted[0]);
      assert [converted[0]] == converted;
    }
  }

  lemma {:induction false} ConvertedBlocksShow(codec: Codec, blocks: seq<Block>)
    ensures ConvertBlocks(codec, blocks) != [] ==> UiBlockList(ConvertBlocks(codec, blocks)) != []
  {
    hide ConvertBlock, UiBlockList;
    if blocks != [] {
      var last := blocks[|blocks| - 1];
      var init := ConvertBlocks(codec, blocks[..|blocks| - 1]);
      ConvertedBlocksShow(codec, blocks[..|blocks| - 1]);
      ConvertedBlockShows(codec, last);
      UiBlockListConcat(init, if last.ToolResult? then [] else ConvertBlock(codec, last));
    }
  }

  lemma ConvertedContentShows(codec: Codec, content: Content)
    ensures ConvertContent(codec, content) != [] ==> UiBlocks(PiBlocks(ConvertContent(codec, content))) != []
  {
    match content
    case Plain(text) => UiBlockListOne(PiText(TrimTextBlock(text)));
    case Blocks(blocks) => ConvertedBlocksShow(codec, blocks);
    case Value(_) =>
  }

  lemma OrphanShows(codec: Codec, id: string, content: Content)
    ensures UiBlocks(PiBlocks(OrphanContent(codec, id, content))) != []
  {
    UiBlockListOne(OrphanContent(codec, id, content)[0]);
    assert [OrphanContent(codec, id, content)[0]] == OrphanContent(codec, id, content);
  }

  lemma FlushKeepsReadable(t: Turn, base: string, stamp: int)
    requires UsersReadable(t.log.entries)
    ensures UsersReadable(Flush(t, base, stamp).log.entries)
  {
    hide Emit, UsersReadable;
    if t.pending != [] { EmitKeepsReadable(t.log, PartId(base, t.part), stamp, PiMigration.AssistantMessage(t.pending)); }
  }

  lemma {:induction false} BlocksKeepReadable(codec: Codec, log: Log, base: string, stamp: int, blocks: seq<Block>, n: nat)
    requires n <= |blocks| && UsersReadable(log.entries)
    ensures UsersReadable(AddBlocks(codec, log, base, stamp, blocks, n).log.entries)
  {
    hide UsersReadable, Emit, Flush, ConvertBlock, OrphanContent, ResultText;
    if n > 0 {
      BlocksKeepReadable(codec, log, base, stamp, blocks, n - 1);
      var t, b := AddBlocks(codec, log, base, stamp, blocks, n - 1), blocks[n - 1];
      FlushKeepsReadable(t, base, stamp);
      var f := Flush(t, base, stamp);
      if b.ToolResult? {
        OrphanShows(codec, b.toolUseId, b.content);
        EmitKeepsReadable(f.log, OrphanId(base, n - 1), stamp, PiUser(PiBlocks(OrphanContent(codec, b.toolUseId, b.content))));
        EmitKeepsReadable(f.log, ResultId(base, n - 1), stamp,
          PiToolResult(b.toolUseId, PiBlocks([PiText(ResultText(codec, b.content))]), b.isError));
      }
    }
  }

  lemma {:induction false} MessagesKeepReadable(codec: Codec, req: Request, messages: seq<ChatMessage>, n: nat)
    requires n <= |messages|
    ensures UsersReadable(AddMessages(codec, req, messages, n).entries)
  {
    hide UsersReadable, Emit, Flush, ConvertContent, AddBlocks, Stamp, BaseId, UiBlocks;
    if n == 0 {
      StartIsReadable(req, messages);
    } else {
      MessagesKeepReadable(codec, req, messages, n - 1);
      MessageKeepsReadable(codec, req, AddMessages(codec, req, messages, n - 1), n - 1, messages[n - 1]);
    }
  }

  lemma StartIsReadable(req: Request, messages: seq<ChatMessage>)
    ensures UsersReadable(Start(req, messages).entries)
  {
  }

  lemma MessageKeepsReadable(codec: Codec, req: Request, log: Log, index: nat, m: ChatMessage)
    requires UsersReadable(log.entries)
    ensures UsersReadable(AddMessage(codec, req, log, index, m).entries)
  {
    hide UsersReadable, Emit, Flush, ConvertContent, AddBlocks, Stamp, BaseId, UiBlocks;
    var stamp, content := Stamp(m.createdAt, req.now), ConvertContent(codec, m.content);
    if m.role.Assistant? && m.content.Blocks? {
      var base := BaseId("assistant", index, m.id);
      BlocksKeepReadable(codec, log, base, stamp, m.content.blocks, |m.content.blocks|);
      FlushKeepsReadable(AddBlocks(codec, log, base, stamp, m.content.blocks, |m.content.blocks|), base, stamp);
    } else {
      ConvertedContentShows(codec, m.content);
      if content != [] {
        EmitKeepsReadable(log, BaseId("user", index, m.id), stamp, PiUser(PiBlocks(content)));
        EmitKeepsReadable(log, BaseId("assistant", index, m.id), stamp, PiMigration.AssistantMessage(content));
      }
    }
  }

  lemma CompactionEntryShape(codec: Codec, req: Request, messages: seq<ChatMessage>, base: seq<Entry>, kept: string, last: string)
    requires Sound(codec)
    ensures var e := CompactionEntry(codec, req, messages, base, kept, last, KEEP_TAIL_BYTES);
      e.Compaction? && TrimSpace(e.summary) != "" && e.firstKeptEntryId == kept
  {
    hide TrimSpace, Bytes, EntryIds.UniqueId;
  }

  lemma DistinctIdsAreNamed(entries: seq<Entry>)
    requires DistinctIds(entries)
    ensures NamedEntries(entries)
  {
  }

  /** A user entry that shows starts a message. */
  lemma UserNamesMessage(entries: seq<Entry>, k: nat)
    requires UsersReadable(entries) && k < |entries| && entries[k].Message? && entries[k].message.PiUser?
    ensures NamesMessage(entries, k)
  {
  }

  /**
   * The same for migrations, wherever the compaction step cuts. At an entry that names a message, as every user entry
   * does, reading the file gives the summary followed by exactly the messages that the uncompacted log gives from that
   * entry on, if and only if no name from there on collides. At any other entry the compaction is ignored, unless a
   * message that begins with a tool result happens to bear the entry's name.
   */
  lemma CompactedMigrationReadsTail(codec: Codec, req: Request, messages: seq<ChatMessage>, out: seq<Entry>, k: nat, now: int)
    requires Sound(codec)
    requires Compacts(codec, req, messages, BaseLog(codec, req, messages).entries, COMPACT_THRESHOLD_BYTES, KEEP_TAIL_BYTES, out)
    requires var base := BaseLog(codec, req, messages).entries;
      && |out| == |base| + 1 && out[|base|].Compaction?
      && k < |base| && base[k].id == out[|base|].firstKeptEntryId
    ensures var base := BaseLog(codec, req, messages).entries;
      && ReadsFromCut(codec, base, out, k, now)
      && (base[k].Message? && base[k].message.PiUser? ==> NamesMessage(base, k))
  {
    var base := BaseLog(codec, req, messages).entries;
    MigratedLogIsWellFormed(codec, req, messages);
    MessagesKeepReadable(codec, req, messages, |messages|);
    if base[k].Message? && base[k].message.PiUser? { UserNamesMessage(base, k); }
    hide BaseLog, WellFormed, UsersReadable, Compacts, NamesMessage, ReadsFromCut;
    CompactedLogReadsTail(codec, req, messages, base, out, k, now);
  }

  /** What reading a compacted file gives, depending on where it was cut. */
  ghost predicate ReadsFromCut(codec: Codec, base: seq<Entry>, out: seq<Entry>, k: nat, now: int)
    requires k < |base|
  {
    LatestCompaction(out).Some? &&
    var full, p := ReadLog(codec, base, now), Position(base, k);
    if NamesMessage(base, k) then
      && p < |full| && full[p].id == base[k].id && full[..p] == ReadLog(codec, base[..k], now)
      && (ReadSession(codec, [out], now) == [SummaryMessage(LatestCompaction(out).value, now)] + full[p..] <==> !Collides(base, k))
    else
      ReadSession(codec, [out], now) == Dedup(full) <==> !NamesResult(base, base[k].id)
  }

  lemma CompactedLogReadsTail(codec: Codec, req: Request, messages: seq<ChatMessage>, base: seq<Entry>, out: seq<Entry>, k: nat, now: int)
    requires Sound(codec) && WellFormed(base)
    requires Compacts(codec, req, messages, base, COMPACT_THRESHOLD_BYTES, KEEP_TAIL_BYTES, out)
    requires |out| == |base| + 1
    requires k < |base| && out[|base|].Compaction? && base[k].id == out[|base|].firstKeptEntryId
    ensures ReadsFromCut(codec, base, out, k, now)
  {
    var cut :| CompactsAt(codec, req, messages, base, COMPACT_THRESHOLD_BYTES, KEEP_TAIL_BYTES, cut, out);
    CompactedLog(codec, req, messages, base, cut, out);
    CutIsTrimmed(codec, base, cut, k);
    hide CutOf, Bytes, IsCompacted, WellFormed, ReadsFromCut, DistinctIds, Sound, CompactsAt, Trimmed;
    CompactedBaseReadsTail(codec, req, messages, base, k, out, now);
  }

  /** The cut is at a message entry, and those have trimmed names. */
  lemma CutIsTrimmed(codec: Codec, base: seq<Entry>, cut: Option<nat>, k: nat)
    requires DistinctIds(base) && Chained(base) && CutOf(codec, base, KEEP_TAIL_BYTES, cut) && cut.Some? && cut.value < |base|
    requires k < |base| && base[cut.value].id == base[k].id
    ensures Trimmed(base[k].id)
  {
    CutIsSafe(codec, base, KEEP_TAIL_BYTES, cut);
    hide CutOf, Bytes;
    assert cut.value == k;
  }

  lemma CompactedBaseReadsTail(codec: Codec, req: Request, messages: seq<ChatMessage>, base: seq<Entry>, k: nat, out: seq<Entry>, now: int)
    requires Sound(codec)
    requires k < |base| && base[k].id != "" && Trimmed(base[k].id)
    requires LastNamed(base).Some? && out == base + [CompactionEntry(codec, req, messages, base, base[k].id, LastNamed(base).value, KEEP_TAIL_BYTES)]
    requires DistinctIds(out)
    ensures ReadsFromCut(codec, base, out, k, now)
  {
    var e := CompactionEntry(codec, req, messages, base, base[k].id, LastNamed(base).value, KEEP_TAIL_BYTES);
    CompactionEntryShape(codec, req, messages, base, base[k].id, LastNamed(base).value);
    DistinctIdsAreNamed(out);
    hide CompactionEntry, TrimSpace, Trimmed, Sound, LatestCompaction, ReadsFromCut, DistinctIds, NamedEntries;
    LastCompactionCounts(base, e);
    ReadsOnBase(codec, base, e, k, now);
  }

  lemma NamedPrefix(entries: seq<Entry>, e: Entry)
    requires NamedEntries(entries + [e])
    ensures NamedEntries(entries)
  {
    assert forall i :: 0 <= i < |entries| ==> entries[i] == (entries + [e])[i];
  }

  lemma ReadsOnBase(codec: Codec, base: seq<Entry>, e: Entry, k: nat, now: int)
    requires k < |base| && e.Compaction? && NamedEntries(base + [e])
    requires LatestCompaction(base + [e]).Some? && LatestCompaction(base + [e]).value.firstKept == base[k].id
    ensures ReadsFromCut(codec, base, base + [e], k, now)
  {
    var out := base + [e];
    assert out[..k] == base[..k] && out[k] == base[k];
    CompactionStartsNothing(base, e, k);
    NamedPrefix(base, e);
    hide ReadLog, LatestCompaction, ReadSession, SummaryMessage, Collides, NamedEntries, NamesResult, Dedup, Position, StartsMessage;
    CompactionIsSkipped(codec, base, e, now);
    if NamesMessage(base, k) {
      CompactionCollidesNot(base, e, k);
      StarterSplitsReading(codec, base, k, now);
      CompactedReading(codec, out, k, now);
    } else {
      ResultNamesStay(base, e, base[k].id);
      InnerCutIsIgnored(codec, out, k, now);
    }
  }

  lemma ResultNamesStay(base: seq<Entry>, e: Entry, name: string)
    requires e.Compaction?
    ensures NamesResult(base + [e], name) <==> NamesResult(base, name)
  {
    var out := base + [e];
    hide ReaderId, Position, OpensWithResult;
    if t: nat :| t < |out| && OpensWithResult(out, t) && ReaderId(Position(out, t)) == name {
      EndOpensNothing(base, e);
      assert t < |base|;
      CompactionStartsNothing(base, e, t);
    }
    if t: nat :| t < |base| && OpensWithResult(base, t) && ReaderId(Position(base, t)) == name {
      CompactionStartsNothing(base, e, t);
    }
  }

  lemma EndOpensNothing(base: seq<Entry>, e: Entry)
    requires e.Compaction?
    ensures !OpensWithResult(base + [e], |base|)
  {
  }
}
