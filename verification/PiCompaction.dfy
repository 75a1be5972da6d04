/** Compacting an oversized migrated log (internal/app/pi_session_migration.go, maybeCompactHostPiMigrationJSONLLines). */
module PiCompaction {
  import opened Prelude
  import opened Text
  import opened EntryIds
  import opened ChatBlocks
  import opened PiMigration
  import opened PiMigrationLog

  const COMPACT_THRESHOLD_BYTES: int := 768 * 1024
  const KEEP_TAIL_BYTES: int := 64 * 1024

  datatype LineRole = NoRole | UserLine | AssistantLine | ToolResultLine | OtherLine

  datatype LineInfo = LineInfo(id: string, isMessage: bool, role: LineRole, byteEnd: nat)

  function RoleOf(e: Entry): LineRole {
    if !e.Message? then NoRole
    else
      match e.message
      case PiUser(_) => UserLine
      case PiAssistant(_, _, _) => AssistantLine
      case PiToolResult(_, _, _) => ToolResultLine
      case PiOtherRole(_) => OtherLine
  }

  /** The size of the log file: every line with its newline. */
  function Bytes(codec: Codec, entries: seq<Entry>): nat {
    if entries == [] then 0
    else Bytes(codec, entries[..|entries| - 1]) + codec.lineBytes(entries[|entries| - 1]) + 1
  }

  function Infos(codec: Codec, entries: seq<Entry>): (infos: seq<LineInfo>)
    ensures |infos| == |entries|
    ensures forall i :: 0 <= i < |entries| ==>
      infos[i] == LineInfo(entries[i].id, entries[i].Message?, RoleOf(entries[i]), Bytes(codec, entries[..i + 1]))
  {
    seq(|entries|, i requires 0 <= i < |entries| =>
      LineInfo(entries[i].id, entries[i].Message?, RoleOf(entries[i]), Bytes(codec, entries[..i + 1])))
  }

  /** A named message line that ends at or after the target byte. */
  predicate InTail(info: LineInfo, target: int) {
    info.isMessage && info.id != "" && info.byteEnd >= target
  }

  predicate Starts(info: LineInfo) {
    info.isMessage && info.id != "" && info.role != ToolResultLine
  }

  /** The cut: the first user line of the tail, else its first line that is no tool result, else the last such line at all. */
  ghost predicate IsCut(infos: seq<LineInfo>, target: int, cut: Option<nat>) {
    if exists i :: 0 <= i < |infos| && InTail(infos[i], target) && infos[i].role == UserLine then
      && cut.Some? && cut.value < |infos|
      && InTail(infos[cut.value], target) && infos[cut.value].role == UserLine
      && forall i :: 0 <= i < cut.value ==> !(InTail(infos[i], target) && infos[i].role == UserLine)
    else if exists i :: 0 <= i < |infos| && InTail(infos[i], target) && Starts(infos[i]) then
      && cut.Some? && cut.value < |infos|
      && InTail(infos[cut.value], target) && Starts(infos[cut.value])
      && forall i :: 0 <= i < cut.value ==> !(InTail(infos[i], target) && Starts(infos[i]))
    else if exists i :: 0 <= i < |infos| && Starts(infos[i]) then
      && cut.Some? && cut.value < |infos|
      && Starts(infos[cut.value])
      && forall i :: cut.value < i < |infos| ==> !Starts(infos[i])
    else cut.None?
  }

  lemma CutIsUnique(infos: seq<LineInfo>, target: int, a: Option<nat>, b: Option<nat>)
    requires IsCut(infos, target, a) && IsCut(infos, target, b)
    ensures a == b
  {
  }

  method FindFirstKept(infos: seq<LineInfo>, totalBytes: int, keepTailBytes: int) returns (cut: Option<nat>)
    ensures IsCut(infos, totalBytes - keepTailBytes, cut)
  {
    var target := totalBytes - keepTailBytes;
    var fallback: Option<nat> := None;
    var i := 0;
    while i < |infos|
      invariant i <= |infos|
      invariant forall k :: 0 <= k < i ==> !(InTail(infos[k], target) && infos[k].role == UserLine)
      invariant fallback.None? ==> forall k :: 0 <= k < i ==> !(InTail(infos[k], target) && Starts(infos[k]))
      invariant fallback.Some? ==>
        && fallback.value < i && InTail(infos[fallback.value], target) && Starts(infos[fallback.value])
        && forall k :: 0 <= k < fallback.value ==> !(InTail(infos[k], target) && Starts(infos[k]))
    {
      var info := infos[i];
      if info.isMessage && info.id != "" && info.byteEnd >= target {
        if fallback.None? && info.role != ToolResultLine {
          fallback := Some(i);
        }
        if info.role == UserLine {
          return Some(i);
        }
      }
      i := i + 1;
    }
    if fallback.Some? {
      return fallback;
    }
    i := |infos|;
    while i > 0
      invariant 0 <= i <= |infos|
      invariant forall k :: i <= k < |infos| ==> !Starts(infos[k])
    {
      i := i - 1;
      if Starts(infos[i]) {
        return Some(i);
      }
    }
    return None;
  }

  function SanitizedChar(c: char): char {
    if 'a' <= c <= 'z' || 'A' <= c <= 'Z' || '0' <= c <= '9' || c == '-' || c == '_' then c else '_'
  }

  function SanitizeId(id: string): string {
    var trimmed := TrimSpace(id);
    if trimmed == "" then "session" else seq(|trimmed|, i requires 0 <= i < |trimmed| => SanitizedChar(trimmed[i]))
  }

  function EstimateTokens(bytes: int): int {
    if bytes <= 0 then 0 else (bytes + 3) / 4
  }

  function FinishedAt(messages: seq<ChatMessage>, now: int): int {
    if messages == [] then now
    else if messages[|messages| - 1].createdAt > 0 then messages[|messages| - 1].createdAt
    else FinishedAt(messages[..|messages| - 1], now)
  }

  function LastNamed(entries: seq<Entry>): Option<string> {
    if entries == [] then None
    else if entries[|entries| - 1].id != "" then Some(entries[|entries| - 1].id)
    else LastNamed(entries[..|entries| - 1])
  }

  /** The names a compaction entry must avoid, as the log itself shows them. */
  function NamesIn(entries: seq<Entry>): (used: map<string, nat>)
    ensures Positive(used)
    ensures used.Keys == Ids(entries) - {""}
  {
    map id | id in Ids(entries) - {""} :: 1
  }

  function TailBytes(keepTailBytes: int): int {
    if keepTailBytes <= 0 then KEEP_TAIL_BYTES else keepTailBytes
  }

  predicate Oversized(codec: Codec, entries: seq<Entry>, threshold: int) {
    threshold > 0 && Bytes(codec, entries) > threshold && |entries| >= 3
  }

  function CompactionName(req: Request): string {
    "migration_compaction_" + SanitizeId(req.threadId)
  }

  function CompactionEntry(codec: Codec, req: Request, messages: seq<ChatMessage>, entries: seq<Entry>,
                           kept: string, last: string, keepTailBytes: int): Entry
  {
    var total := Bytes(codec, entries);
    Compaction(
      UniqueId(NamesIn(entries), CompactionName(req)),
      Some(last),
      Stamp(FinishedAt(messages, req.now), req.now),
      codec.summary(req.source, messages, kept, total, TailBytes(keepTailBytes)),
      kept,
      EstimateTokens(total))
  }

  /** `out` is the log after the compaction step, given where the cut falls. */
  ghost predicate IsCompacted(codec: Codec, req: Request, messages: seq<ChatMessage>, entries: seq<Entry>,
                              threshold: int, keepTailBytes: int, cut: Option<nat>, out: seq<Entry>)
    requires cut.Some? ==> cut.value < |entries|
  {
    out ==
      if !Oversized(codec, entries, threshold) || cut.None? || LastNamed(entries).None? then entries
      else entries + [CompactionEntry(codec, req, messages, entries, entries[cut.value].id, LastNamed(entries).value, keepTailBytes)]
  }

  ghost predicate CutOf(codec: Codec, entries: seq<Entry>, keepTailBytes: int, cut: Option<nat>) {
    IsCut(Infos(codec, entries), Bytes(codec, entries) - TailBytes(keepTailBytes), cut)
  }

  ghost predicate CompactsAt(codec: Codec, req: Request, messages: seq<ChatMessage>, entries: seq<Entry>,
                             threshold: int, keepTailBytes: int, cut: Option<nat>, out: seq<Entry>)
  {
    && CutOf(codec, entries, keepTailBytes, cut)
    && (cut.Some? ==> cut.value < |entries|)
    && IsCompacted(codec, req, messages, entries, threshold, keepTailBytes, cut, out)
  }

  /** `out` is the log after the compaction step. The cut, and so the outcome, is unique. */
  ghost predicate Compacts(codec: Codec, req: Request, messages: seq<ChatMessage>, entries: seq<Entry>,
                           threshold: int, keepTailBytes: int, out: seq<Entry>)
  {
    exists cut :: CompactsAt(codec, req, messages, entries, threshold, keepTailBytes, cut, out)
  }

  method CountBytes(codec: Codec, entries: seq<Entry>) returns (total: nat)
    ensures total == Bytes(codec, entries)
  {
    total := 0;
    var i := 0;
    while i < |entries|
      invariant i <= |entries|
      invariant total == Bytes(codec, entries[..i])
    {
      assert entries[..i + 1][..i] == entries[..i];
      total := total + codec.lineBytes(entries[i]) + 1;
      i := i + 1;
    }
    assert entries[..i] == entries;
  }

  lemma CutInRange(infos: seq<LineInfo>, target: int)
    ensures forall cut: Option<nat> {:trigger IsCut(infos, target, cut)} ::
      IsCut(infos, target, cut) && cut.Some? ==> cut.value < |infos|
  {
  }

  method FindCut(codec: Codec, entries: seq<Entry>, total: nat, tail: int) returns (cut: Option<nat>)
    requires total == Bytes(codec, entries) && tail > 0
    ensures CutOf(codec, entries, tail, cut)
    ensures cut.Some? ==> cut.value < |entries|
  {
    var infos := Infos(codec, entries);
    CutInRange(infos, total - tail);
    hide IsCut, Bytes;
    cut := FindFirstKept(infos, total, tail);
  }

  lemma CutDependsOnTail(codec: Codec, entries: seq<Entry>, a: int, b: int, cut: Option<nat>)
    requires TailBytes(a) == TailBytes(b) && CutOf(codec, entries, a, cut)
    ensures CutOf(codec, entries, b, cut)
  {
  }

  method MaybeCompact(codec: Codec, req: Request, messages: seq<ChatMessage>, entries: seq<Entry>,
                      threshold: int, keepTailBytes: int) returns (out: seq<Entry>)
    ensures Compacts(codec, req, messages, entries, threshold, keepTailBytes, out)
  {
    var total := CountBytes(codec, entries);
    var tail := if keepTailBytes <= 0 then KEEP_TAIL_BYTES else keepTailBytes;
    var firstKept := FindCut(codec, entries, total, tail);
    CutDependsOnTail(codec, entries, tail, keepTailBytes, firstKept);
    out := entries;
    var last := LastNamed(entries);
    if threshold > 0 && total > threshold && |entries| >= 3 && firstKept.Some? && last.Some? {
      var compaction := MakeCompaction(codec, req, messages, entries, entries[firstKept.value].id, last.value, total, tail);
      out := entries + [compaction];
    }
    assert CompactsAt(codec, req, messages, entries, threshold, keepTailBytes, firstKept, out);
  }

  method MakeCompaction(codec: Codec, req: Request, messages: seq<ChatMessage>, entries: seq<Entry>,
                        kept: string, last: string, total: nat, tail: int) returns (e: Entry)
    requires total == Bytes(codec, entries) && tail > 0
    ensures e == CompactionEntry(codec, req, messages, entries, kept, last, tail)
  {
    var ids := new UsedIds(NamesIn(entries));
    var id := ids.Unique(CompactionName(req));
    e := Compaction(id, Some(last), Stamp(FinishedAt(messages, req.now), req.now),
      codec.summary(req.source, messages, kept, total, tail), kept, EstimateTokens(total));
  }

  /** The whole migration: build the log, then compact it if it is too large. */
  method BuildMigration(codec: Codec, req: Request, messages: seq<ChatMessage>) returns (lines: seq<Entry>)
    ensures Compacts(codec, req, messages, BaseLog(codec, req, messages).entries, COMPACT_THRESHOLD_BYTES, KEEP_TAIL_BYTES, lines)
  {
    var builder := new Builder(codec, req, messages);
    builder.AddAll(messages);
    lines := MaybeCompact(codec, req, messages, builder.lines, COMPACT_THRESHOLD_BYTES, KEEP_TAIL_BYTES);
  }

  /** In a well-formed log of three lines or more there is always a line to cut at. */
  lemma CutExists(codec: Codec, entries: seq<Entry>, keepTailBytes: int, cut: Option<nat>)
    requires WellFormed(entries) && |entries| >= 3
    requires CutOf(codec, entries, keepTailBytes, cut)
    ensures cut.Some? && LastNamed(entries).Some?
  {
    FirstMessageIsNoToolResult(entries);
    assert Starts(Infos(codec, entries)[1]);
  }

  lemma {:induction false} BytesGrow(codec: Codec, entries: seq<Entry>, n: nat)
    requires n <= |entries|
    ensures Bytes(codec, entries[..n]) <= Bytes(codec, entries)
  {
    if n < |entries| {
      assert entries[..|entries| - 1][..n] == entries[..n];
      BytesGrow(codec, entries[..|entries| - 1], n);
    } else {
      assert entries[..n] == entries;
    }
  }

  predicate IsStartingLine(e: Entry) {
    e.Message? && e.id != "" && !e.message.PiToolResult?
  }

  lemma {:induction false} OnlyLastInTail(infos: seq<LineInfo>, target: int, cut: Option<nat>)
    requires infos != [] && (forall i :: 0 <= i < |infos| - 1 ==> !InTail(infos[i], target))
    requires InTail(infos[|infos| - 1], target) && Starts(infos[|infos| - 1]) && IsCut(infos, target, cut)
    ensures cut == Some(|infos| - 1)
  {
    hide InTail, Starts;
  }

  /** A last line that fills the tail to keep on its own is where the cut falls, unless it is a tool result. */
  lemma {:induction false} LongLastLineIsCut(codec: Codec, entries: seq<Entry>, cut: Option<nat>)
    requires entries != [] && IsStartingLine(entries[|entries| - 1])
    requires codec.lineBytes(entries[|entries| - 1]) >= KEEP_TAIL_BYTES && CutOf(codec, entries, KEEP_TAIL_BYTES, cut)
    ensures cut == Some(|entries| - 1)
  {
    LastLineStarts(codec, entries);
    hide IsCut, IsStartingLine, Starts, Bytes, Infos, InTail;
    TailIsLast(codec, entries, Bytes(codec, entries) - KEEP_TAIL_BYTES);
    OnlyLastInTail(Infos(codec, entries), Bytes(codec, entries) - KEEP_TAIL_BYTES, cut);
  }

  lemma {:induction false} TailIsLast(codec: Codec, entries: seq<Entry>, target: int)
    requires entries != [] && Starts(Infos(codec, entries)[|entries| - 1])
    requires Infos(codec, entries)[|entries| - 1].byteEnd == Bytes(codec, entries)
    requires Bytes(codec, entries) - codec.lineBytes(entries[|entries| - 1]) <= target <= Bytes(codec, entries)
    ensures InTail(Infos(codec, entries)[|entries| - 1], target)
    ensures forall i :: 0 <= i < |entries| - 1 ==> !InTail(Infos(codec, entries)[i], target)
  {
    hide Bytes, Infos;
    forall i | 0 <= i < |entries| - 1 ensures !InTail(Infos(codec, entries)[i], target) { EarlierLineEnds(codec, entries, i); }
  }

  lemma {:induction false} LastLineStarts(codec: Codec, entries: seq<Entry>)
    requires entries != [] && IsStartingLine(entries[|entries| - 1])
    ensures var info := Infos(codec, entries)[|entries| - 1]; Starts(info) && info.byteEnd == Bytes(codec, entries)
  {
    assert entries[..|entries|] == entries;
    hide Bytes;
  }

  lemma {:induction false} EarlierLineEnds(codec: Codec, entries: seq<Entry>, i: nat)
    requires i < |entries| - 1
    ensures Infos(codec, entries)[i].byteEnd < Bytes(codec, entries) - codec.lineBytes(entries[|entries| - 1])
  {
    var init := entries[..|entries| - 1];
    assert Bytes(codec, entries) == Bytes(codec, init) + codec.lineBytes(entries[|entries| - 1]) + 1;
    assert init[..i + 1] == entries[..i + 1];
    hide Bytes;
    BytesGrow(codec, init, i + 1);
  }

  /**
   * An oversized migrated log is always compacted: its lines stay as they are, exactly one line follows,
   * that line has a name of its own and hangs on the last entry; any other log is left alone.
   */
  lemma OversizedLogIsCompacted(codec: Codec, req: Request, messages: seq<ChatMessage>, out: seq<Entry>)
    requires Compacts(codec, req, messages, BaseLog(codec, req, messages).entries, COMPACT_THRESHOLD_BYTES, KEEP_TAIL_BYTES, out)
    ensures var base := BaseLog(codec, req, messages).entries;
      if Bytes(codec, base) > COMPACT_THRESHOLD_BYTES && |base| >= 3 then
        && |out| == |base| + 1 && out[..|base|] == base && out[|base|].Compaction?
        && (exists k: nat :: k < |base| && CutOf(codec, base, KEEP_TAIL_BYTES, Some(k)) && out[|base|].firstKeptEntryId == base[k].id)
        && out[|base|].parentId == Some(base[|base| - 1].id)
      else out == base
    ensures DistinctIds(out)
  {
    MigratedLogIsWellFormed(codec, req, messages);
    var base := BaseLog(codec, req, messages).entries;
    var cut :| CompactsAt(codec, req, messages, base, COMPACT_THRESHOLD_BYTES, KEEP_TAIL_BYTES, cut, out);
    CompactedLog(codec, req, messages, base, cut, out);
    hide BaseLog, CutOf, Bytes, IsCompacted;
  }

  lemma CompactedLog(codec: Codec, req: Request, messages: seq<ChatMessage>, base: seq<Entry>, cut: Option<nat>, out: seq<Entry>)
    requires WellFormed(base)
    requires CompactsAt(codec, req, messages, base, COMPACT_THRESHOLD_BYTES, KEEP_TAIL_BYTES, cut, out)
    ensures
      if Bytes(codec, base) > COMPACT_THRESHOLD_BYTES && |base| >= 3 then
        && cut.Some? && LastNamed(base) == Some(base[|base| - 1].id)
        && out == base + [CompactionEntry(codec, req, messages, base, base[cut.value].id, LastNamed(base).value, KEEP_TAIL_BYTES)]
      else out == base
    ensures DistinctIds(out)
  {
    hide CutOf, UniqueId, CompactionName, FinishedAt;
    if Oversized(codec, base, COMPACT_THRESHOLD_BYTES) {
      CutExists(codec, base, KEEP_TAIL_BYTES, cut);
      UniqueIdIsFresh(NamesIn(base), CompactionName(req));
      assert LastNamed(base) == Some(base[|base| - 1].id);
      NewNameKeepsDistinct(base, out[|base|]);
    }
  }

  /** The time of the last message that has one; now if none has. */
  ghost predicate LastTime(messages: seq<ChatMessage>, now: int, time: int) {
    if forall i :: 0 <= i < |messages| ==> messages[i].createdAt <= 0 then time == now
    else exists i :: 0 <= i < |messages| && messages[i].createdAt == time > 0 && forall j :: i < j < |messages| ==> messages[j].createdAt <= 0
  }

  lemma {:induction false} FinishesAtLastTime(messages: seq<ChatMessage>, now: int)
    ensures LastTime(messages, now, FinishedAt(messages, now))
  {
    if messages != [] && messages[|messages| - 1].createdAt <= 0 { FinishesAtLastTime(messages[..|messages| - 1], now); }
  }

  /** How a thread's name goes into the name of a compaction line. */
  ghost predicate Sanitizes(thread: string, name: string) {
    var trimmed := TrimSpace(thread);
    if trimmed == "" then name == "session"
    else
      |name| == |trimmed| && forall i :: 0 <= i < |name| ==>
        var c := trimmed[i];
        name[i] == if IsDigit(c) || 'a' <= c <= 'z' || 'A' <= c <= 'Z' || c == '-' || c == '_' then c else '_'
  }

  lemma SanitizedName(req: Request) returns (name: string)
    ensures Sanitizes(req.threadId, name) && CompactionName(req) == "migration_compaction_" + name
    ensures CompactionName(req) != "" && Trimmed(CompactionName(req))
  {
    name := SanitizeId(req.threadId);
    hide TrimSpace;
    assert name != "" && !IsSpace(name[|name| - 1]);
  }

  /**
   * The line of a compacted log tells when the chat ended, how many tokens it comes to at four bytes each, rounded up, and
   * the summary; it is named after the thread, with a repetition mark if that name is taken.
   */
  lemma CompactionTells(codec: Codec, req: Request, messages: seq<ChatMessage>, out: seq<Entry>)
    requires req.now > 0
    requires Compacts(codec, req, messages, BaseLog(codec, req, messages).entries, COMPACT_THRESHOLD_BYTES, KEEP_TAIL_BYTES, out)
    ensures var base := BaseLog(codec, req, messages).entries; var total := Bytes(codec, base);
      out != base ==>
        && |out| == |base| + 1 && out[|base|].Compaction?
        && var e := out[|base|];
           && LastTime(messages, req.now, e.timestamp) && total <= 4 * e.tokensBefore < total + 4
           && e.summary == codec.summary(req.source, messages, e.firstKeptEntryId, total, 65_536)
           && exists name :: Sanitizes(req.threadId, name) && ("migration_compaction_" + name <= e.id)
                && ("migration_compaction_" + name !in Ids(base) ==> e.id == "migration_compaction_" + name)
  {
    MigratedLogIsWellFormed(codec, req, messages);
    var base := BaseLog(codec, req, messages).entries;
    var cut :| CompactsAt(codec, req, messages, base, COMPACT_THRESHOLD_BYTES, KEEP_TAIL_BYTES, cut, out);
    CompactedLog(codec, req, messages, base, cut, out);
    FinishesAtLastTime(messages, req.now);
    var name := SanitizedName(req);
    UniqueIdKeepsName(NamesIn(base), CompactionName(req));
    hide BaseLog, CutOf, Bytes, IsCompacted, LastTime, FinishedAt, UniqueId, Sanitizes, CompactionName, WellFormed;
    if out != base {
      TimeIsPositive(messages, req.now, FinishedAt(messages, req.now));
    }
  }

  lemma TimeIsPositive(messages: seq<ChatMessage>, now: int, time: int)
    requires LastTime(messages, now, time) && now > 0
    ensures time > 0
  {
  }

  lemma NewNameKeepsDistinct(entries: seq<Entry>, e: Entry)
    requires DistinctIds(entries)
    requires e.id !in Ids(entries) && e.id != "" && Trimmed(e.id)
    ensures DistinctIds(entries + [e])
  {
    assert forall i :: 0 <= i < |entries| ==> entries[i].id in Ids(entries);
  }

  predicate UserLineFrom(codec: Codec, entries: seq<Entry>, i: nat, target: int)
    requires i < |entries|
  {
    && entries[i].Message? && entries[i].message.PiUser? && entries[i].id != ""
    && Bytes(codec, entries[..i + 1]) >= target
  }

  /**
   * Where the cut falls: at a message that is no tool result. If any such message ends at or after the target
   * byte, what follows the chosen line is at most the tail to keep, and if a user message does, it is the first.
   */
  lemma {:induction false} CutIsSafe(codec: Codec, entries: seq<Entry>, keepTailBytes: int, cut: Option<nat>)
    requires CutOf(codec, entries, keepTailBytes, cut) && cut.Some? && cut.value < |entries|
    ensures var k := cut.value; var target := Bytes(codec, entries) - TailBytes(keepTailBytes);
      && entries[k].Message? && !entries[k].message.PiToolResult? && entries[k].id != ""
      && ((exists i :: 0 <= i < |entries| && Starts(Infos(codec, entries)[i]) && Bytes(codec, entries[..i + 1]) >= target) ==>
            Bytes(codec, entries) - Bytes(codec, entries[..k + 1]) <= TailBytes(keepTailBytes))
      && (forall i :: 0 <= i < |entries| && UserLineFrom(codec, entries, i, target) ==>
            k <= i && entries[k].message.PiUser?)
  {
    var infos := Infos(codec, entries);
    var target := Bytes(codec, entries) - TailBytes(keepTailBytes);
    hide Bytes, TailBytes;
    forall i | 0 <= i < |entries| && UserLineFrom(codec, entries, i, target)
      ensures cut.value <= i && entries[cut.value].message.PiUser?
    {
      assert InTail(infos[i], target) && infos[i].role == UserLine;
    }
  }
}
