/** Per-organisation usage tables and the analytics index kept beside them (internal/state/usage_store.go). */
module UsageStore {
  import opened Prelude
  import opened Text
  import opened NameOrder

  /* Tables */

  /** A spend limit over a rolling window; the window is a duration in nanoseconds. */
  datatype Limit = Limit(window: int, limitUSD: real, tag: string)

  const HOUR: int := 3600 * 1000 * 1000 * 1000

  const DEFAULT_LIMITS: seq<Limit> := [Limit(5 * HOUR, 25.0, "5h"), Limit(7 * 24 * HOUR, 100.0, "7d")]

  /** `Duration.Milliseconds`, which truncates toward zero. */
  function Milliseconds(window: int): int {
    if window >= 0 then window / 1_000_000 else -(-window / 1_000_000)
  }

  datatype Usage = Usage(workspaceId: string, userId: string, threadId: string, model: string, provider: string,
                         inputTokens: int, outputTokens: int, cacheCreationTokens: int, cacheReadTokens: int,
                         cost: real, durationMs: int)

  /** A row of an organisation's usage log; its id is its position, counted from one. */
  datatype LogRow = LogRow(usage: Usage, billingSource: string, chargeable: bool, createdAt: int)

  /** One organisation's database: its log, its running totals, and its own limits (none means the default ones). */
  datatype OrgDb = OrgDb(log: seq<LogRow>, totalCost: real, inputTokens: int, outputTokens: int,
                         cacheCreationTokens: int, cacheReadTokens: int, totalRequests: int, limits: seq<Limit>)

  const EMPTY_DB := OrgDb([], 0.0, 0, 0, 0, 0, 0, [])

  datatype Rollup = Rollup(totalCost: real, totalRequests: int)

  datatype IndexEvent = IndexEvent(orgId: string, usage: Usage, createdAt: int)

  datatype LimitRow = LimitRow(orgId: string, windowMs: int, limitUSD: real, tag: string)

  /** The analytics index over all organisations. */
  datatype Index = Index(rollups: map<string, Rollup>, events: seq<IndexEvent>, limits: seq<LimitRow>)

  const EMPTY_INDEX := Index(map[], [], [])

  datatype State = State(orgs: map<string, OrgDb>, index: Index)

  function Effective(limits: seq<Limit>): seq<Limit> {
    if limits == [] then DEFAULT_LIMITS else limits
  }

  function RowFor(orgId: string, limit: Limit): LimitRow {
    LimitRow(orgId, Milliseconds(limit.window), limit.limitUSD, limit.tag)
  }

  function LimitRows(orgId: string, limits: seq<Limit>): seq<LimitRow> {
    seq(|limits|, i requires 0 <= i < |limits| => RowFor(orgId, limits[i]))
  }

  function IndexEvents(orgId: string, log: seq<LogRow>): seq<IndexEvent> {
    seq(|log|, i requires 0 <= i < |log| => IndexEvent(orgId, log[i].usage, log[i].createdAt))
  }

  /** The primary key of the limits table: an organisation has at most one row for a label. */
  predicate DistinctLabels(limits: seq<Limit>) {
    forall i, j :: 0 <= i < j < |limits| ==> limits[i].tag != limits[j].tag
  }

  function RowsOf(rows: seq<LimitRow>, orgId: string): seq<LimitRow> {
    if rows == [] then []
    else RowsOf(rows[..|rows| - 1], orgId) + if rows[|rows| - 1].orgId == orgId then [rows[|rows| - 1]] else []
  }

  function Without(rows: seq<LimitRow>, orgId: string): seq<LimitRow> {
    if rows == [] then []
    else Without(rows[..|rows| - 1], orgId) + if rows[|rows| - 1].orgId == orgId then [] else [rows[|rows| - 1]]
  }

  function EventsOf(events: seq<IndexEvent>, orgId: string): seq<IndexEvent> {
    if events == [] then []
    else EventsOf(events[..|events| - 1], orgId) + if events[|events| - 1].orgId == orgId then [events[|events| - 1]] else []
  }

  function TotalsOf(index: Index, orgId: string): Rollup {
    if orgId in index.rollups then index.rollups[orgId] else Rollup(0.0, 0)
  }

  /* Operations */

  /** What can happen to the store. `synced` tells whether the write to the index went through. */
  datatype Op =
    | Open(orgId: string)
    | Record(orgId: string, row: LogRow, synced: bool)
    | SetLimits(orgId: string, limits: seq<Limit>, synced: bool)

  function Opened(orgs: map<string, OrgDb>, orgId: string): (after: map<string, OrgDb>)
    ensures orgId in after
  {
    if orgId in orgs then orgs else orgs[orgId := EMPTY_DB]
  }

  function AddToDb(db: OrgDb, row: LogRow): OrgDb {
    var u := row.usage;
    db.(log := db.log + [row],
        totalCost := db.totalCost + u.cost,
        inputTokens := db.inputTokens + u.inputTokens,
        outputTokens := db.outputTokens + u.outputTokens,
        cacheCreationTokens := db.cacheCreationTokens + u.cacheCreationTokens,
        cacheReadTokens := db.cacheReadTokens + u.cacheReadTokens,
        totalRequests := db.totalRequests + 1)
  }

  function AddToIndex(index: Index, orgId: string, row: LogRow): Index {
    var totals := TotalsOf(index, orgId);
    Index(
      index.rollups[orgId := Rollup(totals.totalCost + row.usage.cost, totals.totalRequests + 1)],
      index.events + [IndexEvent(orgId, row.usage, row.createdAt)],
      if RowsOf(index.limits, orgId) != [] then index.limits else index.limits + LimitRows(orgId, DEFAULT_LIMITS))
  }

  function ReplaceLimits(index: Index, orgId: string, limits: seq<Limit>): Index {
    if !DistinctLabels(limits) then index
    else index.(limits := Without(index.limits, orgId) + LimitRows(orgId, limits))
  }

  function Apply(s: State, op: Op): State {
    var orgs := Opened(s.orgs, op.orgId);
    match op
    case Open(_) => s.(orgs := orgs)
    case Record(o, row, synced) =>
      State(orgs[o := AddToDb(orgs[o], row)], if synced then AddToIndex(s.index, o, row) else s.index)
    case SetLimits(o, limits, synced) =>
      State(orgs[o := orgs[o].(limits := limits)], if synced then ReplaceLimits(s.index, o, Effective(limits)) else s.index)
  }

  /** Whether the index write of an operation succeeds: it got through and did not clash with the primary key. */
  predicate Succeeds(op: Op) {
    match op
    case Open(_) => true
    case Record(_, _, synced) => synced
    case SetLimits(_, limits, synced) => synced && DistinctLabels(Effective(limits))
  }

  function Run(s: State, ops: seq<Op>): State {
    if ops == [] then s else Apply(Run(s, ops[..|ops| - 1]), ops[|ops| - 1])
  }

  /* Rebuilding the index */

  /** Names that the listing of the base directory shows: one directory level, and not the index's own. */
  predicate Listed(orgId: string) {
    orgId != "" && orgId != "." && orgId != ".." && '/' !in orgId && orgId != "_analytics"
  }

  ghost predicate IsListing(orgs: map<string, OrgDb>, ids: seq<string>) {
    Distinct(ids) && forall o :: o in ids <==> o in orgs && Listed(o)
  }

  function AddOrg(index: Index, orgId: string, db: OrgDb): Index {
    Index(index.rollups[orgId := Rollup(db.totalCost, db.totalRequests)],
          index.events + IndexEvents(orgId, db.log),
          index.limits + LimitRows(orgId, Effective(db.limits)))
  }

  function Build(orgs: map<string, OrgDb>, ids: seq<string>): Index
    requires forall o :: o in ids ==> o in orgs
  {
    if ids == [] then EMPTY_INDEX
    else AddOrg(Build(orgs, ids[..|ids| - 1]), ids[|ids| - 1], orgs[ids[|ids| - 1]])
  }

  predicate CleanLabels(orgs: map<string, OrgDb>, ids: seq<string>)
    requires forall o :: o in ids ==> o in orgs
  {
    forall i :: 0 <= i < |ids| ==> DistinctLabels(Effective(orgs[ids[i]].limits))
  }

  /** The index after a rebuild; one that runs into a key clash is rolled back. */
  function Rebuilt(s: State, ids: seq<string>): Index
    requires forall o :: o in ids ==> o in s.orgs
  {
    if CleanLabels(s.orgs, ids) then Build(s.orgs, ids) else s.index
  }

  /* Queries on the index */

  function SpentSince(events: seq<IndexEvent>, orgId: string, cutoff: int): real {
    if events == [] then 0.0
    else
      var e := events[|events| - 1];
      SpentSince(events[..|events| - 1], orgId, cutoff) + if e.orgId == orgId && e.createdAt >= cutoff then e.usage.cost else 0.0
  }

  datatype WindowSpend = WindowSpend(tag: string, windowMs: int, limitUSD: real, spentUSD: real, exceeded: bool)

  type Windows = multiset<WindowSpend>

  datatype AnalyticsRow = AnalyticsRow(orgId: string, totalCost: real, totalRequests: int, spend7d: real, spend30d: real,
                                       windows: Windows)

  /** A row of the answer as it is sent out, its windows in order. */
  datatype AnalyticsItem = AnalyticsItem(orgId: string, totalCost: real, totalRequests: int, spend7d: real, spend30d: real,
                                         windows: seq<WindowSpend>)

  function RowOf(item: AnalyticsItem): AnalyticsRow {
    AnalyticsRow(item.orgId, item.totalCost, item.totalRequests, item.spend7d, item.spend30d, multiset(item.windows))
  }

  predicate ByLength(windows: seq<WindowSpend>) {
    forall i, j :: 0 <= i < j < |windows| ==> windows[i].windowMs <= windows[j].windowMs
  }

  function Window(events: seq<IndexEvent>, row: LimitRow, now: int): WindowSpend {
    var spent := SpentSince(events, row.orgId, now - row.windowMs);
    WindowSpend(row.tag, row.windowMs, row.limitUSD, spent, spent >= row.limitUSD)
  }

  function WindowsOf(events: seq<IndexEvent>, rows: seq<LimitRow>, now: int): Windows {
    if rows == [] then multiset{}
    else WindowsOf(events, rows[..|rows| - 1], now) + multiset{Window(events, rows[|rows| - 1], now)}
  }

  /** So many copies of each window. */
  function Copies(windows: Windows, n: nat): Windows {
    if n == 0 then multiset{} else Copies(windows, n - 1) + windows
  }

  /** What a request adds for an organisation without limit rows that it names `n` times. */
  function IfNone(rows: seq<LimitRow>, orgId: string, windows: Windows, n: nat): Windows {
    if RowsOf(rows, orgId) != [] then multiset{} else Copies(windows, n)
  }

  function DefaultWindows(index: Index, orgId: string, now: int): Windows {
    WindowsOf(index.events, LimitRows(orgId, DEFAULT_LIMITS), now)
  }

  /** The windows of an organisation that the request names `n` times: without rows, the default ones come once per mention. */
  function AnalyticsWindows(index: Index, orgId: string, n: nat, now: int): Windows {
    WindowsOf(index.events, RowsOf(index.limits, orgId), now) + IfNone(index.limits, orgId, DefaultWindows(index, orgId, now), n)
  }

  const DAY_MS: int := 24 * 3600 * 1000

  function Answer(index: Index, orgId: string, n: nat, includeWindows: bool, now: int): AnalyticsRow {
    var t := TotalsOf(index, orgId);
    AnalyticsRow(orgId, t.totalCost, t.totalRequests,
      SpentSince(index.events, orgId, now - 7 * DAY_MS), SpentSince(index.events, orgId, now - 30 * DAY_MS),
      if includeWindows then AnalyticsWindows(index, orgId, n, now) else multiset{})
  }

  function Answers(index: Index, orgIds: seq<string>, includeWindows: bool, now: int): seq<AnalyticsRow> {
    seq(|orgIds|, i requires 0 <= i < |orgIds| => Answer(index, orgIds[i], multiset(orgIds)[orgIds[i]], includeWindows, now))
  }

  const SPAM_LIMIT := 0.01

  predicate IsSpam(index: Index, orgId: string) {
    var rows := RowsOf(index.limits, orgId);
    rows != [] && forall i :: 0 <= i < |rows| ==> rows[i].limitUSD <= SPAM_LIMIT
  }

  function SpamOrgs(index: Index): set<string> {
    set i | 0 <= i < |index.limits| && IsSpam(index, index.limits[i].orgId) :: index.limits[i].orgId
  }

  /* The store as an object */

  class Store {
    var orgs: map<string, OrgDb>
    var rollups: map<string, Rollup>
    var events: seq<IndexEvent>
    var limits: seq<LimitRow>

    ghost function Contents(): State
      reads this
    {
      State(orgs, Index(rollups, events, limits))
    }

    constructor ()
      ensures Contents() == State(map[], EMPTY_INDEX)
    {
      orgs, rollups, events, limits := map[], map[], [], [];
    }

    method GetDb(orgId: string)
      modifies this`orgs
      ensures Contents() == Apply(old(Contents()), Open(orgId))
    {
      if orgId !in orgs {
        orgs := orgs[orgId := EMPTY_DB];
      }
    }

    method RecordUsage(orgId: string, usage: Usage, billingSource: string, chargeable: bool, now: int, synced: bool)
      modifies this
      ensures var source := if TrimSpace(billingSource) == "" then "hosted" else TrimSpace(billingSource);
        Contents() == Apply(old(Contents()), Record(orgId, LogRow(usage, source, chargeable, now), synced))
    {
      GetDb(orgId);
      var source := TrimSpace(billingSource);
      if source == "" {
        source := "hosted";
      }
      var row := LogRow(usage, source, chargeable, now);
      orgs := orgs[orgId := AddToDb(orgs[orgId], row)];
      if synced {
        RecordAnalyticsUsage(orgId, row);
      }
    }

    method RecordAnalyticsUsage(orgId: string, row: LogRow)
      modifies this`rollups, this`events, this`limits
      ensures Contents().index == AddToIndex(old(Contents().index), orgId, row)
    {
      events := events + [IndexEvent(orgId, row.usage, row.createdAt)];
      if orgId in rollups {
        rollups := rollups[orgId := Rollup(rollups[orgId].totalCost + row.usage.cost, rollups[orgId].totalRequests + 1)];
      } else {
        rollups := rollups[orgId := Rollup(row.usage.cost, 1)];
      }
      if |RowsOf(limits, orgId)| > 0 { return; }
      InsertLimits(orgId, DEFAULT_LIMITS);
    }

    method InsertLimits(orgId: string, more: seq<Limit>)
      modifies this`limits
      ensures limits == old(limits) + LimitRows(orgId, more)
    {
      var i := 0;
      while i < |more|
        invariant i <= |more|
        invariant limits == old(limits) + LimitRows(orgId, more)[..i]
      {
        limits := limits + [RowFor(orgId, more[i])];
        i := i + 1;
      }
    }

    method SetSpendLimits(orgId: string, newLimits: seq<Limit>, synced: bool)
      modifies this
      ensures Contents() == Apply(old(Contents()), SetLimits(orgId, newLimits, synced))
    {
      GetDb(orgId);
      orgs := orgs[orgId := orgs[orgId].(limits := newLimits)];
      var effective := DEFAULT_LIMITS;
      if |newLimits| > 0 {
        effective := newLimits;
      }
      if synced {
        ReplaceEffectiveLimits(orgId, effective);
      }
    }

    method ReplaceEffectiveLimits(orgId: string, more: seq<Limit>)
      modifies this`limits
      ensures Contents().index == ReplaceLimits(old(Contents().index), orgId, more)
    {
      if !DistinctLabels(more) { return; }
      limits := Without(limits, orgId);
      InsertLimits(orgId, more);
    }

    method AddOrgToIndex(o: string)
      requires o in orgs
      modifies this`rollups, this`events, this`limits
      ensures Contents().index == AddOrg(old(Contents().index), o, orgs[o])
    {
      rollups := rollups[o := Rollup(orgs[o].totalCost, orgs[o].totalRequests)];
      events := events + IndexEvents(o, orgs[o].log);
      InsertLimits(o, Effective(orgs[o].limits));
    }

    method RebuildAnalyticsIndex(ids: seq<string>) returns (ok: bool)
      requires IsListing(orgs, ids)
      modifies this`rollups, this`events, this`limits
      ensures Contents() == old(Contents()).(index := Rebuilt(old(Contents()), ids))
      ensures ok == CleanLabels(orgs, ids)
      ensures !ok ==> Contents() == old(Contents())
    {
      hide Build, AddOrg, DistinctLabels, Effective;
      var before := Index(rollups, events, limits);
      rollups, events, limits := map[], [], [];
      BuildNothing(orgs);
      var i := 0;
      while i < |ids|
        invariant i <= |ids|
        invariant Index(rollups, events, limits) == Build(orgs, ids[..i])
        invariant CleanLabels(orgs, ids[..i])
      {
        BuildOneMore(orgs, ids, i);
        if !DistinctLabels(Effective(orgs[ids[i]].limits)) {
          rollups, events, limits := before.rollups, before.events, before.limits;
          return false;
        }
        AddOrgToIndex(ids[i]);
        i := i + 1;
      }
      assert ids[..i] == ids;
      ok := true;
    }

    method ListSpamOrgIds() returns (spam: seq<string>)
      ensures SortedNames(spam)
      ensures (set o | o in spam) == SpamOrgs(Contents().index)
    {
      var found: set<string> := {};
      var i := 0;
      while i < |limits|
        invariant i <= |limits|
        invariant found == set k | 0 <= k < i && IsSpam(Index(rollups, events, limits), limits[k].orgId) :: limits[k].orgId
      {
        if IsSpam(Index(rollups, events, limits), limits[i].orgId) {
          found := found + {limits[i].orgId};
        }
        i := i + 1;
      }
      spam := SortNames(found);
    }

    /** Appends the stored windows, then the default ones once for every request item that has no stored rows. */
    method LoadWindows(orgIds: seq<string>, now: int) returns (windows: map<string, seq<WindowSpend>>)
      ensures windows.Keys == (set o | o in orgIds)
      ensures forall o :: o in orgIds ==> multiset(windows[o]) == AnalyticsWindows(Contents().index, o, multiset(orgIds)[o], now)
      ensures AllByLength(windows)
    {
      hide Stored, Added, AnalyticsWindows, AllByLength, Below;
      var stored := LoadStoredWindows(orgIds, now);
      NothingToExceed(stored, events, limits, now);
      DefaultsGrow();
      windows := AppendDefaults(orgIds, now, DEFAULT_LIMITS, stored);
      AllWindows(Bags(windows), Bags(stored), Contents().index, orgIds, now);
    }

    /** The query hands the rows of an organisation over in the order of their lengths. */
    method LoadStoredWindows(orgIds: seq<string>, now: int) returns (windows: map<string, seq<WindowSpend>>)
      ensures windows.Keys == (set o | o in orgIds)
      ensures Stored(Bags(windows), events, limits, now) && AllByLength(windows)
    {
      hide Stored, Window, AllByLength;
      windows := map o | o in orgIds :: [];
      assert AllByLength(windows) by { EmptyByLength(windows); }
      NothingStored(Bags(windows), events, now);
      var i := 0;
      while i < |limits|
        invariant i <= |limits|
        invariant windows.Keys == (set o | o in orgIds)
        invariant Stored(Bags(windows), events, limits[..i], now) && AllByLength(windows)
      {
        var row := limits[i];
        StoredOneMore(Bags(windows), events, limits[..i], row, now);
        assert limits[..i + 1] == limits[..i] + [row];
        if row.orgId in windows {
          OneByLength(windows, row.orgId);
          var list := InsertByLength(windows[row.orgId], Window(events, row, now));
          BagsUpdate(windows, row.orgId, list);
          ByLengthUpdate(windows, row.orgId, list);
          windows := windows[row.orgId := list];
        }
        i := i + 1;
      }
      assert limits[..i] == limits;
    }

    method AppendDefaults(orgIds: seq<string>, now: int, defaults: seq<Limit>, stored: map<string, seq<WindowSpend>>)
      returns (windows: map<string, seq<WindowSpend>>)
      requires forall o :: o in orgIds ==> o in stored
      requires AllByLength(stored) && Growing(defaults) && (defaults != [] ==> Below(stored, limits, defaults[0]))
      ensures Added(Bags(windows), Bags(stored), limits, orgIds, events, defaults, now)
      ensures windows.Keys == stored.Keys && AllByLength(windows)
    {
      hide Added, AllByLength, Below, Milliseconds;
      windows := stored;
      NothingAdded(Bags(windows), limits, orgIds, events, now);
      var k := 0;
      while k < |defaults|
        invariant k <= |defaults|
        invariant windows.Keys == stored.Keys && AllByLength(windows)
        invariant k < |defaults| ==> Below(windows, limits, defaults[k])
        invariant Added(Bags(windows), Bags(stored), limits, orgIds, events, defaults[..k], now)
      {
        ghost var before := windows;
        windows := AppendDefault(orgIds, now, defaults[k], windows);
        AddedCompose(Bags(before), Bags(windows), Bags(stored), limits, orgIds, events, defaults[..k], defaults[k], now);
        assert defaults[..k + 1] == defaults[..k] + [defaults[k]];
        if k + 1 < |defaults| { BelowNext(windows, limits, defaults[k], defaults[k + 1]); }
        k := k + 1;
      }
      assert defaults[..k] == defaults;
    }

    method AppendDefault(orgIds: seq<string>, now: int, limit: Limit, before: map<string, seq<WindowSpend>>)
      returns (windows: map<string, seq<WindowSpend>>)
      requires forall o :: o in orgIds ==> o in before
      requires AllByLength(before) && Below(before, limits, limit)
      ensures windows.Keys == before.Keys
      ensures Added(Bags(windows), Bags(before), limits, orgIds, events, [limit], now)
      ensures AllByLength(windows) && Below(windows, limits, limit)
    {
      hide Added, AllByLength, Below, RowsOf, Milliseconds;
      windows := before;
      var i := 0;
      NothingAddedYet(Bags(before), limits, events, [limit], now);
      while i < |orgIds|
        invariant i <= |orgIds|
        invariant windows.Keys == before.Keys && AllByLength(windows) && Below(windows, limits, limit)
        invariant Added(Bags(windows), Bags(before), limits, orgIds[..i], events, [limit], now)
      {
        var o := orgIds[i];
        assert orgIds[..i + 1] == orgIds[..i] + [o];
        AddedOneMore(Bags(windows), Bags(before), limits, orgIds[..i], o, events, limit, now);
        if |RowsOf(limits, o)| == 0 {
          var w := Window(events, RowFor(o, limit), now);
          LongestLast(windows, limits, o, limit, w);
          BagsUpdate(windows, o, windows[o] + [w]);
          windows := windows[o := windows[o] + [w]];
        }
        i := i + 1;
      }
      assert orgIds[..i] == orgIds;
    }

    method GetOrgUsageAnalytics(orgIds: seq<string>, includeWindows: bool, now: int) returns (items: seq<AnalyticsItem>)
      ensures |items| == |orgIds|
      ensures forall i :: 0 <= i < |orgIds| ==>
        RowOf(items[i]) == Answers(Contents().index, orgIds, includeWindows, now)[i] && ByLength(items[i].windows)
    {
      hide AnalyticsWindows, SpentSince, ByLength, AllByLength;
      items := [];
      if |orgIds| == 0 { return; }
      var windows: map<string, seq<WindowSpend>> := map o | o in orgIds :: [];
      assert AllByLength(windows) by { EmptyByLength(windows); }
      if includeWindows {
        windows := LoadWindows(orgIds, now);
      }
      var i := 0;
      while i < |orgIds|
        invariant i <= |orgIds| && |items| == i
        invariant forall k :: 0 <= k < i ==>
          RowOf(items[k]) == Answers(Contents().index, orgIds, includeWindows, now)[k] && ByLength(items[k].windows)
      {
        var o := orgIds[i];
        OneByLength(windows, o);
        var item := AnalyticsItem(o, 0.0, 0, 0.0, 0.0, windows[o]);
        if o in rollups {
          item := item.(totalCost := rollups[o].totalCost, totalRequests := rollups[o].totalRequests);
        }
        item := item.(spend7d := SpentSince(events, o, now - 7 * DAY_MS), spend30d := SpentSince(events, o, now - 30 * DAY_MS));
        items := items + [item];
        i := i + 1;
      }
    }
  }

  /* The order of windows */

  method InsertByLength(windows: seq<WindowSpend>, w: WindowSpend) returns (out: seq<WindowSpend>)
    requires ByLength(windows)
    ensures ByLength(out) && multiset(out) == multiset(windows) + multiset{w}
  {
    var i := |windows|;
    while i > 0 && w.windowMs < windows[i - 1].windowMs
      invariant 0 <= i <= |windows|
      invariant forall j :: i <= j < |windows| ==> w.windowMs < windows[j].windowMs
    {
      i := i - 1;
    }
    out := windows[..i] + [w] + windows[i..];
    InsertedByLength(windows, w, i);
    InsertedIsOneMore(windows, w, i);
  }

  lemma {:induction false} InsertedIsOneMore(windows: seq<WindowSpend>, w: WindowSpend, n: nat)
    requires n <= |windows|
    ensures multiset(windows[..n] + [w] + windows[n..]) == multiset(windows) + multiset{w}
  {
    assert windows == windows[..n] + windows[n..];
  }

  lemma {:induction false} InsertedAt(windows: seq<WindowSpend>, w: WindowSpend, n: nat, i: nat)
    requires n <= |windows| && i <= |windows|
    ensures (windows[..n] + [w] + windows[n..])[i] == if i < n then windows[i] else if i == n then w else windows[i - 1]
  {
  }

  lemma {:induction false} InsertedByLength(windows: seq<WindowSpend>, w: WindowSpend, n: nat)
    requires ByLength(windows) && n <= |windows|
    requires (n > 0 ==> windows[n - 1].windowMs <= w.windowMs) && forall j :: n <= j < |windows| ==> w.windowMs < windows[j].windowMs
    ensures ByLength(windows[..n] + [w] + windows[n..])
  {
    var out := windows[..n] + [w] + windows[n..];
    assert |out| == |windows| + 1;
    forall i: nat, j: nat | i < j < |out| ensures out[i].windowMs <= out[j].windowMs {
      InsertedAt(windows, w, n, i);
      InsertedAt(windows, w, n, j);
    }
  }

  function Bags(lists: map<string, seq<WindowSpend>>): map<string, Windows> {
    map o | o in lists :: multiset(lists[o])
  }

  lemma BagsUpdate(lists: map<string, seq<WindowSpend>>, o: string, list: seq<WindowSpend>)
    ensures Bags(lists[o := list]) == Bags(lists)[o := multiset(list)]
  {
  }

  ghost predicate AllByLength(lists: map<string, seq<WindowSpend>>) {
    forall o :: o in lists ==> ByLength(lists[o])
  }

  lemma EmptyByLength(lists: map<string, seq<WindowSpend>>)
    requires forall o :: o in lists ==> lists[o] == []
    ensures AllByLength(lists)
  {
  }

  lemma OneByLength(lists: map<string, seq<WindowSpend>>, o: string)
    requires AllByLength(lists) && o in lists
    ensures ByLength(lists[o])
  {
  }

  lemma ByLengthUpdate(lists: map<string, seq<WindowSpend>>, o: string, list: seq<WindowSpend>)
    requires AllByLength(lists) && ByLength(list)
    ensures AllByLength(lists[o := list])
  {
    hide ByLength;
  }

  /** No window of an organisation without rows is longer than the limit. */
  ghost predicate Below(lists: map<string, seq<WindowSpend>>, rows: seq<LimitRow>, limit: Limit) {
    forall o, i :: o in lists && RowsOf(rows, o) == [] && 0 <= i < |lists[o]| ==> lists[o][i].windowMs <= Milliseconds(limit.window)
  }

  predicate Growing(limits: seq<Limit>) {
    forall i, j :: 0 <= i < j < |limits| ==> Milliseconds(limits[i].window) <= Milliseconds(limits[j].window)
  }

  lemma DefaultsGrow()
    ensures Growing(DEFAULT_LIMITS)
  {
  }

  lemma NothingToExceed(lists: map<string, seq<WindowSpend>>, events: seq<IndexEvent>, rows: seq<LimitRow>, now: int)
    requires Stored(Bags(lists), events, rows, now)
    ensures Below(lists, rows, DEFAULT_LIMITS[0])
  {
    hide RowsOf;
    forall o | o in lists && RowsOf(rows, o) == [] ensures lists[o] == [] {
      assert Bags(lists)[o] == WindowsOf(events, [], now) == multiset{};
      assert |Bags(lists)[o]| == |lists[o]|;
    }
  }

  lemma BelowNext(lists: map<string, seq<WindowSpend>>, rows: seq<LimitRow>, limit: Limit, next: Limit)
    requires Below(lists, rows, limit) && Milliseconds(limit.window) <= Milliseconds(next.window)
    ensures Below(lists, rows, next)
  {
    hide RowsOf, Milliseconds;
  }

  /** The default window of a limit may stand last where no window is longer. */
  lemma LongestLast(lists: map<string, seq<WindowSpend>>, rows: seq<LimitRow>, o: string, limit: Limit, w: WindowSpend)
    requires AllByLength(lists) && Below(lists, rows, limit) && o in lists && RowsOf(rows, o) == []
    requires w.windowMs == Milliseconds(limit.window)
    ensures AllByLength(lists[o := lists[o] + [w]]) && Below(lists[o := lists[o] + [w]], rows, limit)
  {
    hide RowsOf, Milliseconds;
    OneByLength(lists, o);
    ByLengthUpdate(lists, o, lists[o] + [w]);
  }

  /* Facts about the tables */

  lemma BuildNothing(orgs: map<string, OrgDb>)
    ensures Build(orgs, []) == EMPTY_INDEX
  {
  }

  lemma BuildOneMore(orgs: map<string, OrgDb>, ids: seq<string>, i: nat)
    requires i < |ids| && forall o :: o in ids ==> o in orgs
    ensures Build(orgs, ids[..i + 1]) == AddOrg(Build(orgs, ids[..i]), ids[i], orgs[ids[i]])
  {
    assert ids[..i + 1][..i] == ids[..i];
  }

  lemma RowsOfAppend(rows: seq<LimitRow>, row: LimitRow)
    ensures forall o :: RowsOf(rows + [row], o) == RowsOf(rows, o) + if row.orgId == o then [row] else []
  {
    assert (rows + [row])[..|rows|] == rows;
  }

  lemma WindowsOfAppend(events: seq<IndexEvent>, rows: seq<LimitRow>, row: LimitRow, now: int)
    ensures WindowsOf(events, rows + [row], now) == WindowsOf(events, rows, now) + multiset{Window(events, row, now)}
  {
    assert (rows + [row])[..|rows|] == rows;
  }

  lemma {:induction false} CopiesOfSum(a: Windows, b: Windows, n: nat)
    ensures Copies(a + b, n) == Copies(a, n) + Copies(b, n)
  {
    if n > 0 { CopiesOfSum(a, b, n - 1); }
  }

  lemma DefaultsOneMore(events: seq<IndexEvent>, orgId: string, limits: seq<Limit>, limit: Limit, now: int)
    ensures WindowsOf(events, LimitRows(orgId, limits + [limit]), now) ==
      WindowsOf(events, LimitRows(orgId, limits), now) + multiset{Window(events, RowFor(orgId, limit), now)}
  {
    var more := LimitRows(orgId, limits + [limit]);
    assert more == LimitRows(orgId, limits) + [RowFor(orgId, limit)];
    hide LimitRows, Window, WindowsOf, RowFor;
    WindowsOfAppend(events, LimitRows(orgId, limits), RowFor(orgId, limit), now);
  }

  lemma OneDefault(events: seq<IndexEvent>, orgId: string, limit: Limit, now: int)
    ensures WindowsOf(events, LimitRows(orgId, [limit]), now) == multiset{Window(events, RowFor(orgId, limit), now)}
  {
    DefaultsOneMore(events, orgId, [], limit, now);
    assert [] + [limit] == [limit];
  }

  /* Collecting the windows of a request */

  ghost predicate Stored(windows: map<string, Windows>, events: seq<IndexEvent>, rows: seq<LimitRow>, now: int) {
    forall o :: o in windows ==> windows[o] == WindowsOf(events, RowsOf(rows, o), now)
  }

  lemma NothingStored(windows: map<string, Windows>, events: seq<IndexEvent>, now: int)
    requires forall o :: o in windows ==> windows[o] == multiset{}
    ensures Stored(windows, events, [], now)
  {
  }

  lemma StoredOneMore(windows: map<string, Windows>, events: seq<IndexEvent>, rows: seq<LimitRow>, row: LimitRow, now: int)
    requires Stored(windows, events, rows, now)
    ensures Stored(
      if row.orgId in windows then windows[row.orgId := windows[row.orgId] + multiset{Window(events, row, now)}] else windows,
      events, rows + [row], now)
  {
    RowsOfAppend(rows, row);
    WindowsOfAppend(events, RowsOf(rows, row.orgId), row, now);
    hide RowsOf, WindowsOf, Window;
    assert forall o :: o in windows && o != row.orgId ==> RowsOf(rows + [row], o) == RowsOf(rows, o);
  }

  /** What the default limits add to the windows of an organisation in a request. */
  function Extra(rows: seq<LimitRow>, orgIds: seq<string>, events: seq<IndexEvent>, limits: seq<Limit>, now: int, o: string): Windows {
    IfNone(rows, o, WindowsOf(events, LimitRows(o, limits), now), multiset(orgIds)[o])
  }

  ghost predicate Added(windows: map<string, Windows>, before: map<string, Windows>, rows: seq<LimitRow>, orgIds: seq<string>,
                        events: seq<IndexEvent>, limits: seq<Limit>, now: int)
  {
    windows.Keys == before.Keys && forall o :: o in before ==> windows[o] == before[o] + Extra(rows, orgIds, events, limits, now, o)
  }

  lemma {:induction false} NoCopies(n: nat)
    ensures Copies(multiset{}, n) == multiset{}
  {
    if n > 0 { NoCopies(n - 1); }
  }

  lemma NothingAdded(windows: map<string, Windows>, rows: seq<LimitRow>, orgIds: seq<string>, events: seq<IndexEvent>, now: int)
    ensures Added(windows, windows, rows, orgIds, events, [], now)
  {
    forall o | o in windows ensures Extra(rows, orgIds, events, [], now, o) == multiset{} { NoCopies(multiset(orgIds)[o]); }
  }

  lemma NothingAddedYet(windows: map<string, Windows>, rows: seq<LimitRow>, events: seq<IndexEvent>, limits: seq<Limit>, now: int)
    ensures Added(windows, windows, rows, [], events, limits, now)
  {
  }

  lemma ExtraOneMore(rows: seq<LimitRow>, orgIds: seq<string>, events: seq<IndexEvent>, limit: Limit, now: int, o: string, x: string)
    ensures Extra(rows, orgIds + [o], events, [limit], now, x) == Extra(rows, orgIds, events, [limit], now, x) +
      if x == o && RowsOf(rows, o) == []
      then multiset{Window(events, RowFor(o, limit), now)} else multiset{}
  {
    OneDefault(events, x, limit, now);
    hide RowsOf, WindowsOf, Window, LimitRows, Milliseconds;
  }

  lemma AddedOneMore(windows: map<string, Windows>, before: map<string, Windows>, rows: seq<LimitRow>, orgIds: seq<string>, o: string,
                     events: seq<IndexEvent>, limit: Limit, now: int)
    requires Added(windows, before, rows, orgIds, events, [limit], now) && o in before
    ensures o in windows
    ensures Added(
      if RowsOf(rows, o) != [] then windows
      else windows[o := windows[o] + multiset{Window(events, RowFor(o, limit), now)}],
      before, rows, orgIds + [o], events, [limit], now)
  {
    hide RowsOf, WindowsOf, Window, LimitRows, Milliseconds, Extra;
    forall x { ExtraOneMore(rows, orgIds, events, limit, now, o, x); }
  }

  lemma ExtraCompose(rows: seq<LimitRow>, orgIds: seq<string>, events: seq<IndexEvent>, limits: seq<Limit>, limit: Limit, now: int, o: string)
    ensures Extra(rows, orgIds, events, limits + [limit], now, o) ==
      Extra(rows, orgIds, events, limits, now, o) + Extra(rows, orgIds, events, [limit], now, o)
  {
    DefaultsOneMore(events, o, limits, limit, now);
    OneDefault(events, o, limit, now);
    CopiesOfSum(WindowsOf(events, LimitRows(o, limits), now), WindowsOf(events, LimitRows(o, [limit]), now), multiset(orgIds)[o]);
    hide RowsOf, WindowsOf, Window, LimitRows, Milliseconds, Copies;
  }

  lemma AddedCompose(middle: map<string, Windows>, windows: map<string, Windows>, before: map<string, Windows>, rows: seq<LimitRow>,
                     orgIds: seq<string>, events: seq<IndexEvent>, limits: seq<Limit>, limit: Limit, now: int)
    requires Added(middle, before, rows, orgIds, events, limits, now)
    requires Added(windows, middle, rows, orgIds, events, [limit], now)
    ensures Added(windows, before, rows, orgIds, events, limits + [limit], now)
    ensures windows.Keys == before.Keys
  {
    hide Extra;
    forall o | o in before
      ensures windows[o] == before[o] + Extra(rows, orgIds, events, limits + [limit], now, o)
    {
      ExtraCompose(rows, orgIds, events, limits, limit, now, o);
    }
  }

  lemma AllWindows(windows: map<string, Windows>, stored: map<string, Windows>, index: Index, orgIds: seq<string>, now: int)
    requires Stored(stored, index.events, index.limits, now)
    requires Added(windows, stored, index.limits, orgIds, index.events, DEFAULT_LIMITS, now)
    ensures forall o :: o in windows ==> windows[o] == AnalyticsWindows(index, o, multiset(orgIds)[o], now)
  {
    hide RowsOf, WindowsOf, IfNone;
  }
}
