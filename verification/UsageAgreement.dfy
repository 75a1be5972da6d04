/** The incrementally kept analytics index answers like one rebuilt from scratch (internal/state/usage_store.go). */
module UsageAgreement {
  import opened Prelude
  import opened UsageStore

  /* Filters over the tables */

  lemma {:induction false} RowsOfConcat(a: seq<LimitRow>, b: seq<LimitRow>, o: string)
    ensures RowsOf(a + b, o) == RowsOf(a, o) + RowsOf(b, o)
  {
    if b == [] {
      assert a + b == a;
    } else {
      assert (a + b)[..|a + b| - 1] == a + b[..|b| - 1];
      RowsOfConcat(a, b[..|b| - 1], o);
    }
  }

  lemma {:induction false} OwnRows(rows: seq<LimitRow>, owner: string, o: string)
    requires forall i :: 0 <= i < |rows| ==> rows[i].orgId == owner
    ensures RowsOf(rows, o) == if o == owner then rows else []
  {
    if rows != [] {
      OwnRows(rows[..|rows| - 1], owner, o);
      assert rows == rows[..|rows| - 1] + [rows[|rows| - 1]];
    }
  }

  lemma {:induction false} RowsOfWithout(rows: seq<LimitRow>, gone: string, o: string)
    ensures RowsOf(Without(rows, gone), o) == if o == gone then [] else RowsOf(rows, o)
  {
    if rows != [] {
      var init, last := rows[..|rows| - 1], rows[|rows| - 1];
      RowsOfWithout(init, gone, o);
      var kept := if last.orgId == gone then [] else [last];
      RowsOfConcat(Without(init, gone), kept, o);
      OwnRows([last], last.orgId, o);
      OwnRows([], last.orgId, o);
    }
  }

  lemma {:induction false} RowsBelong(rows: seq<LimitRow>, o: string)
    ensures forall i :: 0 <= i < |RowsOf(rows, o)| ==> RowsOf(rows, o)[i].orgId == o
    ensures RowsOf(rows, o) != [] <==> exists i :: 0 <= i < |rows| && rows[i].orgId == o
  {
    if rows != [] {
      var n := |rows| - 1;
      RowsBelong(rows[..n], o);
      if i :| 0 <= i < n && rows[i].orgId == o { assert rows[..n][i].orgId == o; }
    }
  }

  lemma {:induction false} EventsOfConcat(a: seq<IndexEvent>, b: seq<IndexEvent>, o: string)
    ensures EventsOf(a + b, o) == EventsOf(a, o) + EventsOf(b, o)
  {
    if b == [] {
      assert a + b == a;
    } else {
      assert (a + b)[..|a + b| - 1] == a + b[..|b| - 1];
      EventsOfConcat(a, b[..|b| - 1], o);
    }
  }

  lemma {:induction false} OwnEvents(events: seq<IndexEvent>, owner: string, o: string)
    requires forall i :: 0 <= i < |events| ==> events[i].orgId == owner
    ensures EventsOf(events, o) == if o == owner then events else []
  {
    if events != [] {
      OwnEvents(events[..|events| - 1], owner, o);
      assert events == events[..|events| - 1] + [events[|events| - 1]];
    }
  }

  lemma MoreEvents(events: seq<IndexEvent>, more: seq<IndexEvent>, org: string, o: string)
    requires forall i :: 0 <= i < |more| ==> more[i].orgId == org
    ensures EventsOf(events + more, o) == EventsOf(events, o) + if o == org then more else []
  {
    EventsOfConcat(events, more, o);
    OwnEvents(more, org, o);
  }

  /** What an organisation spent can be computed from its own events. */
  lemma {:induction false} SpentByOwnEvents(events: seq<IndexEvent>, o: string, cutoff: int)
    ensures SpentSince(events, o, cutoff) == SpentSince(EventsOf(events, o), o, cutoff)
  {
    if events != [] {
      var init, last := events[..|events| - 1], events[|events| - 1];
      SpentByOwnEvents(init, o, cutoff);
      var own := EventsOf(init, o);
      if last.orgId == o {
        assert (own + [last])[..|own|] == own;
      } else {
        assert EventsOf(events, o) == own;
      }
    }
  }

  lemma WindowByOwnEvents(a: seq<IndexEvent>, b: seq<IndexEvent>, row: LimitRow, now: int)
    requires EventsOf(a, row.orgId) == EventsOf(b, row.orgId)
    ensures Window(a, row, now) == Window(b, row, now)
  {
    SpentByOwnEvents(a, row.orgId, now - row.windowMs);
    SpentByOwnEvents(b, row.orgId, now - row.windowMs);
    hide EventsOf, SpentSince;
  }

  lemma {:induction false} WindowsByOwnEvents(a: seq<IndexEvent>, b: seq<IndexEvent>, rows: seq<LimitRow>, o: string, now: int)
    requires EventsOf(a, o) == EventsOf(b, o)
    requires forall i :: 0 <= i < |rows| ==> rows[i].orgId == o
    ensures WindowsOf(a, rows, now) == WindowsOf(b, rows, now)
  {
    hide EventsOf, Window;
    if rows != [] {
      WindowsByOwnEvents(a, b, rows[..|rows| - 1], o, now);
      WindowByOwnEvents(a, b, rows[|rows| - 1], now);
    }
  }

  /* What the index owes to the organisations' own tables */

  function LogEvents(orgs: map<string, OrgDb>, o: string): seq<IndexEvent> {
    if o in orgs then IndexEvents(o, orgs[o].log) else []
  }

  function DbTotals(orgs: map<string, OrgDb>, o: string): Rollup {
    if o in orgs then Rollup(orgs[o].totalCost, orgs[o].totalRequests) else Rollup(0.0, 0)
  }

  ghost predicate LimitsSynced(s: State, o: string) {
    if o in s.orgs then
      && DistinctLabels(Effective(s.orgs[o].limits))
      && (|| RowsOf(s.index.limits, o) == LimitRows(o, Effective(s.orgs[o].limits))
          || (RowsOf(s.index.limits, o) == [] && s.orgs[o].limits == []))
    else RowsOf(s.index.limits, o) == []
  }

  /** The index mirrors an organisation; only its default limits may be missing. */
  ghost predicate OrgSynced(s: State, o: string) {
    && EventsOf(s.index.events, o) == LogEvents(s.orgs, o)
    && TotalsOf(s.index, o) == DbTotals(s.orgs, o)
    && LimitsSynced(s, o)
  }

  ghost predicate Synced(s: State) {
    forall o :: OrgSynced(s, o)
  }

  lemma DefaultLabelsAreDistinct()
    ensures DistinctLabels(DEFAULT_LIMITS)
  {
    assert DEFAULT_LIMITS[0].tag[0] == '5' && DEFAULT_LIMITS[1].tag[0] == '7';
  }

  lemma OpenKeepsSynced(s: State, org: string)
    requires Synced(s)
    ensures Synced(Apply(s, Open(org)))
  {
    DefaultLabelsAreDistinct();
    hide EventsOf, RowsOf, LimitRows, DistinctLabels;
    var t := Apply(s, Open(org));
    forall o ensures OrgSynced(t, o) { assert OrgSynced(s, o); }
  }

  lemma IndexOneMore(org: string, log: seq<LogRow>, row: LogRow)
    ensures IndexEvents(org, log + [row]) == IndexEvents(org, log) + [IndexEvent(org, row.usage, row.createdAt)]
  {
  }

  lemma {:induction false} RecordKeepsEvents(s: State, org: string, row: LogRow, o: string)
    requires OrgSynced(s, o) && org in s.orgs
    ensures var t := Apply(s, Record(org, row, true)); EventsOf(t.index.events, o) == LogEvents(t.orgs, o)
  {
    var e := IndexEvent(org, row.usage, row.createdAt);
    hide EventsOf, RowsOf, LimitRows, DistinctLabels, IndexEvents, LimitsSynced, TotalsOf;
    MoreEvents(s.index.events, [e], org, o);
    IndexOneMore(org, s.orgs[org].log, row);
  }

  lemma {:induction false} RecordKeepsRollup(s: State, org: string, row: LogRow, o: string)
    requires OrgSynced(s, o) && org in s.orgs
    ensures var t := Apply(s, Record(org, row, true)); TotalsOf(t.index, o) == DbTotals(t.orgs, o)
  {
    hide EventsOf, RowsOf, LimitRows, LimitsSynced, LogEvents;
  }

  lemma RecordKeepsLimits(s: State, org: string, row: LogRow, o: string)
    requires LimitsSynced(s, o) && LimitsSynced(s, org) && org in s.orgs
    ensures LimitsSynced(Apply(s, Record(org, row, true)), o)
  {
    var rows := LimitRows(org, DEFAULT_LIMITS);
    RowsOfConcat(s.index.limits, rows, o);
    OwnRows(rows, org, o);
    DefaultLabelsAreDistinct();
    hide RowsOf, LimitRows, DistinctLabels;
  }

  lemma RecordKeepsOrg(s: State, org: string, row: LogRow, o: string)
    requires Synced(s) && org in s.orgs
    ensures OrgSynced(Apply(s, Record(org, row, true)), o)
  {
    assert OrgSynced(s, o) && OrgSynced(s, org);
    hide Apply, EventsOf, RowsOf, LimitRows, DistinctLabels, LogEvents, DbTotals, TotalsOf, Effective;
    RecordKeepsEvents(s, org, row, o);
    RecordKeepsRollup(s, org, row, o);
    RecordKeepsLimits(s, org, row, o);
  }

  lemma ReplacedRows(rows: seq<LimitRow>, org: string, more: seq<LimitRow>, o: string)
    requires forall i :: 0 <= i < |more| ==> more[i].orgId == org
    ensures RowsOf(Without(rows, org) + more, o) == if o == org then more else RowsOf(rows, o)
  {
    RowsOfWithout(rows, org, o);
    RowsOfConcat(Without(rows, org), more, o);
    OwnRows(more, org, o);
    hide RowsOf, Without;
  }

  lemma {:induction false} SetLimitsKeepsLimits(s: State, org: string, limits: seq<Limit>, o: string)
    requires LimitsSynced(s, o) && org in s.orgs && DistinctLabels(Effective(limits))
    ensures LimitsSynced(Apply(s, SetLimits(org, limits, true)), o)
  {
    var t := Apply(s, SetLimits(org, limits, true));
    assert t.index.limits == Without(s.index.limits, org) + LimitRows(org, Effective(limits));
    assert o != org ==> (o in t.orgs <==> o in s.orgs) && (o in s.orgs ==> t.orgs[o] == s.orgs[o]);
    assert org in t.orgs && t.orgs[org].limits == limits;
    hide RowsOf, LimitRows, DistinctLabels, Without, Effective, Apply;
    ReplacedRows(s.index.limits, org, LimitRows(org, Effective(limits)), o);
  }

  lemma SetLimitsKeepsOrg(s: State, org: string, limits: seq<Limit>, o: string)
    requires Synced(s) && org in s.orgs && DistinctLabels(Effective(limits))
    ensures OrgSynced(Apply(s, SetLimits(org, limits, true)), o)
  {
    assert OrgSynced(s, o);
    hide EventsOf, LimitsSynced, DistinctLabels, IndexEvents, Without, LimitRows, Effective;
    SetLimitsKeepsLimits(s, org, limits, o);
  }

  lemma ApplyKeepsSynced(s: State, op: Op)
    requires Synced(s) && Succeeds(op)
    ensures Synced(Apply(s, op))
  {
    var t := Apply(s, Open(op.orgId));
    OpenKeepsSynced(s, op.orgId);
    assert Opened(t.orgs, op.orgId) == t.orgs;
    forall o ensures OrgSynced(Apply(s, op), o) {
      match op
      case Open(_) =>
      case Record(org, row, _) => RecordKeepsOrg(t, org, row, o);
      case SetLimits(org, limits, _) => SetLimitsKeepsOrg(t, org, limits, o);
    }
  }

  lemma {:induction false} RunKeepsSynced(s: State, ops: seq<Op>)
    requires Synced(s) && forall i :: 0 <= i < |ops| ==> Succeeds(ops[i])
    ensures Synced(Run(s, ops))
  {
    hide Synced, Apply;
    if ops != [] {
      RunKeepsSynced(s, ops[..|ops| - 1]);
      ApplyKeepsSynced(Run(s, ops[..|ops| - 1]), ops[|ops| - 1]);
    }
  }

  lemma EmptyStoreIsSynced()
    ensures Synced(State(map[], EMPTY_INDEX))
  {
  }

  /* The rebuilt index */

  ghost predicate Covers(index: Index, orgs: map<string, OrgDb>, ids: seq<string>, o: string)
    requires forall x :: x in ids ==> x in orgs
  {
    && EventsOf(index.events, o) == (if o in ids then LogEvents(orgs, o) else [])
    && TotalsOf(index, o) == (if o in ids then DbTotals(orgs, o) else Rollup(0.0, 0))
    && RowsOf(index.limits, o) == (if o in ids then LimitRows(o, Effective(orgs[o].limits)) else [])
  }

  lemma MoreRows(rows: seq<LimitRow>, more: seq<LimitRow>, org: string, o: string)
    requires forall i :: 0 <= i < |more| ==> more[i].orgId == org
    ensures RowsOf(rows + more, o) == RowsOf(rows, o) + if o == org then more else []
  {
    RowsOfConcat(rows, more, o);
    OwnRows(more, org, o);
  }

  lemma {:induction false} AddOrgCovers(index: Index, orgs: map<string, OrgDb>, ids: seq<string>, org: string, o: string)
    requires (forall x :: x in ids ==> x in orgs) && org in orgs && org !in ids
    requires Covers(index, orgs, ids, o)
    ensures Covers(AddOrg(index, org, orgs[org]), orgs, ids + [org], o)
  {
    var db, more := orgs[org], ids + [org];
    assert o in more <==> o in ids || o == org;
    hide EventsOf, RowsOf, LimitRows, Effective, IndexEvents, TotalsOf;
    AddOrgAdds(index, org, db, o);
    EmptyAdds(IndexEvents(org, db.log), LimitRows(org, Effective(db.limits)));
  }

  /** What adding one organisation changes in the answers on another, or on its own. */
  lemma {:induction false} AddOrgAdds(index: Index, org: string, db: OrgDb, o: string)
    ensures var n := AddOrg(index, org, db);
      && EventsOf(n.events, o) == EventsOf(index.events, o) + (if o == org then IndexEvents(org, db.log) else [])
      && TotalsOf(n, o) == (if o == org then Rollup(db.totalCost, db.totalRequests) else TotalsOf(index, o))
      && RowsOf(n.limits, o) == RowsOf(index.limits, o) + (if o == org then LimitRows(org, Effective(db.limits)) else [])
  {
    hide EventsOf, RowsOf, LimitRows, Effective, IndexEvents;
    EventsAreOwn(org, db.log);
    MoreEvents(index.events, IndexEvents(org, db.log), org, o);
    RowsAreOwn(org, Effective(db.limits));
    MoreRows(index.limits, LimitRows(org, Effective(db.limits)), org, o);
  }

  lemma EventsAreOwn(org: string, log: seq<LogRow>)
    ensures forall i :: 0 <= i < |IndexEvents(org, log)| ==> IndexEvents(org, log)[i].orgId == org
  {
  }

  lemma RowsAreOwn(org: string, limits: seq<Limit>)
    ensures forall i :: 0 <= i < |LimitRows(org, limits)| ==> LimitRows(org, limits)[i].orgId == org
  {
  }

  lemma EmptyAdds(events: seq<IndexEvent>, rows: seq<LimitRow>)
    ensures [] + events == events && [] + rows == rows && events + [] == events && rows + [] == rows
  {
  }

  lemma {:induction false} BuildCovers(orgs: map<string, OrgDb>, ids: seq<string>, o: string)
    requires Distinct(ids) && forall x :: x in ids ==> x in orgs
    ensures Covers(Build(orgs, ids), orgs, ids, o)
  {
    if ids != [] {
      var init, last := ids[..|ids| - 1], ids[|ids| - 1];
      assert ids == init + [last];
      BuildCovers(orgs, init, o);
      hide Covers;
      AddOrgCovers(Build(orgs, init), orgs, init, last, o);
    }
  }

  predicate Untouched(db: OrgDb) {
    db.log == [] && db.totalCost == 0.0 && db.totalRequests == 0 && db.limits == []
  }

  /**
   * A rebuild brings any index back in step, whatever was missed before, exactly when every organisation that the
   * listing leaves out has neither requests nor limits.
   */
  lemma RebuildSyncs(s: State, ids: seq<string>)
    requires IsListing(s.orgs, ids) && CleanLabels(s.orgs, ids)
    ensures Synced(s.(index := Rebuilt(s, ids))) <==> forall o :: o in s.orgs && !Listed(o) ==> Untouched(s.orgs[o])
  {
    var t := s.(index := Rebuilt(s, ids));
    hide EventsOf, RowsOf, DistinctLabels, Build, Listed;
    DefaultLabelsAreDistinct();
    forall o ensures OrgSynced(t, o) <==> (o in s.orgs && !Listed(o) ==> Untouched(s.orgs[o])) {
      BuildCovers(s.orgs, ids, o);
      if o in s.orgs && Listed(o) { LabelsOf(s.orgs, ids, o); }
    }
  }

  /** The listing leaves out names that are no single directory, and the directory of the index itself. */
  lemma UnlistedNames(o: string)
    ensures !Listed(o) <==> o in {"", ".", "..", "_analytics"} || exists i :: 0 <= i < |o| && o[i] == '/'
  {
  }

  lemma LabelsOf(orgs: map<string, OrgDb>, ids: seq<string>, o: string)
    requires (forall x :: x in ids ==> x in orgs) && CleanLabels(orgs, ids) && o in ids
    ensures DistinctLabels(Effective(orgs[o].limits))
  {
    var i :| 0 <= i < |ids| && ids[i] == o;
    hide DistinctLabels, Effective;
  }

  lemma SyncedLabelsAreClean(s: State, ids: seq<string>)
    requires Synced(s) && forall x :: x in ids ==> x in s.orgs
    ensures CleanLabels(s.orgs, ids)
  {
    hide DistinctLabels;
    assert forall i :: 0 <= i < |ids| ==> OrgSynced(s, ids[i]);
  }

  /* Totals */

  function Cost(log: seq<LogRow>): real {
    if log == [] then 0.0 else Cost(log[..|log| - 1]) + log[|log| - 1].usage.cost
  }

  function Tokens(log: seq<LogRow>, kind: Usage -> int): int {
    if log == [] then 0 else Tokens(log[..|log| - 1], kind) + kind(log[|log| - 1].usage)
  }

  function InputTokens(): Usage -> int { (u: Usage) => u.inputTokens }

  function OutputTokens(): Usage -> int { (u: Usage) => u.outputTokens }

  function CacheCreationTokens(): Usage -> int { (u: Usage) => u.cacheCreationTokens }

  function CacheReadTokens(): Usage -> int { (u: Usage) => u.cacheReadTokens }

  ghost predicate TotalsMatch(db: OrgDb) {
    && db.totalCost == Cost(db.log) && db.totalRequests == |db.log|
    && db.inputTokens == Tokens(db.log, InputTokens()) && db.outputTokens == Tokens(db.log, OutputTokens())
    && db.cacheCreationTokens == Tokens(db.log, CacheCreationTokens()) && db.cacheReadTokens == Tokens(db.log, CacheReadTokens())
  }

  lemma AddKeepsTotals(db: OrgDb, row: LogRow)
    requires TotalsMatch(db)
    ensures TotalsMatch(AddToDb(db, row))
  {
    assert (db.log + [row])[..|db.log|] == db.log;
  }

  /** An organisation's lifetime totals are those of its log, in every run, whatever happens to the index. */
  lemma {:induction false} RunKeepsTotals(s: State, ops: seq<Op>)
    requires forall o :: o in s.orgs ==> TotalsMatch(s.orgs[o])
    ensures forall o :: o in Run(s, ops).orgs ==> TotalsMatch(Run(s, ops).orgs[o])
  {
    if ops != [] {
      var before, op := Run(s, ops[..|ops| - 1]), ops[|ops| - 1];
      RunKeepsTotals(s, ops[..|ops| - 1]);
      assert TotalsMatch(EMPTY_DB);
      if op.Record? {
        hide TotalsMatch, AddToDb, AddToIndex;
        AddKeepsTotals(Opened(before.orgs, op.orgId)[op.orgId], op.row);
      }
    }
  }

  /* Same answers */

  /** Every organisation's index entry and running totals are in step with its log. */
  ghost predicate InStep(s: State) {
    Synced(s) && forall o :: o in s.orgs ==> TotalsMatch(s.orgs[o])
  }

  /**
   * When a rebuild leaves an organisation's answer alone, for a request that names it `n` times. One that the listing
   * shows differs only where the default windows of an organisation without limit rows are repeated. Of one that it
   * does not show, a rebuild keeps nothing: it must have no requests, and its windows must be the default ones.
   */
  ghost predicate SameAfterRebuild(s: State, o: string, n: nat, includeWindows: bool) {
    o in s.orgs ==>
      var rows := RowsOf(s.index.limits, o);
      if Listed(o) then includeWindows && n > 1 ==> rows != []
      else
        && s.orgs[o].totalRequests == 0
        && (includeWindows ==> rows == [] || (n == 1 && multiset(rows) == multiset(LimitRows(o, DEFAULT_LIMITS))))
  }

  lemma {:induction false} CopiesSize(windows: Windows, n: nat)
    ensures n > 0 ==> |Copies(windows, n)| >= |windows|
  {
    if n > 0 { CopiesSize(windows, n - 1); }
  }

  lemma {:induction false} WindowsSize(events: seq<IndexEvent>, rows: seq<LimitRow>, now: int)
    ensures |WindowsOf(events, rows, now)| == |rows|
  {
    hide SpentSince;
    if rows != [] { WindowsSize(events, rows[..|rows| - 1], now); }
  }

  lemma CopyOnce(windows: Windows, n: nat)
    requires n > 0 && |windows| > 0
    ensures Copies(windows, n) == windows <==> n == 1
  {
    CopiesSize(windows, n - 1);
    if n == 1 { assert Copies(windows, 0) == multiset{}; }
  }

  lemma SameRowsSameWindows(a: Index, b: Index, o: string, n: nat, now: int)
    requires EventsOf(a.events, o) == EventsOf(b.events, o) && RowsOf(a.limits, o) == RowsOf(b.limits, o)
    ensures AnalyticsWindows(a, o, n, now) == AnalyticsWindows(b, o, n, now)
  {
    RowsBelong(a.limits, o);
    hide EventsOf, RowsOf, WindowsOf;
    WindowsByOwnEvents(a.events, b.events, RowsOf(a.limits, o), o, now);
    WindowsByOwnEvents(a.events, b.events, LimitRows(o, DEFAULT_LIMITS), o, now);
  }

  lemma BareWindows(a: Index, b: Index, o: string, n: nat, now: int)
    requires EventsOf(a.events, o) == EventsOf(b.events, o) && n > 0
    requires RowsOf(a.limits, o) == [] && RowsOf(b.limits, o) == LimitRows(o, DEFAULT_LIMITS)
    ensures AnalyticsWindows(a, o, n, now) == AnalyticsWindows(b, o, n, now) <==> n == 1
  {
    var defaults := LimitRows(o, DEFAULT_LIMITS);
    assert |defaults| == 2;
    NoWindows(a.events, now);
    hide EventsOf, RowsOf, WindowsOf, LimitRows, Copies;
    WindowsByOwnEvents(a.events, b.events, defaults, o, now);
    WindowsSize(a.events, defaults, now);
    CopyOnce(WindowsOf(a.events, defaults, now), n);
  }

  /** The windows of one organisation agree unless its default windows are repeated. */
  lemma WindowsAgree(s: State, ids: seq<string>, o: string, n: nat, now: int)
    requires Synced(s) && IsListing(s.orgs, ids) && (o in s.orgs ==> Listed(o)) && n > 0
    ensures AnalyticsWindows(s.index, o, n, now) == AnalyticsWindows(Build(s.orgs, ids), o, n, now)
      <==> !(n > 1 && o in s.orgs && RowsOf(s.index.limits, o) == [])
  {
    assert OrgSynced(s, o);
    BuildCovers(s.orgs, ids, o);
    hide EventsOf, RowsOf, LimitRows, DistinctLabels, AnalyticsWindows, Build, Listed, Synced, TotalsOf, DbTotals, LogEvents;
    if o in s.orgs && RowsOf(s.index.limits, o) == [] {
      BareRows(s, o);
      BareWindows(s.index, Build(s.orgs, ids), o, n, now);
    } else {
      SameRowsSameWindows(s.index, Build(s.orgs, ids), o, n, now);
    }
  }

  lemma BareRows(s: State, o: string)
    requires OrgSynced(s, o) && o in s.orgs && RowsOf(s.index.limits, o) == []
    ensures Effective(s.orgs[o].limits) == DEFAULT_LIMITS
  {
    hide RowsOf, EventsOf, DistinctLabels;
    assert |LimitRows(o, Effective(s.orgs[o].limits))| > 0;
  }

  lemma NoWindows(events: seq<IndexEvent>, now: int)
    ensures WindowsOf(events, [], now) == multiset{}
  {
  }

  lemma ListedAnswerAgrees(s: State, ids: seq<string>, o: string, n: nat, includeWindows: bool, now: int)
    requires Synced(s) && IsListing(s.orgs, ids) && (o in s.orgs ==> Listed(o)) && n > 0
    ensures Answer(s.index, o, n, includeWindows, now) == Answer(Build(s.orgs, ids), o, n, includeWindows, now)
      <==> SameAfterRebuild(s, o, n, includeWindows)
  {
    assert OrgSynced(s, o);
    BuildCovers(s.orgs, ids, o);
    WindowsAgree(s, ids, o, n, now);
    var built := Build(s.orgs, ids);
    SpentByOwnEvents(s.index.events, o, now - 7 * DAY_MS);
    SpentByOwnEvents(built.events, o, now - 7 * DAY_MS);
    SpentByOwnEvents(s.index.events, o, now - 30 * DAY_MS);
    SpentByOwnEvents(built.events, o, now - 30 * DAY_MS);
    hide EventsOf, RowsOf, LimitRows, DistinctLabels, AnalyticsWindows, Build, Listed, SpentSince;
  }

  /* Organisations that the listing does not show */

  function RowBehind(o: string, w: WindowSpend): LimitRow {
    LimitRow(o, w.windowMs, w.limitUSD, w.tag)
  }

  /** A window stands in the answer as often as the row behind it stands in the table. */
  lemma {:induction false} WindowCount(events: seq<IndexEvent>, rows: seq<LimitRow>, o: string, now: int, w: WindowSpend)
    requires forall i :: 0 <= i < |rows| ==> rows[i].orgId == o
    ensures WindowsOf(events, rows, now)[w] ==
      if Window(events, RowBehind(o, w), now) == w then multiset(rows)[RowBehind(o, w)] else 0
  {
    hide SpentSince;
    if rows != [] {
      var init, last := rows[..|rows| - 1], rows[|rows| - 1];
      assert rows == init + [last];
      WindowCount(events, init, o, now, w);
      assert Window(events, last, now) == w <==> Window(events, RowBehind(o, w), now) == w && last == RowBehind(o, w);
    }
  }

  lemma SameWindowsSameRows(events: seq<IndexEvent>, a: seq<LimitRow>, b: seq<LimitRow>, o: string, now: int)
    requires forall i :: 0 <= i < |a| ==> a[i].orgId == o
    requires forall i :: 0 <= i < |b| ==> b[i].orgId == o
    ensures WindowsOf(events, a, now) == WindowsOf(events, b, now) <==> multiset(a) == multiset(b)
  {
    var x, y := WindowsOf(events, a, now), WindowsOf(events, b, now);
    forall w ensures multiset(a) == multiset(b) ==> x[w] == y[w] {
      WindowCount(events, a, o, now, w);
      WindowCount(events, b, o, now, w);
    }
    forall row ensures x == y ==> multiset(a)[row] == multiset(b)[row] {
      WindowOfRow(events, a, row, o, now);
      WindowOfRow(events, b, row, o, now);
    }
  }

  lemma WindowOfRow(events: seq<IndexEvent>, rows: seq<LimitRow>, row: LimitRow, o: string, now: int)
    requires forall i :: 0 <= i < |rows| ==> rows[i].orgId == o
    ensures row.orgId == o ==> WindowsOf(events, rows, now)[Window(events, row, now)] == multiset(rows)[row]
    ensures row.orgId != o ==> multiset(rows)[row] == 0
  {
    if row.orgId == o {
      WindowCount(events, rows, o, now, Window(events, row, now));
    } else {
      assert row !in rows;
    }
  }

  lemma {:induction false} CopiesCount(windows: Windows, n: nat, w: WindowSpend)
    ensures windows[w] > 0 ==> Copies(windows, n)[w] >= n
  {
    if n > 0 { CopiesCount(windows, n - 1, w); }
  }

  lemma {:induction false} LabelsStandOnce(rows: seq<LimitRow>, row: LimitRow)
    requires forall i, j :: 0 <= i < j < |rows| ==> rows[i].tag != rows[j].tag
    ensures multiset(rows)[row] <= 1
  {
    if rows != [] {
      var init, last := rows[..|rows| - 1], rows[|rows| - 1];
      assert rows == init + [last];
      LabelsStandOnce(init, row);
      forall i | 0 <= i < |init| ensures init[i] != last {
        assert rows[i].tag != rows[|rows| - 1].tag;
      }
      assert last !in init;
    }
  }

  /** Rows with distinct labels never give the default windows more than once. */
  lemma RowsAgainstDefaults(rows: seq<LimitRow>, o: string, n: nat, now: int)
    requires n > 0 && forall i :: 0 <= i < |rows| ==> rows[i].orgId == o
    requires forall i, j :: 0 <= i < j < |rows| ==> rows[i].tag != rows[j].tag
    ensures WindowsOf([], rows, now) == Copies(WindowsOf([], LimitRows(o, DEFAULT_LIMITS), now), n)
      <==> n == 1 && multiset(rows) == multiset(LimitRows(o, DEFAULT_LIMITS))
  {
    var defaults := LimitRows(o, DEFAULT_LIMITS);
    var windows, first := WindowsOf([], defaults, now), defaults[0];
    hide WindowsOf, Window, LimitRows;
    SameWindowsSameRows([], rows, defaults, o, now);
    if n == 1 {
      CopiedOnce(windows);
    } else {
      WindowOfRow([], defaults, first, o, now);
      CopiesCount(windows, n, Window([], first, now));
      WindowOfRow([], rows, first, o, now);
      LabelsStandOnce(rows, first);
    }
  }

  lemma CopiedOnce(windows: Windows)
    ensures Copies(windows, 1) == windows
  {
    assert Copies(windows, 0) == multiset{};
  }

  /** The rows of an organisation in step bear its name and distinct labels. */
  lemma SyncedRows(s: State, o: string)
    requires OrgSynced(s, o) && o in s.orgs
    ensures var rows := RowsOf(s.index.limits, o);
      && (forall i :: 0 <= i < |rows| ==> rows[i].orgId == o)
      && (forall i, j :: 0 <= i < j < |rows| ==> rows[i].tag != rows[j].tag)
  {
    RowsBelong(s.index.limits, o);
    hide RowsOf, EventsOf;
  }

  lemma WindowsWithoutEvents(index: Index, o: string, n: nat, now: int)
    requires EventsOf(index.events, o) == []
    ensures var rows := RowsOf(index.limits, o);
      AnalyticsWindows(index, o, n, now) ==
        if rows == [] then Copies(WindowsOf([], LimitRows(o, DEFAULT_LIMITS), now), n) else WindowsOf([], rows, now)
  {
    var rows := RowsOf(index.limits, o);
    RowsBelong(index.limits, o);
    NoWindows(index.events, now);
    assert EventsOf([], o) == [];
    hide EventsOf, RowsOf, WindowsOf, LimitRows, Copies;
    WindowsByOwnEvents(index.events, [], rows, o, now);
    WindowsByOwnEvents(index.events, [], LimitRows(o, DEFAULT_LIMITS), o, now);
  }

  lemma UnlistedWindows(s: State, o: string, built: Index, n: nat, now: int)
    requires OrgSynced(s, o) && o in s.orgs && n > 0
    requires EventsOf(s.index.events, o) == [] && EventsOf(built.events, o) == [] && RowsOf(built.limits, o) == []
    ensures var rows := RowsOf(s.index.limits, o);
      AnalyticsWindows(s.index, o, n, now) == AnalyticsWindows(built, o, n, now)
      <==> rows == [] || (n == 1 && multiset(rows) == multiset(LimitRows(o, DEFAULT_LIMITS)))
  {
    SyncedRows(s, o);
    hide EventsOf, RowsOf, WindowsOf, LimitRows, OrgSynced, Copies, AnalyticsWindows;
    RowsAgainstDefaults(RowsOf(s.index.limits, o), o, n, now);
    WindowsWithoutEvents(s.index, o, n, now);
    WindowsWithoutEvents(built, o, n, now);
  }

  lemma {:induction false} NothingSpent(events: seq<IndexEvent>, o: string, cutoff: int)
    requires EventsOf(events, o) == []
    ensures SpentSince(events, o, cutoff) == 0.0
  {
    SpentByOwnEvents(events, o, cutoff);
    assert SpentSince([], o, cutoff) == 0.0;
  }

  lemma NoRequestsNoEvents(s: State, o: string)
    requires OrgSynced(s, o) && o in s.orgs && TotalsMatch(s.orgs[o]) && s.orgs[o].totalRequests == 0
    ensures EventsOf(s.index.events, o) == [] && TotalsOf(s.index, o) == Rollup(0.0, 0)
  {
    hide EventsOf, LimitsSynced;
  }

  lemma UnlistedAnswerAgrees(s: State, ids: seq<string>, o: string, n: nat, includeWindows: bool, now: int)
    requires InStep(s) && IsListing(s.orgs, ids) && o in s.orgs && !Listed(o) && n > 0
    ensures Answer(s.index, o, n, includeWindows, now) == Answer(Build(s.orgs, ids), o, n, includeWindows, now)
      <==> SameAfterRebuild(s, o, n, includeWindows)
  {
    assert OrgSynced(s, o);
    BuildCovers(s.orgs, ids, o);
    assert TotalsOf(s.index, o).totalRequests == s.orgs[o].totalRequests;
    hide EventsOf, RowsOf, Build, Listed, Synced, OrgSynced, TotalsMatch, TotalsOf;
    UnlistedAgainst(s, Build(s.orgs, ids), o, n, includeWindows, now);
  }

  lemma UnlistedAgainst(s: State, built: Index, o: string, n: nat, includeWindows: bool, now: int)
    requires OrgSynced(s, o) && o in s.orgs && TotalsMatch(s.orgs[o]) && !Listed(o) && n > 0
    requires EventsOf(built.events, o) == [] && TotalsOf(built, o) == Rollup(0.0, 0) && RowsOf(built.limits, o) == []
    ensures Answer(s.index, o, n, includeWindows, now) == Answer(built, o, n, includeWindows, now)
      <==> SameAfterRebuild(s, o, n, includeWindows)
  {
    assert TotalsOf(s.index, o).totalRequests == s.orgs[o].totalRequests;
    hide EventsOf, RowsOf, LimitRows, AnalyticsWindows, Listed, SpentSince, OrgSynced, TotalsMatch, TotalsOf;
    if s.orgs[o].totalRequests == 0 {
      NoRequestsNoEvents(s, o);
      UnlistedWindows(s, o, built, n, now);
      NothingSpent(s.index.events, o, now - 7 * DAY_MS);
      NothingSpent(s.index.events, o, now - 30 * DAY_MS);
      NothingSpent(built.events, o, now - 7 * DAY_MS);
      NothingSpent(built.events, o, now - 30 * DAY_MS);
    }
  }

  /* Every organisation */

  /** The kept index and the rebuilt one give the same answers exactly when a rebuild leaves each answer asked for alone. */
  lemma RebuildAgrees(s: State, ids: seq<string>, orgIds: seq<string>, includeWindows: bool, now: int)
    requires InStep(s) && IsListing(s.orgs, ids)
    ensures Answers(s.index, orgIds, includeWindows, now) == Answers(Rebuilt(s, ids), orgIds, includeWindows, now)
      <==> forall o :: o in orgIds ==> SameAfterRebuild(s, o, multiset(orgIds)[o], includeWindows)
  {
    SyncedLabelsAreClean(s, ids);
    hide Synced, Build, Listed, Answer, CleanLabels, SameAfterRebuild, TotalsMatch;
    var kept, built := Answers(s.index, orgIds, includeWindows, now), Answers(Build(s.orgs, ids), orgIds, includeWindows, now);
    forall i | 0 <= i < |orgIds|
      ensures kept[i] == built[i] <==> SameAfterRebuild(s, orgIds[i], multiset(orgIds)[orgIds[i]], includeWindows)
    {
      var o := orgIds[i];
      if o in s.orgs && !Listed(o) {
        UnlistedAnswerAgrees(s, ids, o, multiset(orgIds)[o], includeWindows, now);
      } else {
        ListedAnswerAgrees(s, ids, o, multiset(orgIds)[o], includeWindows, now);
      }
    }
    assert kept == built <==> forall i :: 0 <= i < |orgIds| ==> kept[i] == built[i];
  }

  /**
   * Both indexes name the same spam organisations, although only the rebuilt one has every default row, exactly
   * when the listing shows all of them.
   */
  lemma SpamAgrees(s: State, ids: seq<string>)
    requires Synced(s) && IsListing(s.orgs, ids)
    ensures SpamOrgs(s.index) == SpamOrgs(Rebuilt(s, ids)) <==> forall o :: o in SpamOrgs(s.index) ==> Listed(o)
  {
    SyncedLabelsAreClean(s, ids);
    hide Build, Listed, RowsOf, CleanLabels, IsSpam, OrgSynced, Covers, SpamOrgs;
    forall o
      ensures o in SpamOrgs(Build(s.orgs, ids)) <==> o in SpamOrgs(s.index) && Listed(o)
    {
      assert OrgSynced(s, o);
      BuildCovers(s.orgs, ids, o);
      SpamByRows(s.index, o);
      SpamByRows(Build(s.orgs, ids), o);
      SpamOf(s, ids, o);
    }
  }

  lemma SpamByRows(index: Index, o: string)
    ensures o in SpamOrgs(index) <==> IsSpam(index, o)
  {
    RowsBelong(index.limits, o);
    hide RowsOf;
    if IsSpam(index, o) {
      var i :| 0 <= i < |index.limits| && index.limits[i].orgId == o;
      assert index.limits[i].orgId in SpamOrgs(index);
    }
  }

  lemma SpamOf(s: State, ids: seq<string>, o: string)
    requires IsListing(s.orgs, ids)
    requires OrgSynced(s, o) && Covers(Build(s.orgs, ids), s.orgs, ids, o)
    ensures IsSpam(Build(s.orgs, ids), o) <==> IsSpam(s.index, o) && Listed(o)
  {
    hide EventsOf, RowsOf, Listed, Build, IndexEvents;
    assert LimitRows(o, DEFAULT_LIMITS)[1].limitUSD == 100.0;
  }

  /**
   * Over every run from an empty store in which each index write succeeds, the answers stay those of a rebuild
   * with exactly the exceptions above, and so does the list of spam organisations.
   */
  lemma RunAgrees(ops: seq<Op>, ids: seq<string>, orgIds: seq<string>, includeWindows: bool, now: int)
    requires forall i :: 0 <= i < |ops| ==> Succeeds(ops[i])
    requires IsListing(Run(State(map[], EMPTY_INDEX), ops).orgs, ids)
    ensures var s := Run(State(map[], EMPTY_INDEX), ops);
      && ((Answers(s.index, orgIds, includeWindows, now) == Answers(Rebuilt(s, ids), orgIds, includeWindows, now))
          <==> forall o :: o in orgIds ==> SameAfterRebuild(s, o, multiset(orgIds)[o], includeWindows))
      && (SpamOrgs(s.index) == SpamOrgs(Rebuilt(s, ids)) <==> forall o :: o in SpamOrgs(s.index) ==> Listed(o))
  {
    hide Synced, Run, Listed, Succeeds, Answers, Rebuilt, SpamOrgs, TotalsMatch, SameAfterRebuild;
    var start := State(map[], EMPTY_INDEX);
    EmptyStoreIsSynced();
    RunKeepsSynced(start, ops);
    RunKeepsTotals(start, ops);
    RebuildAgrees(Run(start, ops), ids, orgIds, includeWindows, now);
    SpamAgrees(Run(start, ops), ids);
  }

  /** The exception is real: asking twice for an organisation that was only opened doubles its default windows. */
  lemma RepeatedRequestDiffers(o: string, now: int)
    requires Listed(o)
    ensures var s := Apply(State(map[], EMPTY_INDEX), Open(o));
      Answers(s.index, [o, o], true, now) != Answers(Rebuilt(s, [o]), [o, o], true, now)
  {
    var s := Apply(State(map[], EMPTY_INDEX), Open(o));
    EmptyStoreIsSynced();
    ApplyKeepsSynced(State(map[], EMPTY_INDEX), Open(o));
    assert TotalsMatch(EMPTY_DB);
    assert o in [o, o] && multiset([o, o])[o] == 2;
    assert !SameAfterRebuild(s, o, 2, true);
    hide Synced, Answers, Rebuilt, SameAfterRebuild, TotalsMatch;
    RebuildAgrees(s, [o], [o, o], true, now);
  }

  /**
   * Of an organisation whose name the listing does not show, such as "_analytics", a rebuilt index keeps nothing: the
   * answer on it stays the same exactly when it has no requests and, where windows are asked for, no limit rows but
   * the default ones.
   */
  lemma UnlistedOrgIsLost(s: State, ids: seq<string>, o: string, includeWindows: bool, now: int)
    requires InStep(s) && IsListing(s.orgs, ids) && o in s.orgs && !Listed(o)
    ensures var rows := RowsOf(s.index.limits, o);
      Answers(s.index, [o], includeWindows, now) == Answers(Rebuilt(s, ids), [o], includeWindows, now)
      <==> s.orgs[o].totalRequests == 0
           && (includeWindows ==> rows == [] || multiset(rows) == multiset(LimitRows(o, DEFAULT_LIMITS)))
  {
    hide Synced, Answers, Rebuilt, RowsOf, LimitRows, TotalsMatch, Listed;
    RebuildAgrees(s, ids, [o], includeWindows, now);
    assert o in [o] && multiset([o])[o] == 1;
  }
}
