/** What the answers on spending say of the operations behind them (internal/state/usage_store.go). */
module UsageSpending {
  import opened UsageStore
  import opened UsageAgreement
  import DailySpend

  /* What a run did */

  /** The requests that a run recorded for an organisation, in order. */
  function Recorded(ops: seq<Op>, o: string): seq<LogRow> {
    if ops == [] then []
    else (if ops[0].Record? && ops[0].orgId == o then [ops[0].row] else []) + Recorded(ops[1..], o)
  }

  /** The limits set last for an organisation; none if none were set. */
  function LastLimits(ops: seq<Op>, o: string): seq<Limit> {
    if ops == [] then []
    else
      var last := ops[|ops| - 1];
      if last.SetLimits? && last.orgId == o then last.limits else LastLimits(ops[..|ops| - 1], o)
  }

  /** The part of a log from some time on. */
  function Since(log: seq<LogRow>, cutoff: int): seq<LogRow> {
    if log == [] then []
    else (if log[0].createdAt >= cutoff then [log[0]] else []) + Since(log[1..], cutoff)
  }

  lemma {:induction false} SinceOneMore(log: seq<LogRow>, row: LogRow, cutoff: int)
    ensures Since(log + [row], cutoff) == Since(log, cutoff) + if row.createdAt >= cutoff then [row] else []
  {
    if log == [] {
      assert log + [row] == [row];
    } else {
      assert (log + [row])[1..] == log[1..] + [row];
      SinceOneMore(log[1..], row, cutoff);
    }
  }

  lemma {:induction false} RecordedOneMore(ops: seq<Op>, op: Op, o: string)
    ensures Recorded(ops + [op], o) == Recorded(ops, o) + if op.Record? && op.orgId == o then [op.row] else []
  {
    if ops == [] {
      assert ops + [op] == [op];
    } else {
      assert (ops + [op])[1..] == ops[1..] + [op];
      RecordedOneMore(ops[1..], op, o);
    }
  }

  lemma CostOneMore(log: seq<LogRow>, row: LogRow)
    ensures Cost(log + [row]) == Cost(log) + row.usage.cost
  {
    assert (log + [row])[..|log|] == log;
  }

  /* Spending */

  function LogOf(s: State, o: string): seq<LogRow> {
    if o in s.orgs then s.orgs[o].log else []
  }

  /**
   * The spend of an organisation since any time grows by the cost of a request recorded for it at or after that time;
   * any other request leaves it alone. An empty store has spent nothing.
   */
  lemma SpendGrows(s: State, org: string, row: LogRow, o: string, cutoff: int)
    ensures var t := Apply(s, Record(org, row, true));
      SpentSince(t.index.events, o, cutoff) == SpentSince(s.index.events, o, cutoff) +
        if o == org && row.createdAt >= cutoff then row.usage.cost else 0.0
    ensures SpentSince(EMPTY_INDEX.events, o, cutoff) == 0.0
  {
    SpentOneMoreEvent(s.index.events, IndexEvent(org, row.usage, row.createdAt), o, cutoff);
  }

  function SpentBy(o: string, cutoff: int): DailySpend.Pick {
    (e: IndexEvent) => e.orgId == o && e.createdAt >= cutoff
  }

  /** The same spend by the tallies that the daily report uses. */
  lemma {:induction false} SpentIsTally(events: seq<IndexEvent>, o: string, cutoff: int)
    ensures SpentSince(events, o, cutoff) == DailySpend.Tally(events, SpentBy(o, cutoff)).spend
  {
    if events == [] {
      assert DailySpend.Tally(events, SpentBy(o, cutoff)) == DailySpend.NOTHING;
    } else {
      SpentIsTally(events[..|events| - 1], o, cutoff);
      DailySpend.TallyOneMore(events, SpentBy(o, cutoff));
      var e := events[|events| - 1];
      assert DailySpend.Share(e, SpentBy(o, cutoff)).spend == if e.orgId == o && e.createdAt >= cutoff then e.usage.cost else 0.0;
    }
  }

  lemma SpentOneMoreEvent(events: seq<IndexEvent>, e: IndexEvent, o: string, cutoff: int)
    ensures SpentSince(events + [e], o, cutoff) ==
      SpentSince(events, o, cutoff) + if e.orgId == o && e.createdAt >= cutoff then e.usage.cost else 0.0
  {
    assert (events + [e])[..|events|] == events;
  }

  lemma {:induction false} SpentByLog(o: string, log: seq<LogRow>, cutoff: int)
    ensures SpentSince(IndexEvents(o, log), o, cutoff) == Cost(Since(log, cutoff))
  {
    if log == [] {
      assert IndexEvents(o, log) == [];
    } else {
      var init, last := log[..|log| - 1], log[|log| - 1];
      assert log == init + [last];
      hide IndexEvents, SpentSince, Cost, Since;
      SpentByLog(o, init, cutoff);
      IndexOneMore(o, init, last);
      SpentOneMoreEvent(IndexEvents(o, init), IndexEvent(o, last.usage, last.createdAt), o, cutoff);
      SinceOneMore(init, last, cutoff);
      CostOneMore(Since(init, cutoff), last);
      NoneMore(Since(init, cutoff));
    }
  }

  lemma NoneMore(log: seq<LogRow>)
    ensures log + [] == log
  {
  }

  /** Where the index is in step, what it says of the spending is what the organisation's own log says. */
  lemma SpentIsLogged(s: State, o: string, cutoff: int)
    requires OrgSynced(s, o)
    ensures SpentSince(s.index.events, o, cutoff) == Cost(Since(LogOf(s, o), cutoff))
  {
    hide EventsOf, TotalsOf, LimitsSynced;
    SpentByOwnEvents(s.index.events, o, cutoff);
    if o in s.orgs {
      SpentByLog(o, s.orgs[o].log, cutoff);
    } else {
      assert LogEvents(s.orgs, o) == [];
    }
  }

  /* Windows */

  /** One window of an answer: the limit, what was spent in it, and whether that reaches the limit. */
  function Spent(log: seq<LogRow>, limit: Limit, now: int): WindowSpend {
    var length := Milliseconds(limit.window);
    var spent := Cost(Since(log, now - length));
    WindowSpend(limit.tag, length, limit.limitUSD, spent, spent >= limit.limitUSD)
  }

  function SpentWindows(log: seq<LogRow>, limits: seq<Limit>, now: int): seq<WindowSpend> {
    seq(|limits|, i requires 0 <= i < |limits| => Spent(log, limits[i], now))
  }

  lemma MillisecondsTruncate(window: int)
    ensures window >= 0 ==> Milliseconds(window) >= 0 && Milliseconds(window) * 1_000_000 <= window < (Milliseconds(window) + 1) * 1_000_000
    ensures Milliseconds(-window) == -Milliseconds(window)
  {
  }

  /** The limits in force where none are set: 25 dollars in five hours, 100 in seven days. */
  lemma DefaultWindowsAre(log: seq<LogRow>, now: int)
    ensures SpentWindows(log, DEFAULT_LIMITS, now) == [
      WindowSpend("5h", 18_000_000, 25.0, Cost(Since(log, now - 18_000_000)), Cost(Since(log, now - 18_000_000)) >= 25.0),
      WindowSpend("7d", 604_800_000, 100.0, Cost(Since(log, now - 604_800_000)), Cost(Since(log, now - 604_800_000)) >= 100.0)]
  {
    hide Cost, Since;
  }

  lemma SpentOneMore(log: seq<LogRow>, limits: seq<Limit>, limit: Limit, now: int)
    ensures SpentWindows(log, limits + [limit], now) == SpentWindows(log, limits, now) + [Spent(log, limit, now)]
  {
    hide Spent;
  }

  lemma WindowIsSpent(s: State, o: string, limit: Limit, now: int)
    requires OrgSynced(s, o)
    ensures Window(s.index.events, RowFor(o, limit), now) == Spent(LogOf(s, o), limit, now)
  {
    SpentIsLogged(s, o, now - Milliseconds(limit.window));
    hide SpentSince, OrgSynced, Milliseconds, Cost, Since;
  }

  lemma {:induction false} WindowsAreSpent(s: State, o: string, limits: seq<Limit>, now: int)
    requires OrgSynced(s, o)
    ensures WindowsOf(s.index.events, LimitRows(o, limits), now) == multiset(SpentWindows(LogOf(s, o), limits, now))
  {
    if limits != [] {
      var init, last := limits[..|limits| - 1], limits[|limits| - 1];
      assert limits == init + [last];
      hide Window, WindowsOf, OrgSynced, LimitRows, RowFor, Spent, SpentWindows, LogOf;
      WindowsAreSpent(s, o, init, now);
      DefaultsOneMore(s.index.events, o, init, last, now);
      WindowIsSpent(s, o, last, now);
      SpentOneMore(LogOf(s, o), init, last, now);
    }
  }

  lemma {:induction false} CopiesAre(windows: Windows, n: nat, w: WindowSpend)
    ensures Copies(windows, n)[w] == n * windows[w]
  {
    if n > 0 {
      CopiesAre(windows, n - 1, w);
      OnceMore(n, windows[w]);
    }
  }

  lemma OnceMore(n: nat, k: nat)
    requires n > 0
    ensures (n - 1) * k + k == n * k
  {
  }

  /** What an answer says of an organisation with this log and these limits; without rows its windows come once per mention. */
  ghost predicate Tells(a: AnalyticsRow, o: string, log: seq<LogRow>, limits: seq<Limit>, times: nat, includeWindows: bool, now: int) {
    && a.orgId == o && a.totalCost == Cost(log) && a.totalRequests == |log|
    && a.spend7d == Cost(Since(log, now - 604_800_000)) && a.spend30d == Cost(Since(log, now - 2_592_000_000))
    && (if includeWindows then forall w :: a.windows[w] == times * multiset(SpentWindows(log, Effective(limits), now))[w]
        else a.windows == multiset{})
  }

  function LimitsOf(s: State, o: string): seq<Limit> {
    if o in s.orgs then s.orgs[o].limits else []
  }

  lemma AnswerWindows(s: State, o: string, n: nat, now: int)
    requires OrgSynced(s, o)
    ensures var times := if RowsOf(s.index.limits, o) == [] then n else 1;
      forall w :: AnalyticsWindows(s.index, o, n, now)[w] ==
        times * multiset(SpentWindows(LogOf(s, o), Effective(LimitsOf(s, o)), now))[w]
  {
    WindowsAreSpent(s, o, Effective(LimitsOf(s, o)), now);
    NoWindows(s.index.events, now);
    if RowsOf(s.index.limits, o) == [] && o in s.orgs { BareRows(s, o); }
    hide WindowsOf, RowsOf, LimitRows, EventsOf, SpentWindows, Copies;
    forall w { CopiesAre(DefaultWindows(s.index, o, now), n, w); }
  }

  /** Every answer from an index in step is what the organisation's own tables say. */
  lemma AnswerTells(s: State, o: string, n: nat, includeWindows: bool, now: int)
    requires InStep(s)
    ensures Tells(Answer(s.index, o, n, includeWindows, now), o, LogOf(s, o), LimitsOf(s, o),
      if RowsOf(s.index.limits, o) == [] then n else 1, includeWindows, now)
  {
    assert OrgSynced(s, o);
    SpentIsLogged(s, o, now - 604_800_000);
    SpentIsLogged(s, o, now - 2_592_000_000);
    AnswerWindows(s, o, n, now);
    hide SpentWindows, RowsOf, AnalyticsWindows, SpentSince, Since, EventsOf, LimitsSynced;
  }

  /* Whole runs */

  const START := State(map[], EMPTY_INDEX)

  lemma {:induction false} RunOneMore(s: State, ops: seq<Op>, op: Op)
    ensures Run(s, ops + [op]) == Apply(Run(s, ops), op)
  {
    assert (ops + [op])[..|ops|] == ops;
  }

  /** An organisation's log holds the requests recorded for it, in order. */
  lemma {:induction false} RunLogs(ops: seq<Op>, o: string)
    ensures LogOf(Run(START, ops), o) == Recorded(ops, o)
  {
    if ops != [] {
      var init, last := ops[..|ops| - 1], ops[|ops| - 1];
      assert ops == init + [last];
      RunLogs(init, o);
      RecordedOneMore(init, last, o);
      RunOneMore(START, init, last);
      hide Run, Recorded, AddToIndex, ReplaceLimits;
    }
  }

  lemma {:induction false} RunLimits(ops: seq<Op>, o: string)
    ensures LimitsOf(Run(START, ops), o) == LastLimits(ops, o)
  {
    if ops != [] {
      var init, last := ops[..|ops| - 1], ops[|ops| - 1];
      assert ops == init + [last];
      RunLimits(init, o);
      RunOneMore(START, init, last);
      hide Run, AddToIndex, ReplaceLimits;
    }
  }

  /** Whether a run gave an organisation limit rows: it recorded a request for it or set its limits. */
  predicate Touches(op: Op, o: string) {
    op.orgId == o && !op.Open?
  }

  lemma {:induction false} RunRows(ops: seq<Op>, o: string)
    requires forall i :: 0 <= i < |ops| ==> Succeeds(ops[i])
    ensures RowsOf(Run(START, ops).index.limits, o) != [] <==> exists i :: 0 <= i < |ops| && Touches(ops[i], o)
  {
    if ops != [] {
      var init, last := ops[..|ops| - 1], ops[|ops| - 1];
      assert ops == init + [last];
      RunRows(init, o);
      RunOneMore(START, init, last);
      hide Run, RowsOf;
      RowsAfter(Run(START, init), last, o);
      if i :| 0 <= i < |init| && Touches(init[i], o) { assert Touches(ops[i], o); }
      if Touches(last, o) { assert Touches(ops[|init|], o); }
    }
  }

  lemma RowsAfter(s: State, op: Op, o: string)
    requires Succeeds(op)
    ensures RowsOf(Apply(s, op).index.limits, o) != [] <==> RowsOf(s.index.limits, o) != [] || Touches(op, o)
  {
    hide RowsOf, Without, DistinctLabels;
    match op
    case Open(_) =>
    case Record(org, row, _) => MoreRows(s.index.limits, LimitRows(org, DEFAULT_LIMITS), org, o);
    case SetLimits(org, limits, _) =>
      assert |LimitRows(org, Effective(limits))| > 0;
      ReplacedRows(s.index.limits, org, LimitRows(org, Effective(limits)), o);
  }

  /**
   * Over every run from an empty store in which each index write succeeds, every answer tells of each organisation
   * asked for the requests recorded for it and the limits set for it last; only where neither was done do its default
   * windows come once per mention.
   */
  lemma RunTells(ops: seq<Op>, orgIds: seq<string>, includeWindows: bool, now: int, i: nat)
    requires forall k :: 0 <= k < |ops| ==> Succeeds(ops[k])
    requires i < |orgIds|
    ensures var o := orgIds[i];
      var touched := exists k :: 0 <= k < |ops| && Touches(ops[k], o);
      Tells(Answers(Run(START, ops).index, orgIds, includeWindows, now)[i], o, Recorded(ops, o), LastLimits(ops, o),
            if touched then 1 else multiset(orgIds)[o], includeWindows, now)
  {
    var s, o := Run(START, ops), orgIds[i];
    EmptyStoreIsSynced();
    RunKeepsSynced(START, ops);
    RunKeepsTotals(START, ops);
    RunLogs(ops, o);
    RunLimits(ops, o);
    RunRows(ops, o);
    hide Run, Recorded, LastLimits, RowsOf, Answer, Synced, TotalsMatch, Tells, Succeeds;
    AnswerTells(s, o, multiset(orgIds)[o], includeWindows, now);
  }

  /** The spam organisations of such a run are those whose limits, set last, are all a cent or less. */
  lemma RunSpam(ops: seq<Op>, o: string)
    requires forall k :: 0 <= k < |ops| ==> Succeeds(ops[k])
    ensures var limits := LastLimits(ops, o);
      o in SpamOrgs(Run(START, ops).index) <==> limits != [] && forall k :: 0 <= k < |limits| ==> limits[k].limitUSD <= 0.01
  {
    var s := Run(START, ops);
    EmptyStoreIsSynced();
    RunKeepsSynced(START, ops);
    RunLimits(ops, o);
    assert OrgSynced(s, o);
    hide Run, LastLimits, Synced, Succeeds, SpamOrgs;
    SpamByRows(s.index, o);
    SpamBySetLimits(s, o);
  }

  lemma SpamBySetLimits(s: State, o: string)
    requires OrgSynced(s, o)
    ensures var limits := LimitsOf(s, o);
      IsSpam(s.index, o) <==> limits != [] && forall k :: 0 <= k < |limits| ==> limits[k].limitUSD <= 0.01
  {
    hide RowsOf, EventsOf, TotalsOf, DistinctLabels;
    assert LimitRows(o, DEFAULT_LIMITS)[1].limitUSD == 100.0;
    var limits := LimitsOf(s, o);
    if limits != [] {
      assert forall k :: 0 <= k < |limits| ==> LimitRows(o, limits)[k].limitUSD == limits[k].limitUSD;
      assert RowsOf(s.index.limits, o) == LimitRows(o, limits);
    }
  }
}
