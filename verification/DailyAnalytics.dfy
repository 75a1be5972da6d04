/** The report on one day's spend, and why its breakdowns add up (internal/state/usage_store.go, GetDailySpendAnalytics). */
module DailyAnalytics {
  import opened Prelude
  import opened Text
  import opened UsageStore
  import opened DailySpend

  /* Parts of the report */

  /** All picked events, or those of spam organisations, or those of the others. */
  function Cell(p: Pick, spam: set<string>, which: Option<bool>): Pick {
    e => p(e) && (which.None? || (e.orgId in spam) == which.value)
  }

  datatype Summary = Summary(total: Amount, spamSpend: real, nonSpamSpend: real)

  const EMPTY_SUMMARY := Summary(NOTHING, 0.0, 0.0)

  function AddToSummary(s: Summary, amount: Amount, isSpam: bool): Summary {
    Summary(Plus(s.total, amount),
            s.spamSpend + (if isSpam then amount.spend else 0.0),
            s.nonSpamSpend + (if isSpam then 0.0 else amount.spend))
  }

  ghost predicate Summarizes(s: Summary, events: seq<IndexEvent>, p: Pick, spam: set<string>) {
    && s.total == Tally(events, Cell(p, spam, None))
    && s.spamSpend == Tally(events, Cell(p, spam, Some(true))).spend
    && s.nonSpamSpend == Tally(events, Cell(p, spam, Some(false))).spend
  }

  datatype HourRow = HourRow(hour: int, sums: Summary)

  ghost predicate Hours(series: seq<HourRow>, events: seq<IndexEvent>, p: Pick, spam: set<string>) {
    forall h :: 0 <= h < |series| ==> series[h].hour == h && Summarizes(series[h].sums, events, AtHour(p, h), spam)
  }

  datatype Row = Row(name: string, amount: Amount, isSpam: bool)

  /** The row that belongs to a name. */
  ghost predicate IsRow(r: Row, events: seq<IndexEvent>, p: Pick, name: IndexEvent -> string, spam: set<string>) {
    && r.name in NamesIn(events, p, name)
    && r.amount == Tally(events, Named(p, name, {r.name}))
    && r.isSpam == (r.name in spam)
  }

  /** A list of rows, in any order, with exactly one row for each name that occurs. */
  ghost predicate Breakdown(rows: seq<Row>, events: seq<IndexEvent>, p: Pick, name: IndexEvent -> string, spam: set<string>) {
    forall r: Row :: multiset(rows)[r] == if IsRow(r, events, p, name, spam) then 1 else 0
  }

  function SumRows(rows: seq<Row>): Amount {
    if rows == [] then NOTHING else Plus(SumRows(rows[..|rows| - 1]), rows[|rows| - 1].amount)
  }

  /* Sorting */

  predicate Before(a: Row, b: Row) {
    if a.amount.spend != b.amount.spend then a.amount.spend > b.amount.spend
    else if a.amount.requests != b.amount.requests then a.amount.requests > b.amount.requests
    else Less(a.name, b.name)
  }

  lemma BeforeTransitive(a: Row, b: Row, c: Row)
    requires Before(a, b) && !Before(c, b)
    ensures Before(a, c)
  {
    LessTotal(b.name, c.name);
    if Less(b.name, c.name) && Less(a.name, b.name) { LessTransitive(a.name, b.name, c.name); }
  }

  ghost predicate Ordered(rows: seq<Row>) {
    forall i, j :: 0 <= i < j < |rows| ==> !Before(rows[j], rows[i])
  }

  function Insert(r: Row, rows: seq<Row>): (out: seq<Row>)
    ensures multiset(out) == multiset(rows) + multiset{r}
    ensures |out| == |rows| + 1
  {
    if rows == [] then [r]
    else
      var n := |rows| - 1;
      assert rows == rows[..n] + [rows[n]];
      if Before(r, rows[n]) then Insert(r, rows[..n]) + [rows[n]] else rows + [r]
  }

  lemma {:induction false} InsertKeepsOrder(r: Row, rows: seq<Row>)
    requires Ordered(rows)
    ensures Ordered(Insert(r, rows))
  {
    if rows != [] {
      var n := |rows| - 1;
      var last := rows[n];
      if Before(r, last) {
        InsertKeepsOrder(r, rows[..n]);
        var inserted := Insert(r, rows[..n]);
        forall i | 0 <= i < |inserted| ensures !Before(last, inserted[i]) {
          assert inserted[i] in multiset(inserted);
          LessTotal(r.name, last.name);
          if inserted[i] != r {
            assert inserted[i] in rows[..n];
          }
        }
      } else {
        forall i | 0 <= i < n ensures !Before(r, rows[i]) {
          if Before(r, rows[i]) { BeforeTransitive(r, rows[i], last); }
        }
      }
    }
  }

  /** `slices.SortFunc`, by its contract: the same rows in order. */
  function Sort(rows: seq<Row>): (out: seq<Row>)
    ensures multiset(out) == multiset(rows)
    ensures |out| == |rows|
  {
    if rows == [] then []
    else
      assert rows == rows[..|rows| - 1] + [rows[|rows| - 1]];
      Insert(rows[|rows| - 1], Sort(rows[..|rows| - 1]))
  }

  lemma {:induction false} SortOrders(rows: seq<Row>)
    ensures Ordered(Sort(rows))
  {
    if rows != [] {
      SortOrders(rows[..|rows| - 1]);
      InsertKeepsOrder(rows[|rows| - 1], Sort(rows[..|rows| - 1]));
    }
  }

  /* The day */

  /** The day that starts at `start`, as seen at `now`: a day under way ends now and has fewer hours. */
  datatype Day = Day(start: int, now: int) {
    ghost predicate Valid() { start % DAY_MS == 0 }
    predicate Partial() { start == now - now % DAY_MS }
    function Selected(): Span { Span(start, if Partial() then now else start + DAY_MS) }
    function Previous(): Span { Span(start - DAY_MS, start) }
    function LastHour(): (h: int)
      ensures 0 <= h <= 23
    {
      if Partial() then now % DAY_MS / HOUR_MS else 23
    }
  }

  datatype Report = Report(day: Summary, previous: Summary, spamOrgs: int, nonSpamOrgs: int, hours: seq<HourRow>,
                           models: seq<Row>, topOrgs: seq<Row>, otherSpend: real, otherOrgs: int)

  const CHUNK: nat := 400

  function TopLimit(requested: int): nat {
    if requested <= 0 then 20 else if requested > 50 then 50 else requested
  }

  ghost predicate TopAndOthers(r: Report, others: seq<Row>, events: seq<IndexEvent>, p: Pick, spam: set<string>, limit: int) {
    && Breakdown(r.topOrgs + others, events, p, OrgName(), spam)
    && Ordered(r.topOrgs + others)
    && |r.topOrgs| <= TopLimit(limit) && (others != [] ==> |r.topOrgs| == TopLimit(limit))
    && r.otherSpend == SumRows(others).spend && r.otherOrgs == |others|
    && r.spamOrgs + r.nonSpamOrgs == |r.topOrgs| + |others|
    && r.spamOrgs == |NamesIn(events, p, OrgName()) * spam|
  }

  /** The report says of the events of the given organisations what it should. */
  ghost predicate Reports(r: Report, events: seq<IndexEvent>, orgs: set<string>, spam: set<string>, day: Day, limit: int) {
    var p := InOrgs(orgs, day.Selected());
    && Summarizes(r.day, events, p, spam)
    && Summarizes(r.previous, events, InOrgs(orgs, day.Previous()), spam)
    && |r.hours| == day.LastHour() + 1 && Hours(r.hours, events, p, spam)
    && Breakdown(r.models, events, p, ModelName(), {}) && Ordered(r.models)
    && exists others :: TopAndOthers(r, others, events, p, spam, limit)
  }

  /* What follows from the report being right */

  /** Spam and other spend add up in every summary. */
  lemma SpamSplits(s: Summary, events: seq<IndexEvent>, p: Pick, spam: set<string>)
    requires Summarizes(s, events, p, spam)
    ensures s.spamSpend + s.nonSpamSpend == s.total.spend
    ensures s.total == Tally(events, p)
  {
    TallySplit(events, Cell(p, spam, Some(true)), Cell(p, spam, Some(false)), Cell(p, spam, None));
    TallySame(events, Cell(p, spam, None), p);
  }

  function RowNamesOf(rows: seq<Row>): set<string> {
    set i | 0 <= i < |rows| :: rows[i].name
  }

  lemma RowNamesAppend(rows: seq<Row>, r: Row)
    ensures RowNamesOf(rows + [r]) == RowNamesOf(rows) + {r.name}
  {
    var all := rows + [r];
    assert all[|rows|] == r;
    forall x | x in RowNamesOf(rows) ensures x in RowNamesOf(all) {
      var i :| 0 <= i < |rows| && rows[i].name == x;
      assert all[i].name == x;
    }
  }

  ghost predicate PartOfBreakdown(rows: seq<Row>, events: seq<IndexEvent>, p: Pick, name: IndexEvent -> string, spam: set<string>) {
    && (forall i :: 0 <= i < |rows| ==> IsRow(rows[i], events, p, name, spam))
    && (forall i, j :: 0 <= i < j < |rows| ==> rows[i].name != rows[j].name)
  }

  lemma NamedSplit(events: seq<IndexEvent>, p: Pick, name: IndexEvent -> string, names: set<string>, n: string)
    requires n !in names
    ensures Tally(events, Named(p, name, names + {n})) == Plus(Tally(events, Named(p, name, names)), Tally(events, Named(p, name, {n})))
  {
    TallySplit(events, Named(p, name, names), Named(p, name, {n}), Named(p, name, names + {n}));
  }

  lemma {:induction false} PartSums(rows: seq<Row>, events: seq<IndexEvent>, p: Pick, name: IndexEvent -> string, spam: set<string>)
    requires PartOfBreakdown(rows, events, p, name, spam)
    ensures SumRows(rows) == Tally(events, Named(p, name, RowNamesOf(rows)))
  {
    hide Tally, Named, NamesIn;
    if rows == [] {
      TallyNone(events, Named(p, name, {})) by { NoNames(events, p, name); }
      assert RowNamesOf([]) == {};
    } else {
      var init, last := rows[..|rows| - 1], rows[|rows| - 1];
      PartSums(init, events, p, name, spam);
      RowNamesAppend(init, last);
      assert rows == init + [last];
      assert last.name !in RowNamesOf(init);
      NamedSplit(events, p, name, RowNamesOf(init), last.name);
    }
  }

  lemma NoNames(events: seq<IndexEvent>, p: Pick, name: IndexEvent -> string)
    ensures forall e :: e in events ==> !Named(p, name, {})(e)
  {
  }

  lemma TwiceIsTwo(rows: seq<Row>, i: nat, j: nat)
    requires i < j < |rows| && rows[i] == rows[j]
    ensures multiset(rows)[rows[i]] >= 2
  {
    assert rows == rows[..j] + [rows[j]] + rows[j + 1..];
    assert rows[i] in rows[..j];
  }

  lemma BreakdownIsDistinct(rows: seq<Row>, events: seq<IndexEvent>, p: Pick, name: IndexEvent -> string, spam: set<string>)
    requires Breakdown(rows, events, p, name, spam)
    ensures PartOfBreakdown(rows, events, p, name, spam)
    ensures RowNamesOf(rows) == NamesIn(events, p, name)
  {
    hide NamesIn, Tally, Named;
    forall i | 0 <= i < |rows| ensures IsRow(rows[i], events, p, name, spam) {
      assert rows[i] in multiset(rows);
    }
    forall i, j | 0 <= i < j < |rows| ensures rows[i].name != rows[j].name {
      if rows[i].name == rows[j].name { TwiceIsTwo(rows, i, j); }
    }
    forall n | n in NamesIn(events, p, name) ensures n in RowNamesOf(rows) {
      var r := Row(n, Tally(events, Named(p, name, {n})), n in spam);
      assert IsRow(r, events, p, name, spam);
      assert r in multiset(rows);
      var i :| 0 <= i < |rows| && rows[i] == r;
    }
  }

  /** The rows of a breakdown add up to the whole. */
  lemma BreakdownSums(rows: seq<Row>, events: seq<IndexEvent>, p: Pick, name: IndexEvent -> string, spam: set<string>)
    requires Breakdown(rows, events, p, name, spam)
    ensures SumRows(rows) == Tally(events, p)
  {
    BreakdownIsDistinct(rows, events, p, name, spam);
    PartSums(rows, events, p, name, spam);
    TallySame(events, Named(p, name, NamesIn(events, p, name)), p);
  }

  lemma {:induction false} SumRowsAppend(a: seq<Row>, b: seq<Row>)
    ensures SumRows(a + b) == Plus(SumRows(a), SumRows(b))
  {
    if b == [] {
      assert a + b == a;
    } else {
      assert (a + b)[..|a + b| - 1] == a + b[..|b| - 1];
      SumRowsAppend(a, b[..|b| - 1]);
    }
  }

  /** The top organisations and the others make up the day's total, and no other organisation spent more than a top one. */
  lemma TopAndOthersSum(r: Report, others: seq<Row>, events: seq<IndexEvent>, p: Pick, spam: set<string>, limit: int)
    requires TopAndOthers(r, others, events, p, spam, limit)
    ensures SumRows(r.topOrgs).spend + r.otherSpend == Tally(events, p).spend
    ensures forall i, j :: 0 <= i < |r.topOrgs| && 0 <= j < |others| ==> r.topOrgs[i].amount.spend >= others[j].amount.spend
    ensures var most := if limit <= 0 then 20 else if limit > 50 then 50 else limit;
      |r.topOrgs| <= most && (r.otherOrgs > 0 ==> |r.topOrgs| == most)
  {
    hide Breakdown, Tally, SumRows, Ordered, NamesIn;
    BreakdownSums(r.topOrgs + others, events, p, OrgName(), spam);
    SumRowsAppend(r.topOrgs, others);
    OrderedSplit(r.topOrgs, others);
  }

  lemma OrderedSplit(a: seq<Row>, b: seq<Row>)
    requires Ordered(a + b)
    ensures forall i, j :: 0 <= i < |a| && 0 <= j < |b| ==> a[i].amount.spend >= b[j].amount.spend
  {
    forall i, j | 0 <= i < |a| && 0 <= j < |b| ensures a[i].amount.spend >= b[j].amount.spend {
      assert (a + b)[i] == a[i] && (a + b)[|a| + j] == b[j];
    }
  }

  function SumHours(series: seq<HourRow>): Amount {
    if series == [] then NOTHING else Plus(SumHours(series[..|series| - 1]), series[|series| - 1].sums.total)
  }

  function EarlierThan(p: Pick, hours: int): Pick {
    e => p(e) && SqlHour(e.createdAt) < hours
  }

  lemma {:induction false} HoursSum(series: seq<HourRow>, events: seq<IndexEvent>, p: Pick, spam: set<string>)
    requires Hours(series, events, p, spam)
    ensures SumHours(series) == Tally(events, EarlierThan(p, |series|))
  {
    if series == [] {
      TallyNone(events, EarlierThan(p, 0));
    } else {
      var h := |series| - 1;
      HoursSum(series[..h], events, p, spam);
      SpamSplits(series[h].sums, events, AtHour(p, h), spam);
      TallySplit(events, EarlierThan(p, h), AtHour(p, h), EarlierThan(p, h + 1));
    }
  }

  /* The hour bound */

  /** The hours of the day cover every time of the selected span. */
  ghost predicate HoursCover(day: Day) {
    forall t :: day.Selected().from <= t < day.Selected().to ==> SqlHour(t) <= day.LastHour()
  }

  /** Seen in the last second of an hour before 1970, a day under way has events that SQLite puts into the hour to come. */
  predicate LateHour(day: Day) {
    day.Partial() && day.start < 0 && day.LastHour() < 23 && day.now % HOUR_MS > HOUR_MS - 999
  }

  lemma SecondsFloor(t: int)
    requires t >= 0
    ensures SqlHour(t) == t % DAY_MS / HOUR_MS
  {
    var d, r := t / DAY_MS, t % DAY_MS;
    assert t == d * DAY_MS + r;
    assert t / 1000 == d * 86400 + r / 1000;
    assert (d * 86400 + r / 1000) % 86400 == r / 1000;
  }

  lemma SecondsCeiling(t: int)
    requires t < 0
    ensures SqlHour(t) == (t + 999) % DAY_MS / HOUR_MS
  {
    var u := t + 999;
    assert -(-t / 1000) == u / 1000;
    var d, r := u / DAY_MS, u % DAY_MS;
    assert u == d * DAY_MS + r;
    assert u / 1000 == d * 86400 + r / 1000;
    assert (d * 86400 + r / 1000) % 86400 == r / 1000;
  }

  /** No time is out of bounds, except in that one case. */
  lemma HoursCoverUnlessLate(day: Day)
    requires day.Valid()
    ensures HoursCover(day) <==> !LateHour(day)
  {
    var w := day.Selected();
    if LateHour(day) {
      LateTimeIsOut(day);
    } else {
      forall t | w.from <= t < w.to ensures SqlHour(t) <= day.LastHour() { TimeIsIn(day, t); }
    }
  }

  lemma LateTimeIsOut(day: Day)
    requires day.Valid() && LateHour(day)
    ensures day.Selected().from <= day.now - 1 < day.Selected().to && SqlHour(day.now - 1) > day.LastHour()
  {
    var r := day.now % DAY_MS;
    WithinHour(r);
    assert r % HOUR_MS == day.now % HOUR_MS by { SameHour(day.now); }
    assert day.now < 0 by { StartDecides(day); }
    SecondsCeiling(day.now - 1);
    var u := day.now - 1 + 999;
    assert u == day.start + (r + 998);
    assert r + 998 < DAY_MS;
    Offset(day.start, r + 998);
    assert r + 998 >= (day.LastHour() + 1) * HOUR_MS;
  }

  lemma WithinHour(r: int)
    requires 0 <= r < DAY_MS
    ensures r == r / HOUR_MS * HOUR_MS + r % HOUR_MS && 0 <= r / HOUR_MS <= 23
  {
  }

  lemma SameHour(t: int)
    ensures t % DAY_MS % HOUR_MS == t % HOUR_MS
  {
    var d, r := t / DAY_MS, t % DAY_MS;
    HourRest(t, 24 * d + r / HOUR_MS, r % HOUR_MS);
  }

  lemma HourRest(t: int, hours: int, rest: int)
    requires t == hours * HOUR_MS + rest && 0 <= rest < HOUR_MS
    ensures t % HOUR_MS == rest
  {
  }

  lemma StartDecides(day: Day)
    requires day.Valid() && day.start < 0
    ensures day.start + DAY_MS <= 0
  {
    var d := day.start / DAY_MS;
    assert day.start == d * DAY_MS;
  }

  lemma Offset(start: int, r: int)
    requires start % DAY_MS == 0 && 0 <= r < DAY_MS
    ensures (start + r) % DAY_MS == r
  {
    var d := start / DAY_MS;
    assert start + r == d * DAY_MS + r;
  }

  lemma TimeIsIn(day: Day, t: int)
    requires day.Valid() && !LateHour(day)
    requires day.Selected().from <= t < day.Selected().to
    ensures SqlHour(t) <= day.LastHour()
  {
    if day.Partial() {
      var r := t - day.start;
      var n := day.now % DAY_MS;
      assert 0 <= r < n < DAY_MS;
      if t >= 0 {
        SecondsFloor(t);
        Offset(day.start, r);
        assert r / HOUR_MS <= n / HOUR_MS;
      } else {
        SecondsCeiling(t);
        assert day.start < 0;
        SameHour(day.now);
        WithinHour(n);
        if day.LastHour() < 23 {
          assert r + 999 < (day.LastHour() + 1) * HOUR_MS;
          Offset(day.start, r + 999);
        }
      }
    }
  }

  function EventAt(t: int, org: string): IndexEvent {
    IndexEvent(org, Usage("", "", "", "", "", 0, 0, 0, 0, 1.0, 0), t)
  }

  /** The hourly series makes up the day's total, whatever the events are. */
  lemma HoursConserve(day: Day, events: seq<IndexEvent>, orgs: set<string>, series: seq<HourRow>, spam: set<string>)
    requires day.Valid() && !LateHour(day)
    requires |series| == day.LastHour() + 1 && Hours(series, events, InOrgs(orgs, day.Selected()), spam)
    ensures SumHours(series) == Tally(events, InOrgs(orgs, day.Selected()))
  {
    var p := InOrgs(orgs, day.Selected());
    HoursCoverUnlessLate(day);
    HoursSum(series, events, p, spam);
    hide Hours, LateHour, SqlHour;
    TallySame(events, EarlierThan(p, |series|), p);
  }

  /** Or else some event is dropped from it. */
  lemma LateHourLoses(day: Day, org: string, series: seq<HourRow>, spam: set<string>)
    requires day.Valid() && LateHour(day)
    requires |series| == day.LastHour() + 1 && Hours(series, [EventAt(day.now - 1, org)], InOrgs({org}, day.Selected()), spam)
    ensures SumHours(series) != Tally([EventAt(day.now - 1, org)], InOrgs({org}, day.Selected()))
  {
    var e, p := EventAt(day.now - 1, org), InOrgs({org}, day.Selected());
    LateTimeIsOut(day);
    hide Hours, LateHour, SqlHour, SumHours, Tally;
    SeriesMisses(series, e, p, spam);
  }

  lemma SeriesMisses(series: seq<HourRow>, e: IndexEvent, p: Pick, spam: set<string>)
    requires Hours(series, [e], p, spam) && p(e) && SqlHour(e.createdAt) >= |series|
    ensures SumHours(series) != Tally([e], p)
  {
    HoursSum(series, [e], p, spam);
    NothingEarlier(e, p, |series|);
    OneCounts(e, p);
  }

  lemma NothingEarlier(e: IndexEvent, p: Pick, n: nat)
    requires SqlHour(e.createdAt) >= n
    ensures Tally([e], EarlierThan(p, n)) == NOTHING
  {
    TallyNone([e], EarlierThan(p, n));
  }

  lemma OneCounts(e: IndexEvent, p: Pick)
    requires p(e)
    ensures Tally([e], p) != NOTHING
  {
    TallyCounts([e], p);
    assert e in [e];
  }

  /**
   * The events that a report is on: those of the organisations in the 24 hours from the start of the day, or up to now
   * if the day is under way, and for comparison those in the 24 hours before.
   */
  lemma DaysAreExact(day: Day, orgs: set<string>, e: IndexEvent)
    requires day.Valid()
    ensures InOrgs(orgs, day.Selected())(e) <==>
      e.orgId in orgs && day.start <= e.createdAt < day.start + 86_400_000
      && (day.start <= day.now < day.start + 86_400_000 ==> e.createdAt < day.now)
    ensures InOrgs(orgs, day.Previous())(e) <==> e.orgId in orgs && day.start - 86_400_000 <= e.createdAt < day.start
  {
    assert day.Partial() <==> day.start <= day.now < day.start + DAY_MS by { StartIsUnderWay(day); }
  }

  lemma StartIsUnderWay(day: Day)
    requires day.Valid()
    ensures day.Partial() <==> day.start <= day.now < day.start + DAY_MS
  {
    var rest := day.now % DAY_MS;
    var k, n := day.start / DAY_MS, day.now / DAY_MS;
    assert day.start == k * DAY_MS && day.now == n * DAY_MS + rest;
  }

  /** A row of models counts the events whose model bears its name once trimmed; events without a model count as "unknown". */
  lemma ModelRowsAreExact(r: Row, events: seq<IndexEvent>, p: Pick)
    requires IsRow(r, events, p, ModelName(), {})
    ensures r.amount == Tally(events, (e: IndexEvent) =>
      p(e) && r.name == if TrimSpace(e.usage.model) == "" then "unknown" else TrimSpace(e.usage.model))
  {
    hide Tally, TrimSpace;
    TallySame(events, Named(p, ModelName(), {r.name}), (e: IndexEvent) =>
      p(e) && r.name == if TrimSpace(e.usage.model) == "" then "unknown" else TrimSpace(e.usage.model));
  }

  /** The whole report adds up. */
  lemma ReportAddsUp(r: Report, events: seq<IndexEvent>, orgs: set<string>, spam: set<string>, day: Day, limit: int)
    requires day.Valid() && Reports(r, events, orgs, spam, day, limit)
    ensures var total := Tally(events, InOrgs(orgs, day.Selected()));
      && r.day.total == total
      && SumRows(r.models) == total
      && (!LateHour(day) ==> SumHours(r.hours) == total)
      && SumRows(r.topOrgs).spend + r.otherSpend == total.spend
      && (var most := if limit <= 0 then 20 else if limit > 50 then 50 else limit;
          |r.topOrgs| <= most && (r.otherOrgs > 0 ==> |r.topOrgs| == most))
      && r.day.spamSpend + r.day.nonSpamSpend == total.spend
      && r.previous.spamSpend + r.previous.nonSpamSpend == r.previous.total.spend
      && r.previous.total == Tally(events, InOrgs(orgs, day.Previous()))
      && forall h :: 0 <= h < |r.hours| ==> r.hours[h].sums.spamSpend + r.hours[h].sums.nonSpamSpend == r.hours[h].sums.total.spend
  {
    hide Breakdown, Summarizes, Tally, TopAndOthers, Ordered, LateHour;
    var p := InOrgs(orgs, day.Selected());
    SpamSplits(r.day, events, p, spam);
    SpamSplits(r.previous, events, InOrgs(orgs, day.Previous()), spam);
    BreakdownSums(r.models, events, p, ModelName(), {});
    var others :| TopAndOthers(r, others, events, p, spam, limit);
    TopAndOthersSum(r, others, events, p, spam, limit);
    if !LateHour(day) {
      HoursConserve(day, events, orgs, r.hours, spam);
    }
    forall h | 0 <= h < |r.hours| ensures r.hours[h].sums.spamSpend + r.hours[h].sums.nonSpamSpend == r.hours[h].sums.total.spend {
      SpamSplits(r.hours[h].sums, events, AtHour(p, h), spam);
    }
  }
}
