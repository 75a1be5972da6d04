/** Computing the daily report chunk by chunk from grouped queries (internal/state/usage_store.go). */
module DailyReport {
  import opened Prelude
  import opened Text
  import opened UsageStore
  import opened DailySpend
  import opened DailyAnalytics

  function Set(ids: seq<string>): set<string> {
    set o | o in ids
  }

  lemma SetAppend(ids: seq<string>, id: string)
    ensures Set(ids + [id]) == Set(ids) + {id}
  {
  }

  /** The organisations a request asks for: trimmed, and without blanks. */
  function Requested(raw: seq<string>): set<string> {
    set o | o in raw && TrimSpace(o) != "" :: TrimSpace(o)
  }

  lemma RequestedAppend(raw: seq<string>, o: string)
    ensures Requested(raw + [o]) == Requested(raw) + if TrimSpace(o) != "" then {TrimSpace(o)} else {}
  {
    hide TrimSpace;
    assert o in raw + [o];
    forall x | x in Requested(raw) ensures x in Requested(raw + [o]) {
      var y :| y in raw && TrimSpace(y) != "" && TrimSpace(y) == x;
      assert y in raw + [o];
    }
  }

  /** Where a name is first requested. */
  function FirstAt(raw: seq<string>, id: string): (k: nat)
    ensures k <= |raw| && (k < |raw| ==> TrimSpace(raw[k]) == id)
    ensures forall m :: 0 <= m < k ==> TrimSpace(raw[m]) != id
  {
    if raw == [] then 0
    else
      var k := FirstAt(raw[..|raw| - 1], id);
      if k < |raw| - 1 then k
      else if TrimSpace(raw[|raw| - 1]) == id then |raw| - 1
      else |raw|
  }

  /** The names stand in the order of their first requests. */
  ghost predicate InOrder(ids: seq<string>, raw: seq<string>) {
    forall j, k :: 0 <= j < k < |ids| ==> FirstAt(raw, ids[j]) < FirstAt(raw, ids[k])
  }

  lemma IsRequested(raw: seq<string>, n: nat, m: nat)
    requires m < n <= |raw| && TrimSpace(raw[m]) != ""
    ensures TrimSpace(raw[m]) in Requested(raw[..n])
  {
    hide TrimSpace;
    assert raw[..n][m] in raw[..n];
  }

  lemma NextInOrder(ids: seq<string>, raw: seq<string>, i: nat)
    requires i < |raw| && InOrder(ids, raw) && Set(ids) == Requested(raw[..i])
    requires forall k :: 0 <= k < |ids| ==> FirstAt(raw, ids[k]) < i
    requires TrimSpace(raw[i]) != "" && TrimSpace(raw[i]) !in ids
    ensures FirstAt(raw, TrimSpace(raw[i])) == i && InOrder(ids + [TrimSpace(raw[i])], raw)
  {
    var id, first := TrimSpace(raw[i]), FirstAt(raw, TrimSpace(raw[i]));
    assert first <= i && TrimSpace(raw[first]) == id;
    hide TrimSpace, Requested, FirstAt;
    assert first == i by {
      if first < i { IsRequested(raw, i, first); }
    }
  }

  method NormalizeOrgIds(raw: seq<string>) returns (ids: seq<string>)
    ensures Distinct(ids) && InOrder(ids, raw)
    ensures Set(ids) == Requested(raw)
  {
    hide Requested, TrimSpace, InOrder, FirstAt;
    ids := [];
    assert Set([]) == Requested(raw[..0]) by { NothingRequested(); }
    assert InOrder([], raw) by { NothingOrdered(raw); }
    var i := 0;
    while i < |raw|
      invariant i <= |raw|
      invariant Distinct(ids) && InOrder(ids, raw)
      invariant forall k :: 0 <= k < |ids| ==> FirstAt(raw, ids[k]) < i
      invariant Set(ids) == Requested(raw[..i])
    {
      var id := TrimSpace(raw[i]);
      assert raw[..i + 1] == raw[..i] + [raw[i]];
      RequestedAppend(raw[..i], raw[i]);
      if id != "" && id !in ids {
        NextInOrder(ids, raw, i);
        SetAppend(ids, id);
        ids := ids + [id];
      }
      i := i + 1;
    }
    assert raw[..i] == raw;
  }

  lemma NothingOrdered(raw: seq<string>)
    ensures InOrder([], raw)
  {
  }

  lemma NothingRequested()
    ensures Requested([]) == {} == Set([])
  {
  }

  /* Adding one row of a grouped query */

  lemma CellStep(events: seq<IndexEvent>, was: Pick, now: Pick, row: Pick, org: string, spam: set<string>, which: Option<bool>)
    requires Joins(events, was, row, now)
    requires forall e :: e in events && row(e) ==> e.orgId == org
    ensures Tally(events, Cell(now, spam, which)) ==
      Plus(Tally(events, Cell(was, spam, which)),
           if which.None? || (org in spam) == which.value then Tally(events, row) else NOTHING)
  {
    if which.None? || (org in spam) == which.value {
      TallySplit(events, Cell(was, spam, which), row, Cell(now, spam, which));
    } else {
      TallySame(events, Cell(was, spam, which), Cell(now, spam, which));
    }
  }

  lemma SummaryStep(s: Summary, events: seq<IndexEvent>, was: Pick, now: Pick, row: Pick, org: string, spam: set<string>)
    requires Summarizes(s, events, was, spam)
    requires Joins(events, was, row, now)
    requires forall e :: e in events && row(e) ==> e.orgId == org
    ensures Summarizes(AddToSummary(s, Tally(events, row), org in spam), events, now, spam)
  {
    CellStep(events, was, now, row, org, spam, None);
    CellStep(events, was, now, row, org, spam, Some(true));
    CellStep(events, was, now, row, org, spam, Some(false));
    hide Tally, Cell, Joins;
  }

  lemma SummarySame(s: Summary, events: seq<IndexEvent>, p: Pick, q: Pick, spam: set<string>)
    requires Summarizes(s, events, p, spam)
    requires forall e :: e in events ==> (p(e) <==> q(e))
    ensures Summarizes(s, events, q, spam)
  {
    TallySame(events, Cell(p, spam, None), Cell(q, spam, None));
    TallySame(events, Cell(p, spam, Some(true)), Cell(q, spam, Some(true)));
    TallySame(events, Cell(p, spam, Some(false)), Cell(q, spam, Some(false)));
  }

  lemma NothingSummarized(events: seq<IndexEvent>, p: Pick, spam: set<string>)
    requires forall e :: e in events ==> !p(e)
    ensures Summarizes(EMPTY_SUMMARY, events, p, spam)
  {
    TallyNone(events, Cell(p, spam, None));
    TallyNone(events, Cell(p, spam, Some(true)));
    TallyNone(events, Cell(p, spam, Some(false)));
  }

  /** Adds the rows of a query grouped by organisation to a summary, in any order. */
  method AddSummaryRows(events: seq<IndexEvent>, p: Pick, spam: set<string>, ghost before: Pick, ghost both: Pick, start: Summary)
    returns (s: Summary)
    requires Joins(events, before, p, both)
    requires Summarizes(start, events, before, spam)
    ensures Summarizes(s, events, both, spam)
  {
    hide Summarizes, Named, NamesIn, Joins, Tally;
    s := start;
    var left := NamesIn(events, p, OrgName());
    ghost var done: set<string> := {};
    SummarySame(s, events, before, Either(before, Named(p, OrgName(), {})), spam) by { NoneNamed(events, before, p); }
    while left != {}
      invariant left + done == NamesIn(events, p, OrgName()) && left !! done
      invariant Summarizes(s, events, Either(before, Named(p, OrgName(), done)), spam)
      decreases left
    {
      var org :| org in left;
      var amount := Tally(events, Named(p, OrgName(), {org}));
      OrgRowJoins(events, before, p, both, done, org);
      SummaryStep(s, events, Either(before, Named(p, OrgName(), done)), Either(before, Named(p, OrgName(), done + {org})),
        Named(p, OrgName(), {org}), org, spam);
      s := Summary(Plus(s.total, amount), s.spamSpend, s.nonSpamSpend);
      if org in spam {
        s := s.(spamSpend := s.spamSpend + amount.spend);
      } else {
        s := s.(nonSpamSpend := s.nonSpamSpend + amount.spend);
      }
      left, done := left - {org}, done + {org};
    }
    SummarySame(s, events, Either(before, Named(p, OrgName(), done)), both, spam) by { AllNamed(events, before, p, both); }
  }

  lemma NoneNamed(events: seq<IndexEvent>, before: Pick, p: Pick)
    ensures forall e :: e in events ==> (before(e) <==> Either(before, Named(p, OrgName(), {}))(e))
  {
  }

  lemma AllNamed(events: seq<IndexEvent>, before: Pick, p: Pick, both: Pick)
    requires Joins(events, before, p, both)
    ensures forall e :: e in events ==> (Either(before, Named(p, OrgName(), NamesIn(events, p, OrgName())))(e) <==> both(e))
  {
  }

  lemma OrgRowJoins(events: seq<IndexEvent>, before: Pick, p: Pick, both: Pick, done: set<string>, org: string)
    requires Joins(events, before, p, both) && org !in done
    ensures Joins(events, Either(before, Named(p, OrgName(), done)), Named(p, OrgName(), {org}), Either(before, Named(p, OrgName(), done + {org})))
    ensures forall e :: e in events && Named(p, OrgName(), {org})(e) ==> e.orgId == org
  {
  }

  /* Hours */

  type HourKey = (int, string)

  function Keyed(p: Pick, keys: set<HourKey>): Pick {
    e => p(e) && (SqlHour(e.createdAt), e.orgId) in keys
  }

  function KeysIn(events: seq<IndexEvent>, p: Pick): set<HourKey> {
    set e | e in events && p(e) :: (SqlHour(e.createdAt), e.orgId)
  }

  lemma KeyRow(events: seq<IndexEvent>, before: Pick, p: Pick, both: Pick, done: set<HourKey>, key: HourKey, h: int)
    requires Joins(events, before, p, both) && key !in done
    ensures var was, now := AtHour(Either(before, Keyed(p, done)), h), AtHour(Either(before, Keyed(p, done + {key})), h);
      if h == key.0 then Joins(events, was, Keyed(p, {key}), now) else forall e :: e in events ==> (was(e) <==> now(e))
    ensures forall e :: e in events && Keyed(p, {key})(e) ==> e.orgId == key.1
  {
    hide SqlHour;
  }

  lemma HourStep(sums: Summary, events: seq<IndexEvent>, before: Pick, p: Pick, both: Pick, done: set<HourKey>, key: HourKey, h: int, spam: set<string>)
    requires Joins(events, before, p, both) && key !in done
    requires Summarizes(sums, events, AtHour(Either(before, Keyed(p, done)), h), spam)
    ensures Summarizes(if h == key.0 then AddToSummary(sums, Tally(events, Keyed(p, {key})), key.1 in spam) else sums,
      events, AtHour(Either(before, Keyed(p, done + {key})), h), spam)
  {
    hide Tally, Keyed, Joins, Summarizes, AtHour, Either;
    KeyRow(events, before, p, both, done, key, h);
    var was, now := AtHour(Either(before, Keyed(p, done)), h), AtHour(Either(before, Keyed(p, done + {key})), h);
    if h == key.0 {
      SummaryStep(sums, events, was, now, Keyed(p, {key}), key.1, spam);
    } else {
      SummarySame(sums, events, was, now, spam);
    }
  }

  lemma HoursStep(series: seq<HourRow>, events: seq<IndexEvent>, before: Pick, p: Pick, both: Pick, done: set<HourKey>, key: HourKey, spam: set<string>)
    requires Joins(events, before, p, both) && key !in done
    requires Hours(series, events, Either(before, Keyed(p, done)), spam)
    ensures Hours(
      if 0 <= key.0 < |series| then
        series[key.0 := HourRow(key.0, AddToSummary(series[key.0].sums, Tally(events, Keyed(p, {key})), key.1 in spam))]
      else series,
      events, Either(before, Keyed(p, done + {key})), spam)
  {
    hide Tally, Keyed, Joins, Summarizes, AtHour, Either, AddToSummary;
    forall h | 0 <= h < |series|
      ensures Summarizes(if h == key.0 then AddToSummary(series[h].sums, Tally(events, Keyed(p, {key})), key.1 in spam) else series[h].sums,
        events, AtHour(Either(before, Keyed(p, done + {key})), h), spam)
    {
      HourStep(series[h].sums, events, before, p, both, done, key, h, spam);
    }
  }

  lemma HoursSame(series: seq<HourRow>, events: seq<IndexEvent>, p: Pick, q: Pick, spam: set<string>)
    requires Hours(series, events, p, spam)
    requires forall e :: e in events ==> (p(e) <==> q(e))
    ensures Hours(series, events, q, spam)
  {
    hide Summarizes;
    forall h | 0 <= h < |series| ensures Summarizes(series[h].sums, events, AtHour(q, h), spam) {
      SummarySame(series[h].sums, events, AtHour(p, h), AtHour(q, h), spam);
    }
  }

  lemma NothingInHours(series: seq<HourRow>, events: seq<IndexEvent>, p: Pick, spam: set<string>)
    requires forall h :: 0 <= h < |series| ==> series[h] == HourRow(h, EMPTY_SUMMARY)
    requires forall e :: e in events ==> !p(e)
    ensures Hours(series, events, p, spam)
  {
    hide Summarizes;
    forall h | 0 <= h < |series| ensures Summarizes(EMPTY_SUMMARY, events, AtHour(p, h), spam) {
      NothingSummarized(events, AtHour(p, h), spam);
    }
  }

  lemma NoneKeyed(events: seq<IndexEvent>, before: Pick, p: Pick)
    ensures forall e :: e in events ==> (before(e) <==> Either(before, Keyed(p, {}))(e))
  {
  }

  lemma AllKeyed(events: seq<IndexEvent>, before: Pick, p: Pick, both: Pick)
    requires Joins(events, before, p, both)
    ensures forall e :: e in events ==> (Either(before, Keyed(p, KeysIn(events, p)))(e) <==> both(e))
  {
    hide SqlHour;
  }

  /** Adds the rows of a query grouped by hour and organisation to the series; rows beyond its end are skipped. */
  method AddHourRows(events: seq<IndexEvent>, p: Pick, spam: set<string>, ghost before: Pick, ghost both: Pick, start: seq<HourRow>)
    returns (series: seq<HourRow>)
    requires Joins(events, before, p, both)
    requires Hours(start, events, before, spam)
    ensures |series| == |start| && Hours(series, events, both, spam)
  {
    hide Hours, Keyed, KeysIn, Joins, Tally;
    series := start;
    var left := KeysIn(events, p);
    ghost var done: set<HourKey> := {};
    HoursSame(series, events, before, Either(before, Keyed(p, {})), spam) by { NoneKeyed(events, before, p); }
    while left != {}
      invariant left + done == KeysIn(events, p) && left !! done
      invariant |series| == |start| && Hours(series, events, Either(before, Keyed(p, done)), spam)
      decreases left
    {
      var key :| key in left;
      var hour, amount := key.0, Tally(events, Keyed(p, {key}));
      HoursStep(series, events, before, p, both, done, key, spam);
      if 0 <= hour < |series| {
        series := series[hour := HourRow(hour, AddToSummary(series[hour].sums, amount, key.1 in spam))];
      }
      left, done := left - {key}, done + {key};
    }
    HoursSame(series, events, Either(before, Keyed(p, done)), both, spam) by { AllKeyed(events, before, p, both); }
  }

  /* Rows of models and organisations */

  lemma MoreRow(rows: seq<Row>, r: Row)
    ensures forall x :: multiset(rows + [r])[x] == multiset(rows)[x] + if x == r then 1 else 0
  {
  }

  method ModelRows(totals: map<string, Amount>, ghost events: seq<IndexEvent>, ghost p: Pick) returns (rows: seq<Row>)
    requires Totalled(totals, events, p, ModelName())
    ensures Breakdown(rows, events, p, ModelName(), {}) && Ordered(rows)
  {
    hide Tally, NamesIn, Named;
    rows := [];
    var left := totals.Keys;
    ghost var done: set<string> := {};
    while left != {}
      invariant left + done == totals.Keys && left !! done
      invariant forall r: Row :: multiset(rows)[r] == if r.name in done && r == Row(r.name, totals[r.name], false) then 1 else 0
      decreases left
    {
      var name :| name in left;
      var row := Row(name, totals[name], false);
      MoreRow(rows, row);
      rows := rows + [row];
      left, done := left - {name}, done + {name};
    }
    SortOrders(rows);
    rows := Sort(rows);
  }

  lemma OneOrg(events: seq<IndexEvent>, orgs: set<string>, w: Span, o: string)
    requires o in orgs
    ensures Tally(events, Named(InOrgs(orgs, w), OrgName(), {o})) == Tally(events, InOrgs({o}, w))
  {
    TallySame(events, Named(InOrgs(orgs, w), OrgName(), {o}), InOrgs({o}, w));
  }

  lemma OrgOccurs(events: seq<IndexEvent>, orgs: set<string>, w: Span, o: string)
    requires o in orgs
    ensures Tally(events, InOrgs({o}, w)).requests > 0 <==> o in NamesIn(events, InOrgs(orgs, w), OrgName())
  {
    TallyCounts(events, InOrgs({o}, w));
    hide Tally;
    if e :| e in events && InOrgs({o}, w)(e) {
      assert InOrgs(orgs, w)(e) && OrgName()(e) == o;
    }
    if o in NamesIn(events, InOrgs(orgs, w), OrgName()) {
      var e :| e in events && InOrgs(orgs, w)(e) && OrgName()(e) == o;
      assert InOrgs({o}, w)(e);
    }
  }

  lemma IdleOrg(events: seq<IndexEvent>, w: Span, o: string)
    requires Tally(events, InOrgs({o}, w)).requests <= 0
    ensures Tally(events, InOrgs({o}, w)) == NOTHING
  {
    TallyCounts(events, InOrgs({o}, w));
    TallyNone(events, InOrgs({o}, w));
  }

  lemma OrgsJoin(events: seq<IndexEvent>, a: set<string>, b: set<string>, w: Span)
    requires a !! b
    ensures Joins(events, InOrgs(a, w), InOrgs(b, w), InOrgs(a + b, w))
  {
  }

  /** One more organisation leaves the rows of the others as they are. */
  lemma RowsStay(r: Row, events: seq<IndexEvent>, orgs: set<string>, w: Span, o: string, spam: set<string>)
    requires o !in orgs
    ensures IsRow(r, events, InOrgs(orgs + {o}, w), OrgName(), spam) <==>
      IsRow(r, events, InOrgs(orgs, w), OrgName(), spam)
      || (Tally(events, InOrgs({o}, w)).requests > 0 && r == Row(o, Tally(events, InOrgs({o}, w)), o in spam))
    ensures IsRow(r, events, InOrgs(orgs, w), OrgName(), spam) ==> r.name != o
  {
    OneOrg(events, orgs + {o}, w, o);
    OrgOccurs(events, orgs + {o}, w, o);
    NamesOneMore(events, orgs, w, o);
    if r.name in orgs {
      OneOrg(events, orgs, w, r.name);
      OneOrg(events, orgs + {o}, w, r.name);
    }
    hide Tally, NamesIn, Named, InOrgs;
  }

  lemma RowsOneOrgMore(rows: seq<Row>, events: seq<IndexEvent>, orgs: set<string>, w: Span, o: string, spam: set<string>)
    requires o !in orgs && Breakdown(rows, events, InOrgs(orgs, w), OrgName(), spam)
    ensures var amount := Tally(events, InOrgs({o}, w));
      Breakdown(if amount.requests <= 0 then rows else rows + [Row(o, amount, o in spam)],
        events, InOrgs(orgs + {o}, w), OrgName(), spam)
  {
    hide Tally, NamesIn, Named, InOrgs, IsRow;
    var amount := Tally(events, InOrgs({o}, w));
    MoreRow(rows, Row(o, amount, o in spam));
    forall r: Row { RowsStay(r, events, orgs, w, o, spam); }
  }

  lemma NamesOneMore(events: seq<IndexEvent>, orgs: set<string>, w: Span, o: string)
    requires o !in orgs
    ensures NamesIn(events, InOrgs(orgs, w), OrgName()) <= orgs
    ensures NamesIn(events, InOrgs(orgs + {o}, w), OrgName()) - {o} == NamesIn(events, InOrgs(orgs, w), OrgName())
  {
  }

  lemma ActiveOneMore(events: seq<IndexEvent>, orgs: set<string>, w: Span, o: string)
    requires o !in orgs
    ensures NamesIn(events, InOrgs(orgs + {o}, w), OrgName()) ==
      NamesIn(events, InOrgs(orgs, w), OrgName()) + if Tally(events, InOrgs({o}, w)).requests > 0 then {o} else {}
    ensures o !in NamesIn(events, InOrgs(orgs, w), OrgName())
  {
    NamesOneMore(events, orgs, w, o);
    OrgOccurs(events, orgs + {o}, w, o);
    hide Tally, NamesIn, InOrgs;
  }

  /* The report */

  datatype OrgSums = OrgSums(day: Summary, rows: seq<Row>, spamOrgs: int, nonSpamOrgs: int)

  ghost predicate OrgsSummed(s: OrgSums, events: seq<IndexEvent>, orgs: set<string>, w: Span, spam: set<string>) {
    && Summarizes(s.day, events, InOrgs(orgs, w), spam)
    && Breakdown(s.rows, events, InOrgs(orgs, w), OrgName(), spam)
    && s.spamOrgs == |NamesIn(events, InOrgs(orgs, w), OrgName()) * spam|
    && s.spamOrgs + s.nonSpamOrgs == |s.rows|
  }

  lemma NoOrgsSummed(events: seq<IndexEvent>, w: Span, spam: set<string>)
    ensures OrgsSummed(OrgSums(EMPTY_SUMMARY, [], 0, 0), events, {}, w, spam)
  {
    NothingSummarized(events, InOrgs({}, w), spam);
    assert NamesIn(events, InOrgs({}, w), OrgName()) == {};
  }

  /** What the loop over the organisations adds for one of them. */
  function AddOrgRow(s: OrgSums, o: string, amount: Amount, spam: set<string>): OrgSums {
    if amount.requests <= 0 then s
    else OrgSums(AddToSummary(s.day, amount, o in spam), s.rows + [Row(o, amount, o in spam)],
                 s.spamOrgs + (if o in spam then 1 else 0), s.nonSpamOrgs + (if o in spam then 0 else 1))
  }

  lemma {:induction false} OrgSummed(s: OrgSums, events: seq<IndexEvent>, orgs: set<string>, w: Span, spam: set<string>, o: string)
    requires o !in orgs && OrgsSummed(s, events, orgs, w, spam)
    ensures OrgsSummed(AddOrgRow(s, o, Tally(events, InOrgs({o}, w)), spam), events, orgs + {o}, w, spam)
  {
    hide Tally, NamesIn, InOrgs, Summarizes, Breakdown, Joins, AddToSummary;
    OrgsJoin(events, orgs, {o}, w);
    OnlyOwn(events, w, o);
    SummaryStep(s.day, events, InOrgs(orgs, w), InOrgs(orgs + {o}, w), InOrgs({o}, w), o, spam);
    RowsOneOrgMore(s.rows, events, orgs, w, o, spam);
    ActiveOneMore(events, orgs, w, o);
    SpamOneMore(NamesIn(events, InOrgs(orgs, w), OrgName()), o, spam);
    if Tally(events, InOrgs({o}, w)).requests <= 0 {
      IdleOrg(events, w, o);
      NothingToAdd(s.day, o in spam);
    }
  }

  lemma NothingToAdd(s: Summary, isSpam: bool)
    ensures AddToSummary(s, NOTHING, isSpam) == s
  {
  }

  lemma SpamOneMore(active: set<string>, o: string, spam: set<string>)
    requires o !in active
    ensures |(active + {o}) * spam| == |active * spam| + if o in spam then 1 else 0
    ensures active + {} == active
  {
    assert (active + {o}) * spam == if o in spam then active * spam + {o} else active * spam;
  }

  lemma OnlyOwn(events: seq<IndexEvent>, w: Span, o: string)
    ensures forall e :: e in events && InOrgs({o}, w)(e) ==> e.orgId == o
  {
  }

  lemma TotalOf(totals: map<string, Amount>, events: seq<IndexEvent>, orgs: set<string>, w: Span, o: string)
    requires o in orgs && Totalled(totals, events, InOrgs(orgs, w), OrgName())
    ensures Get(totals, o) == Tally(events, InOrgs({o}, w))
  {
    OneOrg(events, orgs, w, o);
    hide Tally, InOrgs, NamesIn, Named;
  }

  method SumOrgs(orgIds: seq<string>, totals: map<string, Amount>, spam: set<string>, ghost events: seq<IndexEvent>, ghost w: Span)
    returns (s: OrgSums)
    requires Distinct(orgIds)
    requires Totalled(totals, events, InOrgs(Set(orgIds), w), OrgName())
    ensures OrgsSummed(s, events, Set(orgIds), w, spam)
  {
    hide Totalled, OrgsSummed, Tally, InOrgs;
    s := OrgSums(EMPTY_SUMMARY, [], 0, 0);
    NoOrgsSummed(events, w, spam);
    assert Set(orgIds[..0]) == {};
    var i := 0;
    while i < |orgIds|
      invariant i <= |orgIds|
      invariant OrgsSummed(s, events, Set(orgIds[..i]), w, spam)
    {
      var o := orgIds[i];
      TotalOf(totals, events, Set(orgIds), w, o);
      OrgSummed(s, events, Set(orgIds[..i]), w, spam, o);
      SetAppend(orgIds[..i], o);
      assert orgIds[..i + 1] == orgIds[..i] + [o];
      i := i + 1;
      var amount := Get(totals, o);
      if o !in totals || amount.requests <= 0 { continue; }
      var day := Summary(Plus(s.day.total, amount), s.day.spamSpend, s.day.nonSpamSpend);
      if o in spam {
        s := OrgSums(day.(spamSpend := day.spamSpend + amount.spend), s.rows + [Row(o, amount, true)], s.spamOrgs + 1, s.nonSpamOrgs);
      } else {
        s := OrgSums(day.(nonSpamSpend := day.nonSpamSpend + amount.spend), s.rows + [Row(o, amount, false)], s.spamOrgs, s.nonSpamOrgs + 1);
      }
    }
    assert orgIds[..i] == orgIds;
  }

  /** What has been collected from the chunks so far. */
  datatype Collected = Collected(perOrg: map<string, Amount>, previous: Summary, hours: seq<HourRow>, models: map<string, Amount>)

  ghost predicate Collects(c: Collected, events: seq<IndexEvent>, orgs: set<string>, day: Day, spam: set<string>) {
    && Totalled(c.perOrg, events, InOrgs(orgs, day.Selected()), OrgName())
    && Summarizes(c.previous, events, InOrgs(orgs, day.Previous()), spam)
    && |c.hours| == day.LastHour() + 1 && Hours(c.hours, events, InOrgs(orgs, day.Selected()), spam)
    && Totalled(c.models, events, InOrgs(orgs, day.Selected()), ModelName())
  }

  function EmptyHours(n: nat): seq<HourRow> {
    seq(n, h => HourRow(h, EMPTY_SUMMARY))
  }

  lemma NothingTotalled(events: seq<IndexEvent>, p: Pick, name: IndexEvent -> string)
    requires forall e :: e in events ==> !p(e)
    ensures Totalled(map[], events, p, name)
  {
    forall n ensures Tally(events, Named(p, name, {n})) == NOTHING { TallyNone(events, Named(p, name, {n})); }
    assert NamesIn(events, p, name) == {};
  }

  lemma NothingCollected(events: seq<IndexEvent>, day: Day, spam: set<string>)
    ensures Collects(Collected(map[], EMPTY_SUMMARY, EmptyHours(day.LastHour() + 1), map[]), events, {}, day, spam)
  {
    var p := InOrgs({}, day.Selected());
    NothingTotalled(events, p, OrgName());
    NothingTotalled(events, p, ModelName());
    NothingSummarized(events, InOrgs({}, day.Previous()), spam);
    NothingInHours(EmptyHours(day.LastHour() + 1), events, p, spam);
    hide Totalled, Summarizes, Hours;
  }

  lemma OrgsRename(events: seq<IndexEvent>)
    ensures Renames(events, OrgName(), (s: string) => s, OrgName())
  {
  }

  lemma ModelsRename(events: seq<IndexEvent>)
    ensures Renames(events, RawModel(), (s: string) => NormalModel(s), ModelName())
  {
  }

  method AddChunk(c: Collected, events: seq<IndexEvent>, chunk: seq<string>, day: Day, spam: set<string>, ghost orgs: set<string>)
    returns (next: Collected)
    requires Collects(c, events, orgs, day, spam) && orgs !! Set(chunk)
    ensures Collects(next, events, orgs + Set(chunk), day, spam)
  {
    hide Totalled, Summarizes, Hours, Renames, Joins, InOrgs;
    var some := Set(chunk);
    var w, before := day.Selected(), day.Previous();
    OrgsJoin(events, orgs, some, w);
    OrgsJoin(events, orgs, some, before);
    OrgsRename(events);
    ModelsRename(events);
    ghost var all := orgs + some;
    var perOrg := AddRows(events, InOrgs(some, w), OrgName(), (s: string) => s, OrgName(), InOrgs(orgs, w), InOrgs(all, w), c.perOrg);
    var previous := AddSummaryRows(events, InOrgs(some, before), spam, InOrgs(orgs, before), InOrgs(all, before), c.previous);
    var hours := AddHourRows(events, InOrgs(some, w), spam, InOrgs(orgs, w), InOrgs(all, w), c.hours);
    var models := AddRows(events, InOrgs(some, w), RawModel(), (s: string) => NormalModel(s), ModelName(), InOrgs(orgs, w), InOrgs(all, w), c.models);
    next := Collected(perOrg, previous, hours, models);
  }

  method Collect(events: seq<IndexEvent>, orgIds: seq<string>, day: Day, spam: set<string>) returns (c: Collected)
    requires Distinct(orgIds)
    ensures Collects(c, events, Set(orgIds), day, spam)
  {
    hide Collects;
    c := Collected(map[], EMPTY_SUMMARY, EmptyHours(day.LastHour() + 1), map[]);
    NothingCollected(events, day, spam);
    var start := 0;
    assert Set(orgIds[..0]) == {};
    while start < |orgIds|
      invariant start <= |orgIds|
      invariant Collects(c, events, Set(orgIds[..start]), day, spam)
    {
      var end := if start + CHUNK > |orgIds| then |orgIds| else start + CHUNK;
      var chunk := orgIds[start..end];
      ChunkIsNew(orgIds, start, end);
      c := AddChunk(c, events, chunk, day, spam, Set(orgIds[..start]));
      start := end;
    }
    assert orgIds[..start] == orgIds;
  }

  lemma ChunkIsNew(orgIds: seq<string>, start: nat, end: nat)
    requires start <= end <= |orgIds| && Distinct(orgIds)
    ensures Set(orgIds[..start]) !! Set(orgIds[start..end])
    ensures Set(orgIds[..end]) == Set(orgIds[..start]) + Set(orgIds[start..end])
  {
    assert orgIds[..end] == orgIds[..start] + orgIds[start..end];
    assert forall i, k :: 0 <= i < start && 0 <= k < end - start ==> orgIds[..start][i] != orgIds[start..end][k];
  }

  method GetDailySpendAnalytics(events: seq<IndexEvent>, spam: set<string>, requested: seq<string>, limit: int, day: Day)
    returns (r: Report)
    ensures Reports(r, events, Requested(requested), spam, day, limit)
  {
    hide Collects, Requested, OrgsSummed, Breakdown, Ordered, Before, InOrgs, Totalled, Summarizes, Hours;
    var orgIds := NormalizeOrgIds(requested);
    var c := Collect(events, orgIds, day, spam);
    assert Totalled(c.models, events, InOrgs(Set(orgIds), day.Selected()), ModelName()) by { CollectedParts(c, events, Set(orgIds), day, spam); }
    assert Totalled(c.perOrg, events, InOrgs(Set(orgIds), day.Selected()), OrgName()) by { CollectedParts(c, events, Set(orgIds), day, spam); }
    var s := SumOrgs(orgIds, c.perOrg, spam, events, day.Selected());
    SortOrders(s.rows);
    var orgRows := Sort(s.rows);
    var top := if |orgRows| < TopLimit(limit) then |orgRows| else TopLimit(limit);
    var otherSpend := SumSpend(orgRows[top..]);
    var models := ModelRows(c.models, events, InOrgs(Set(orgIds), day.Selected()));
    r := Report(s.day, c.previous, s.spamOrgs, s.nonSpamOrgs, c.hours, models, orgRows[..top], otherSpend, |orgRows[top..]|);
    ReportIsRight(r, events, Set(orgIds), spam, day, limit, c, s, top);
  }

  method SumSpend(rows: seq<Row>) returns (spend: real)
    ensures spend == SumRows(rows).spend
  {
    spend := 0.0;
    var i := 0;
    while i < |rows|
      invariant i <= |rows|
      invariant spend == SumRows(rows[..i]).spend
    {
      assert rows[..i + 1][..i] == rows[..i];
      spend := spend + rows[i].amount.spend;
      i := i + 1;
    }
    assert rows[..i] == rows;
  }

  lemma CollectedParts(c: Collected, events: seq<IndexEvent>, orgs: set<string>, day: Day, spam: set<string>)
    requires Collects(c, events, orgs, day, spam)
    ensures Totalled(c.perOrg, events, InOrgs(orgs, day.Selected()), OrgName())
    ensures Totalled(c.models, events, InOrgs(orgs, day.Selected()), ModelName())
  {
    hide Totalled, Summarizes, Hours, InOrgs;
  }

  lemma SortedBreakdown(rows: seq<Row>, events: seq<IndexEvent>, p: Pick, name: IndexEvent -> string, spam: set<string>)
    requires Breakdown(rows, events, p, name, spam)
    ensures Breakdown(Sort(rows), events, p, name, spam)
  {
    hide IsRow, Sort;
  }

  lemma ReportIsRight(r: Report, events: seq<IndexEvent>, orgs: set<string>, spam: set<string>, day: Day, limit: int,
                      c: Collected, s: OrgSums, top: nat)
    requires Collects(c, events, orgs, day, spam) && OrgsSummed(s, events, orgs, day.Selected(), spam)
    requires Ordered(Sort(s.rows)) && top == if |s.rows| < TopLimit(limit) then |s.rows| else TopLimit(limit)
    requires Breakdown(r.models, events, InOrgs(orgs, day.Selected()), ModelName(), {}) && Ordered(r.models)
    requires r == Report(s.day, c.previous, s.spamOrgs, s.nonSpamOrgs, c.hours, r.models, Sort(s.rows)[..top],
                         SumRows(Sort(s.rows)[top..]).spend, |Sort(s.rows)[top..]|)
    ensures Reports(r, events, orgs, spam, day, limit)
  {
    hide Breakdown, Ordered, InOrgs, Totalled, Summarizes, Hours, NamesIn, Sort, SumRows;
    var p, others := InOrgs(orgs, day.Selected()), Sort(s.rows)[top..];
    SortedBreakdown(s.rows, events, p, OrgName(), spam);
    assert r.topOrgs + others == Sort(s.rows);
    assert TopAndOthers(r, others, events, p, spam, limit);
  }
}
