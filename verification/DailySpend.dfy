/** One day's spend, broken down by organisation, hour and model (internal/state/usage_store.go). */
module DailySpend {
  import opened Places
  import opened Text
  import opened UsageStore

  datatype Amount = Amount(spend: real, requests: int)

  const NOTHING := Amount(0.0, 0)

  function Plus(a: Amount, b: Amount): Amount {
    Amount(a.spend + b.spend, a.requests + b.requests)
  }

  type Pick = IndexEvent -> bool

  /** What one event adds to a query. */
  function Share(e: IndexEvent, p: Pick): Amount {
    if p(e) then Amount(e.usage.cost, 1) else NOTHING
  }

  /** SUM(cost_usd) and COUNT(*) over the events that a query picks. */
  function Tally(events: seq<IndexEvent>, p: Pick): Amount {
    if events == [] then NOTHING
    else
      var e := events[|events| - 1];
      Plus(Tally(events[..|events| - 1], p), Share(e, p))
  }

  lemma {:induction false} TallyOneMore(events: seq<IndexEvent>, p: Pick)
    requires events != []
    ensures Tally(events, p) == Plus(Tally(events[..|events| - 1], p), Share(events[|events| - 1], p))
  {
    hide Plus;
  }

  function ArePicked(events: seq<IndexEvent>, p: Pick): nat -> bool {
    (k: nat) => k < |events| && p(events[k])
  }

  function CostsAt(events: seq<IndexEvent>, places: seq<nat>): real
    requires forall i :: 0 <= i < |places| ==> places[i] < |events|
  {
    if places == [] then 0.0 else events[places[0]].usage.cost + CostsAt(events, places[1..])
  }

  lemma {:induction false} CostsOneMore(events: seq<IndexEvent>, places: seq<nat>, n: nat)
    requires n < |events| && forall i :: 0 <= i < |places| ==> places[i] < |events|
    ensures CostsAt(events, places + [n]) == CostsAt(events, places) + events[n].usage.cost
  {
    if places == [] {
      assert [] + [n] == [n] && [n][1..] == [];
    } else {
      assert (places + [n])[1..] == places[1..] + [n];
      CostsOneMore(events, places[1..], n);
    }
  }

  lemma {:induction false} TallyUpTo(events: seq<IndexEvent>, p: Pick, n: nat, places: seq<nat>)
    requires n <= |events| && Listing(places, n, ArePicked(events, p))
    ensures Tally(events[..n], p) == Amount(CostsAt(events, places), |places|)
  {
    if n == 0 {
      assert places == [];
    } else {
      var last: nat := n - 1;
      assert events[..n][..last] == events[..last];
      TallyOneMore(events[..n], p);
      ListingOneLess(places, last, ArePicked(events, p));
      hide Tally, CostsAt;
      if p(events[last]) {
        var front := places[..|places| - 1];
        TallyUpTo(events, p, last, front);
        assert places == front + [last];
        CostsOneMore(events, front, last);
      } else {
        TallyUpTo(events, p, last, places);
      }
    }
  }

  /** A tally is the number of the events picked and the sum of their costs. */
  lemma TallyIsSum(events: seq<IndexEvent>, p: Pick, places: seq<nat>)
    requires Listing(places, |events|, ArePicked(events, p))
    ensures Tally(events, p) == Amount(CostsAt(events, places), |places|)
  {
    TallyUpTo(events, p, |events|, places);
    assert events[..|events|] == events;
  }

  lemma PlusExchanges(a: Amount, b: Amount, c: Amount, d: Amount)
    ensures Plus(Plus(a, b), Plus(c, d)) == Plus(Plus(a, c), Plus(b, d))
  {
  }

  lemma ShareSplits(e: IndexEvent, p: Pick, q: Pick, union: Pick)
    requires (union(e) <==> p(e) || q(e)) && !(p(e) && q(e))
    ensures Share(e, union) == Plus(Share(e, p), Share(e, q))
  {
  }

  /** Events picked by exactly one of two queries are counted once in their union. */
  lemma {:induction false} TallySplit(events: seq<IndexEvent>, p: Pick, q: Pick, union: Pick)
    requires forall e :: e in events ==> (union(e) <==> p(e) || q(e)) && !(p(e) && q(e))
    ensures Tally(events, union) == Plus(Tally(events, p), Tally(events, q))
  {
    if events != [] {
      var init, last := events[..|events| - 1], events[|events| - 1];
      assert last in events;
      hide Tally, Plus, Share;
      TallySplit(init, p, q, union);
      TallyOneMore(events, p);
      TallyOneMore(events, q);
      TallyOneMore(events, union);
      ShareSplits(last, p, q, union);
      PlusExchanges(Tally(init, p), Tally(init, q), Share(last, p), Share(last, q));
    }
  }

  lemma {:induction false} TallySame(events: seq<IndexEvent>, p: Pick, q: Pick)
    requires forall e :: e in events ==> (p(e) <==> q(e))
    ensures Tally(events, p) == Tally(events, q)
  {
    if events != [] { TallySame(events[..|events| - 1], p, q); }
  }

  lemma {:induction false} TallyNone(events: seq<IndexEvent>, p: Pick)
    requires forall e :: e in events ==> !p(e)
    ensures Tally(events, p) == NOTHING
  {
    if events != [] { TallyNone(events[..|events| - 1], p); }
  }

  /** A query that picks an event counts it. */
  lemma {:induction false} TallyCounts(events: seq<IndexEvent>, p: Pick)
    ensures Tally(events, p).requests >= 0
    ensures Tally(events, p).requests > 0 <==> exists e :: e in events && p(e)
  {
    if events != [] {
      var init, last := events[..|events| - 1], events[|events| - 1];
      TallyCounts(init, p);
      assert events == init + [last];
      assert last in events;
    }
  }

  /* Queries */

  datatype Span = Span(from: int, to: int)

  predicate Chosen(e: IndexEvent, orgs: set<string>, w: Span) {
    w.from <= e.createdAt < w.to && e.orgId in orgs
  }

  function InOrgs(orgs: set<string>, w: Span): Pick {
    e => Chosen(e, orgs, w)
  }

  function Named(p: Pick, name: IndexEvent -> string, names: set<string>): Pick {
    e => p(e) && name(e) in names
  }

  const HOUR_MS: int := 3600 * 1000

  /** SQLite divides integers toward zero before it takes the hour of the day. */
  function SqlHour(ms: int): int {
    var seconds := if ms >= 0 then ms / 1000 else -(-ms / 1000);
    seconds % 86400 / 3600
  }

  function AtHour(p: Pick, hour: int): Pick {
    e => p(e) && SqlHour(e.createdAt) == hour
  }

  function OrgName(): IndexEvent -> string { (e: IndexEvent) => e.orgId }

  function NormalModel(model: string): string {
    if TrimSpace(model) == "" then "unknown" else TrimSpace(model)
  }

  function ModelName(): IndexEvent -> string { (e: IndexEvent) => NormalModel(e.usage.model) }

  function RawModel(): IndexEvent -> string { (e: IndexEvent) => e.usage.model }

  function Get(totals: map<string, Amount>, name: string): Amount {
    if name in totals then totals[name] else NOTHING
  }

  /** The names that the rows of a GROUP BY query carry. */
  function NamesIn(events: seq<IndexEvent>, p: Pick, name: IndexEvent -> string): set<string> {
    set e | e in events && p(e) :: name(e)
  }

  /** Totals by name that account for all picked events. */
  ghost predicate Totalled(totals: map<string, Amount>, events: seq<IndexEvent>, p: Pick, name: IndexEvent -> string) {
    && (forall n :: Get(totals, n) == Tally(events, Named(p, name, {n})))
    && totals.Keys == NamesIn(events, p, name)
  }

  ghost predicate Renames(events: seq<IndexEvent>, raw: IndexEvent -> string, norm: string -> string, name: IndexEvent -> string) {
    forall e :: e in events ==> name(e) == norm(raw(e))
  }

  /** The union picks what either query picks, and no event is picked by both. */
  ghost predicate Joins(events: seq<IndexEvent>, p: Pick, q: Pick, union: Pick) {
    forall e :: e in events ==> (union(e) <==> p(e) || q(e)) && !(p(e) && q(e))
  }

  function Either(p: Pick, q: Pick): Pick {
    e => p(e) || q(e)
  }

  /** Adds the rows of a query grouped by `raw` to the totals by `name`, a function of `raw`; rows come in any order. */
  method AddRows(events: seq<IndexEvent>, p: Pick, raw: IndexEvent -> string, norm: string -> string, ghost name: IndexEvent -> string,
                 ghost before: Pick, ghost both: Pick, target: map<string, Amount>)
    returns (totals: map<string, Amount>)
    requires Renames(events, raw, norm, name)
    requires Joins(events, before, p, both)
    requires Totalled(target, events, before, name)
    ensures Totalled(totals, events, both, name)
  {
    hide Totalled, Named, NamesIn, Renames, Joins, Tally;
    totals := target;
    var left := NamesIn(events, p, raw);
    ghost var done: set<string> := {};
    NothingDone(totals, events, before, p, raw, name);
    while left != {}
      invariant left + done == NamesIn(events, p, raw) && left !! done
      invariant Totalled(totals, events, Either(before, Named(p, raw, done)), name)
      decreases left
    {
      var key :| key in left;
      AddOneRow(totals, events, before, p, both, raw, norm, name, done, key);
      totals := totals[norm(key) := Plus(Get(totals, norm(key)), Tally(events, Named(p, raw, {key})))];
      left, done := left - {key}, done + {key};
    }
    AllDone(totals, events, before, p, both, raw, name);
  }

  lemma TotalledSame(totals: map<string, Amount>, events: seq<IndexEvent>, p: Pick, q: Pick, name: IndexEvent -> string)
    requires Totalled(totals, events, p, name)
    requires forall e :: e in events ==> (p(e) <==> q(e))
    ensures Totalled(totals, events, q, name)
  {
    forall n ensures Tally(events, Named(p, name, {n})) == Tally(events, Named(q, name, {n})) {
      TallySame(events, Named(p, name, {n}), Named(q, name, {n}));
    }
    assert NamesIn(events, p, name) == NamesIn(events, q, name);
  }

  lemma NothingDone(totals: map<string, Amount>, events: seq<IndexEvent>, before: Pick, p: Pick, raw: IndexEvent -> string, name: IndexEvent -> string)
    requires Totalled(totals, events, before, name)
    ensures Totalled(totals, events, Either(before, Named(p, raw, {})), name)
  {
    TotalledSame(totals, events, before, Either(before, Named(p, raw, {})), name);
  }

  lemma AllDone(totals: map<string, Amount>, events: seq<IndexEvent>, before: Pick, p: Pick, both: Pick, raw: IndexEvent -> string,
                name: IndexEvent -> string)
    requires Joins(events, before, p, both)
    requires Totalled(totals, events, Either(before, Named(p, raw, NamesIn(events, p, raw))), name)
    ensures Totalled(totals, events, both, name)
  {
    TotalledSame(totals, events, Either(before, Named(p, raw, NamesIn(events, p, raw))), both, name);
  }

  lemma RowTally(events: seq<IndexEvent>, before: Pick, p: Pick, both: Pick, raw: IndexEvent -> string, norm: string -> string,
                 name: IndexEvent -> string, done: set<string>, key: string, x: string)
    requires Renames(events, raw, norm, name) && Joins(events, before, p, both) && key !in done
    ensures Tally(events, Named(Either(before, Named(p, raw, done + {key})), name, {x})) ==
      Plus(Tally(events, Named(Either(before, Named(p, raw, done)), name, {x})),
           if x == norm(key) then Tally(events, Named(p, raw, {key})) else NOTHING)
  {
    var was, now := Either(before, Named(p, raw, done)), Either(before, Named(p, raw, done + {key}));
    var row := Named(p, raw, {key});
    if x == norm(key) {
      TallySplit(events, Named(was, name, {x}), row, Named(now, name, {x}));
    } else {
      TallySame(events, Named(now, name, {x}), Named(was, name, {x}));
    }
  }

  lemma RowNames(events: seq<IndexEvent>, before: Pick, p: Pick, raw: IndexEvent -> string, norm: string -> string,
                 name: IndexEvent -> string, done: set<string>, key: string)
    requires Renames(events, raw, norm, name) && key in NamesIn(events, p, raw)
    ensures NamesIn(events, Either(before, Named(p, raw, done + {key})), name) ==
      NamesIn(events, Either(before, Named(p, raw, done)), name) + {norm(key)}
  {
    var was, now := Either(before, Named(p, raw, done)), Either(before, Named(p, raw, done + {key}));
    var e :| e in events && p(e) && raw(e) == key;
    assert now(e);
    forall e | e in events && was(e) ensures name(e) in NamesIn(events, now, name) { assert now(e); }
  }

  /** `now` picks one more row than `was`: `amount`, to go under name `n`. */
  ghost predicate OneMoreRow(events: seq<IndexEvent>, was: Pick, now: Pick, name: IndexEvent -> string, n: string, amount: Amount) {
    && (forall x :: Tally(events, Named(now, name, {x})) == Plus(Tally(events, Named(was, name, {x})), if x == n then amount else NOTHING))
    && NamesIn(events, now, name) == NamesIn(events, was, name) + {n}
  }

  lemma {:induction false} RowAdds(totals: map<string, Amount>, events: seq<IndexEvent>, was: Pick, now: Pick, name: IndexEvent -> string, n: string, amount: Amount)
    requires OneMoreRow(events, was, now, name, n, amount)
    requires Totalled(totals, events, was, name)
    ensures Totalled(totals[n := Plus(Get(totals, n), amount)], events, now, name)
  {
    var more := totals[n := Plus(Get(totals, n), amount)];
    hide Tally, NamesIn, Named, Plus;
    forall x ensures Get(more, x) == Tally(events, Named(now, name, {x})) {
      PlusNothing(Get(totals, x));
    }
  }

  lemma PlusNothing(a: Amount)
    ensures Plus(a, NOTHING) == a
  {
  }

  lemma AddOneRow(totals: map<string, Amount>, events: seq<IndexEvent>, before: Pick, p: Pick, both: Pick, raw: IndexEvent -> string,
                  norm: string -> string, name: IndexEvent -> string, done: set<string>, key: string)
    requires Renames(events, raw, norm, name) && Joins(events, before, p, both)
    requires key !in done && key in NamesIn(events, p, raw)
    requires Totalled(totals, events, Either(before, Named(p, raw, done)), name)
    ensures Totalled(totals[norm(key) := Plus(Get(totals, norm(key)), Tally(events, Named(p, raw, {key})))],
      events, Either(before, Named(p, raw, done + {key})), name)
  {
    hide Tally, NamesIn, Named, Either, Renames, Joins, Totalled;
    var was, now := Either(before, Named(p, raw, done)), Either(before, Named(p, raw, done + {key}));
    RowNames(events, before, p, raw, norm, name, done, key);
    forall x
      ensures Tally(events, Named(now, name, {x})) ==
        Plus(Tally(events, Named(was, name, {x})), if x == norm(key) then Tally(events, Named(p, raw, {key})) else NOTHING)
    {
      RowTally(events, before, p, both, raw, norm, name, done, key, x);
    }
    RowAdds(totals, events, was, now, name, norm(key), Tally(events, Named(p, raw, {key})));
  }
}
