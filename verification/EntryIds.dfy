/** Unique entry identifiers for a migrated log (internal/app/pi_session_migration.go). */
module EntryIds {
  import opened Text

  const FALLBACK_ENTRY_ID := "migration_entry"

  /** The names handed out so far; a Go map reads a missing name as zero. */
  function Count(used: map<string, nat>, id: string): nat {
    if id in used then used[id] else 0
  }

  /** A name that is recorded has a positive count. */
  ghost predicate Positive(used: map<string, nat>) {
    forall id :: id in used ==> used[id] > 0
  }

  function Wanted(desired: string): (id: string)
    ensures id != "" && Trimmed(id)
  {
    TrimSpaceTrims(desired);
    if TrimSpace(desired) == "" then FALLBACK_ENTRY_ID else TrimSpace(desired)
  }

  function Candidate(wanted: string, n: nat): string {
    wanted + "_dup_" + Print(n)
  }

  lemma CandidateInjective(wanted: string, m: nat, n: nat)
    requires Candidate(wanted, m) == Candidate(wanted, n)
    ensures m == n
  {
    var stem := wanted + "_dup_";
    assert Candidate(wanted, m)[|stem|..] == Print(m) && Candidate(wanted, n)[|stem|..] == Print(n);
    PrintInjective(m, n);
  }

  /** The used names that a search from `count` can still run into. There are finitely many, so the search ends. */
  ghost function Blocking(used: map<string, nat>, wanted: string, count: nat): set<string> {
    set id | id in used && exists n: nat :: n > count && id == Candidate(wanted, n)
  }

  lemma BlockingShrinks(used: map<string, nat>, wanted: string, count: nat)
    requires Candidate(wanted, count + 1) in used
    ensures |Blocking(used, wanted, count + 1)| < |Blocking(used, wanted, count)|
  {
    var hit := Candidate(wanted, count + 1);
    var before, after := Blocking(used, wanted, count), Blocking(used, wanted, count + 1);
    assert hit in before;
    if hit in after {
      var n: nat :| n > count + 1 && hit == Candidate(wanted, n);
      CandidateInjective(wanted, n, count + 1);
    }
    assert after <= before - {hit};
    SubsetSize(after, before - {hit});
  }

  lemma {:induction false} SubsetSize(a: set<string>, b: set<string>)
    requires a <= b
    ensures |a| <= |b|
  {
    if a != {} {
      var x :| x in a;
      SubsetSize(a - {x}, b - {x});
    }
  }

  /** The least number above `count` whose candidate name is still free. */
  function NextFree(used: map<string, nat>, wanted: string, count: nat): (n: nat)
    ensures n > count && Candidate(wanted, n) !in used
    ensures forall k: nat :: count < k < n ==> Candidate(wanted, k) in used
    decreases |Blocking(used, wanted, count)|
  {
    if Candidate(wanted, count + 1) !in used then count + 1
    else
      BlockingShrinks(used, wanted, count);
      NextFree(used, wanted, count + 1)
  }

  function UniqueId(used: map<string, nat>, desired: string): string {
    var wanted := Wanted(desired);
    if Count(used, wanted) == 0 then wanted
    else Candidate(wanted, NextFree(used, wanted, Count(used, wanted)))
  }

  function Claim(used: map<string, nat>, desired: string): map<string, nat> {
    var wanted := Wanted(desired);
    if Count(used, wanted) == 0 then used[wanted := 1]
    else
      var n := NextFree(used, wanted, Count(used, wanted));
      used[wanted := n][Candidate(wanted, n) := 1]
  }

  /** Every call yields a new, non-empty, trimmed name, and records that name and no other. */
  lemma UniqueIdIsFresh(used: map<string, nat>, desired: string)
    requires Positive(used)
    ensures UniqueId(used, desired) !in used
    ensures UniqueId(used, desired) != "" && Trimmed(UniqueId(used, desired))
    ensures Claim(used, desired).Keys == used.Keys + {UniqueId(used, desired)}
    ensures Positive(Claim(used, desired))
  {
    var wanted := Wanted(desired);
    if Count(used, wanted) != 0 {
      TaggedTrimmed(wanted, "_dup_", NextFree(used, wanted, Count(used, wanted)));
    }
  }

  /** A name that nobody holds yet is given out unchanged; otherwise it is still a prefix of what is given out. */
  lemma UniqueIdKeepsName(used: map<string, nat>, desired: string)
    requires Positive(used) && desired != "" && Trimmed(desired)
    ensures desired <= UniqueId(used, desired)
    ensures desired == UniqueId(used, desired) <==> desired !in used
    ensures desired in used ==> desired + "_dup_" <= UniqueId(used, desired)
  {
    TrimSpaceTrims(desired);
    assert Wanted(desired) == desired;
  }

  /** The map of used names that the builder passes by reference. */
  class UsedIds {
    var used: map<string, nat>

    constructor (names: map<string, nat>)
      requires Positive(names)
      ensures used == names
    {
      used := names;
    }

    method Unique(desired: string) returns (id: string)
      requires Positive(used)
      modifies this
      ensures id == UniqueId(old(used), desired)
      ensures used == Claim(old(used), desired)
      ensures Positive(used)
    {
      UniqueIdIsFresh(used, desired);
      var wanted := TrimSpace(desired);
      if wanted == "" {
        wanted := FALLBACK_ENTRY_ID;
      }
      var count := Count(used, wanted);
      if count == 0 {
        used := used[wanted := 1];
        return wanted;
      }
      ghost var start := count;
      while true
        invariant used == old(used)
        invariant count >= start
        invariant NextFree(used, wanted, start) == NextFree(used, wanted, count)
        decreases |Blocking(used, wanted, count)|
      {
        ghost var before := count;
        count := count + 1;
        var candidate := Candidate(wanted, count);
        if Count(used, candidate) == 0 {
          used := used[wanted := count][candidate := 1];
          return candidate;
        }
        BlockingShrinks(used, wanted, before);
      }
    }
  }
}
