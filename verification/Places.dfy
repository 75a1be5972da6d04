/** Lists of the places at which something holds. */
module Places {
  /** Exactly the places below `n` that are picked, in order. */
  ghost predicate Listing(places: seq<nat>, n: nat, picks: nat -> bool) {
    && (forall i, j :: 0 <= i < j < |places| ==> places[i] < places[j])
    && (forall i :: 0 <= i < |places| ==> places[i] < n && picks(places[i]))
    && (forall k: nat :: k < n && picks(k) ==> k in places)
  }

  /** What stands at the places. */
  function At<T>(s: seq<T>, places: seq<nat>): seq<T>
    requires forall i :: 0 <= i < |places| ==> places[i] < |s|
  {
    seq(|places|, i requires 0 <= i < |places| => s[places[i]])
  }

  lemma NothingAt<T>(s: seq<T>)
    ensures At(s, []) == []
  {
  }

  lemma AtOneMore<T>(s: seq<T>, places: seq<nat>, n: nat)
    requires n < |s| && forall i :: 0 <= i < |places| ==> places[i] < |s|
    ensures At(s, places + [n]) == At(s, places) + [s[n]]
  {
  }

  lemma EmptyListing(picks: nat -> bool)
    ensures Listing([], 0, picks)
  {
  }

  lemma ListingOneMore(places: seq<nat>, n: nat, picks: nat -> bool)
    requires Listing(places, n, picks)
    ensures Listing(if picks(n) then places + [n] else places, n + 1, picks)
  {
    if picks(n) {
      var all := places + [n];
      forall k: nat | k < n + 1 && picks(k) ensures k in all {
        if k < n { assert k in places; } else { assert all[|places|] == k; }
      }
    }
  }

  lemma ListingOneLess(places: seq<nat>, n: nat, picks: nat -> bool)
    requires Listing(places, n + 1, picks)
    ensures picks(n) ==> places != [] && places[|places| - 1] == n && Listing(places[..|places| - 1], n, picks)
    ensures !picks(n) ==> Listing(places, n, picks)
  {
    if picks(n) {
      assert n in places;
      var i := |places| - 1;
      forall j | 0 <= j < |places| ensures places[j] <= places[i] {}
      var front := places[..i];
      assert places == front + [n];
      forall k: nat | k < n && picks(k) ensures k in front {
        assert k in places;
      }
    } else {
      forall i | 0 <= i < |places| ensures places[i] < n {
        assert picks(places[i]);
      }
    }
  }

  lemma {:induction false} SomeListing(n: nat, picks: nat -> bool) returns (places: seq<nat>)
    ensures Listing(places, n, picks)
  {
    if n == 0 {
      places := [];
    } else {
      var last: nat := n - 1;
      var front := SomeListing(last, picks);
      ListingOneMore(front, last, picks);
      hide Listing;
      places := if picks(last) then front + [last] else front;
    }
  }
}
