/**
 * Moving a project to cold storage and back (internal/app/project_archive.go, project_storage_state.go).
 * Any step may fail, with or without having taken effect, and the process may crash at any step.
 */
module ProjectArchive {
  import opened Prelude

  datatype Storage = Local | Archiving | Archived | Restoring | Error

  /** An object key, made from the time of the upload. */
  type Key = nat

  datatype Object = Object(content: string, modified: nat)

  /** The persisted state record. Its reference to an archive stays when the project is restored. */
  datatype Record = Record(storage: Storage, archive: Option<Key>)

  /**
   * Everything that outlives the process: the project directory, the project's archive objects and its state record,
   * together with what the project is meant to contain.
   */
  datatype World = World(content: Option<string>, local: Option<string>, objects: map<Key, Object>, record: Record, clock: nat)

  datatype Outcome = Done | Failed | Crashed

  ghost predicate Newest(objects: map<Key, Object>, key: Key) {
    key in objects && forall k :: k in objects && k != key ==> objects[k].modified < objects[key].modified
  }

  /** The newest archive object holds the project's content. */
  ghost predicate HeldByNewest(objects: map<Key, Object>, content: Option<string>, key: Key) {
    Newest(objects, key) && content == Some(objects[key].content)
  }

  ghost predicate Held(objects: map<Key, Object>, content: Option<string>) {
    exists key :: HeldByNewest(objects, content, key)
  }

  /** The invariant of the protocol. */
  ghost predicate Good(w: World) {
    && (w.local.Some? ==> w.local == w.content)
    && (w.content.Some? && w.local.None? ==> Held(w.objects, w.content))
    && (w.record.storage == Local ==> w.local == w.content)
    && (w.record.storage == Archived ==> w.record.archive.Some? && HeldByNewest(w.objects, w.content, w.record.archive.value))
    && (forall k :: k in w.objects ==> k < w.clock && w.objects[k].modified < w.clock)
  }

  /** What it means for the project: its content is never lost, and an archived project has its archive. */
  lemma GoodIsSafe(w: World)
    requires Good(w)
    ensures w.content.Some? ==> w.local == w.content || exists k :: k in w.objects && Some(w.objects[k].content) == w.content
    ensures w.record.storage == Archived ==>
      && w.record.archive.Some? && w.record.archive.value in w.objects
      && Some(w.objects[w.record.archive.value].content) == w.content
  {
    if w.content.Some? && w.local.None? {
      var key :| HeldByNewest(w.objects, w.content, key);
      assert key in w.objects && Some(w.objects[key].content) == w.content;
    }
  }

  /* The order in which pruning looks at the objects */

  ghost predicate Sorted(objects: map<Key, Object>, order: seq<Key>) {
    && (forall i :: 0 <= i < |order| ==> order[i] in objects)
    && (forall i, j :: 0 <= i < j < |order| ==> order[i] != order[j] && objects[order[i]].modified >= objects[order[j]].modified)
  }

  ghost predicate NewestFirst(objects: map<Key, Object>, order: seq<Key>) {
    Sorted(objects, order) && forall k :: k in objects ==> k in order
  }

  method FindPlace(objects: map<Key, Object>, order: seq<Key>, key: Key) returns (n: nat)
    requires key in objects && Sorted(objects, order)
    ensures n <= |order|
    ensures forall j :: n <= j < |order| ==> order[j] in objects && objects[order[j]].modified < objects[key].modified
    ensures n > 0 ==> order[n - 1] in objects && objects[order[n - 1]].modified >= objects[key].modified
  {
    n := |order|;
    while n > 0 && objects[order[n - 1]].modified < objects[key].modified
      invariant n <= |order|
      invariant forall j :: n <= j < |order| ==> objects[order[j]].modified < objects[key].modified
    {
      n := n - 1;
    }
  }

  method InsertByTime(objects: map<Key, Object>, order: seq<Key>, key: Key) returns (out: seq<Key>)
    requires key in objects && key !in order && Sorted(objects, order)
    ensures Sorted(objects, out)
    ensures multiset(out) == multiset(order) + multiset{key}
  {
    hide Sorted;
    var n := FindPlace(objects, order, key);
    out := order[..n] + [key] + order[n..];
    InsertedIsSorted(objects, order, key, n);
    assert order == order[..n] + order[n..];
  }

  lemma InsertedIsSorted(objects: map<Key, Object>, order: seq<Key>, key: Key, n: nat)
    requires key in objects && key !in order && Sorted(objects, order) && n <= |order|
    requires forall j :: n <= j < |order| ==> order[j] in objects && objects[order[j]].modified < objects[key].modified
    requires n > 0 ==> order[n - 1] in objects && objects[order[n - 1]].modified >= objects[key].modified
    ensures Sorted(objects, order[..n] + [key] + order[n..])
  {
    var out := order[..n] + [key] + order[n..];
    forall i | 0 <= i < |out| ensures out[i] == if i < n then order[i] else if i == n then key else order[i - 1] {}
    forall i, j | 0 <= i < j < |out| ensures out[i] != out[j] && out[i] in objects && out[j] in objects && objects[out[i]].modified >= objects[out[j]].modified {
      if i < n == j && i < n - 1 { assert objects[order[i]].modified >= objects[order[n - 1]].modified; }
    }
  }

  /** The listing of the object store, sorted by time. */
  method ListObjects(objects: map<Key, Object>) returns (order: seq<Key>)
    ensures NewestFirst(objects, order)
  {
    order := [];
    var left := objects.Keys;
    while left != {}
      invariant left <= objects.Keys
      invariant forall k :: k in multiset(order) <==> k in objects && k !in left
      invariant Sorted(objects, order)
      decreases left
    {
      var key :| key in left;
      assert key !in multiset(order);
      order := InsertByTime(objects, order, key);
      left := left - {key};
    }
    assert forall k :: k in objects ==> k in multiset(order);
  }

  /** What pruning keeps of the objects. */
  function Pruned(objects: map<Key, Object>, order: seq<Key>, from: nat, to: nat): map<Key, Object>
    requires from <= to <= |order|
  {
    map k | k in objects && k !in order[from..to] :: objects[k]
  }

  lemma PruneNothing(objects: map<Key, Object>, order: seq<Key>, from: nat)
    requires from <= |order|
    ensures Pruned(objects, order, from, from) == objects
  {
  }

  lemma PruneOneMore(objects: map<Key, Object>, order: seq<Key>, from: nat, i: nat)
    requires NewestFirst(objects, order) && 1 <= from <= i < |order|
    ensures Pruned(objects, order, from, i + 1) == Pruned(objects, order, from, i) - {order[i]}
    ensures !Newest(Pruned(objects, order, from, i), order[i])
  {
    assert order[from..i + 1] == order[from..i] + [order[i]];
    var left := Pruned(objects, order, from, i);
    assert order[0] !in order[from..i];
    assert order[0] in left;
  }

  /** `after` has the `n` newest of the objects `before`, or all of them if there are no more. */
  ghost predicate KeepsNewest(before: map<Key, Object>, after: map<Key, Object>, n: nat) {
    && (forall k :: k in after ==> k in before && after[k] == before[k])
    && |after| == (if |before| < n then |before| else n)
    && (forall k, j :: k in before && k !in after && j in after ==> before[k].modified <= after[j].modified)
  }

  ghost function Members(order: seq<Key>): set<Key> {
    set k | k in order
  }

  lemma {:induction false} DistinctCount(order: seq<Key>)
    requires forall i, j :: 0 <= i < j < |order| ==> order[i] != order[j]
    ensures |Members(order)| == |order|
  {
    if order != [] {
      var rest, last := order[..|order| - 1], order[|order| - 1];
      DistinctCount(rest);
      assert forall k :: k in order <==> k in rest || k == last;
      assert Members(order) == Members(rest) + {last};
    }
  }

  /** What pruning from place `n` of a listing on leaves, by its keys. */
  lemma PrunedKeys(objects: map<Key, Object>, order: seq<Key>, n: nat)
    requires NewestFirst(objects, order) && n <= |order|
    ensures Pruned(objects, order, n, |order|).Keys == Members(order[..n])
  {
    var left := Pruned(objects, order, n, |order|);
    assert order == order[..n] + order[n..|order|];
    forall k | k in left ensures k in order[..n] {
      assert k in order && k !in order[n..|order|];
    }
    forall k | k in order[..n] ensures k in left {
      var i :| 0 <= i < n && order[i] == k;
      if k in order[n..|order|] {
        assert false;
      }
    }
  }

  /** Pruning from place `n` of a listing on keeps the `n` newest objects. */
  lemma PrunedIsNewest(objects: map<Key, Object>, order: seq<Key>, n: nat)
    requires NewestFirst(objects, order)
    ensures KeepsNewest(objects, if |order| <= n then objects else Pruned(objects, order, n, |order|), n)
  {
    DistinctCount(order);
    assert objects.Keys == Members(order);
    if n < |order| {
      var left := Pruned(objects, order, n, |order|);
      DistinctCount(order[..n]);
      PrunedKeys(objects, order, n);
      assert |left| == |left.Keys|;
      forall k, j | k in objects && k !in left && j in left ensures objects[k].modified <= left[j].modified {
        LaterIsOlder(objects, order, n, k, j);
      }
    }
  }

  lemma LaterIsOlder(objects: map<Key, Object>, order: seq<Key>, n: nat, k: Key, j: Key)
    requires NewestFirst(objects, order) && n < |order| && k in objects && k !in order[..n] && j in order[..n]
    ensures j in objects && objects[k].modified <= objects[j].modified
  {
    assert order == order[..n] + order[n..];
    assert k in order && k in order[n..];
    var x :| n <= x < |order| && order[x] == k;
    var y :| 0 <= y < n && order[..n][y] == j;
    assert objects[order[y]].modified >= objects[order[x]].modified;
  }

  /** Uploading a new object and keeping the `n` newest objects leaves at most `n`, that object included. */
  ghost predicate AddedAndPruned(before: map<Key, Object>, after: map<Key, Object>, key: Key, n: nat) {
    && key !in before && Newest(after, key)
    && KeepsNewest(before[key := after[key]], after, n)
  }

  lemma NewestSurvives(objects: map<Key, Object>, order: seq<Key>, from: nat, to: nat, key: Key)
    requires NewestFirst(objects, order) && 1 <= from <= to <= |order| && Newest(objects, key)
    ensures Newest(Pruned(objects, order, from, to), key)
  {
    var i :| 0 <= i < |order| && order[i] == key;
    assert order[0] in objects;
    assert order[0] == key;
    assert key !in order[from..to];
  }

  class Project {
    var local: Option<string>
    var objects: map<Key, Object>
    var record: Record
    var clock: nat
    /** How many archive objects pruning keeps; the configuration never allows less than one. */
    const retention: nat
    /** Every step goes through. */
    const works: bool
    /** What the project is meant to contain, and all the worlds it went through. */
    ghost var content: Option<string>
    ghost var trace: seq<World>

    ghost function Now(): World
      reads this
    {
      World(content, local, objects, record, clock)
    }

    ghost predicate Valid()
      reads this
    {
      retention >= 1 && Good(Now()) && forall i :: 0 <= i < |trace| ==> Good(trace[i])
    }

    /** A project that was never used: no state file, no directory, no archives. */
    constructor (configured: int, works: bool)
      ensures Valid() && content == None && trace == [] && this.works == works
      ensures retention == if configured < 1 then 1 else configured
    {
      local, objects, record, clock := None, map[], Record(Local, None), 0;
      retention := if configured < 1 then 1 else configured;
      this.works := works;
      content, trace := None, [];
    }

    /** The project is in cold storage only, in a new object that is its newest one and holds what its directory held. */
    ghost predicate ArchivedFrom(before: map<Key, Object>, directory: Option<string>)
      reads this
    {
      && record.storage == Archived && record.archive.Some? && local.None?
      && AddedAndPruned(before, objects, record.archive.value, retention)
      && Some(objects[record.archive.value].content) == directory
    }

    /* Steps */

    /** Writes the state record; it is replaced as a whole or not at all. */
    method Save(next: Record) returns (o: Outcome)
      requires Valid() && Good(Now().(record := next))
      modifies this`record, this`trace
      ensures Valid() && old(trace) <= trace
      ensures record == old(record) || record == next
      ensures o.Done? ==> record == next
      ensures works ==> o.Done?
    {
      var effect: bool, crash: bool, error: bool := *, *, *;
      if works { effect, crash, error := true, false, false; }
      if effect {
        record := next;
      }
      trace := trace + [Now()];
      o := if crash then Crashed else if error || !effect then Failed else Done;
    }

    /** Puts the project directory into the object store; an error may come before or after the object is there. */
    method Upload() returns (o: Outcome, key: Key)
      requires Valid() && record.storage != Archived
      modifies this`objects, this`clock, this`trace
      ensures Valid() && old(trace) <= trace
      ensures o.Done? ==> HeldByNewest(objects, content, key) && local.Some? && key !in old(objects)
      ensures o.Done? ==> objects == old(objects)[key := objects[key]]
      ensures local.Some? || objects == old(objects)
      ensures works && local.Some? ==> o.Done?
      ensures works ==> !o.Crashed?
    {
      key := clock;
      if local.None? {
        return Failed, key;
      }
      var effect: bool, crash: bool, error: bool := *, *, *;
      if works { effect, crash, error := true, false, false; }
      clock := clock + 1;
      if effect {
        objects := objects[key := Object(local.value, clock)];
      }
      clock := clock + 1;
      trace := trace + [Now()];
      o := if crash then Crashed else if error || !effect then Failed else Done;
    }

    /** Deletes the project directory; an error may come before or after it is gone. */
    method DeleteLocal() returns (o: Outcome)
      requires Valid() && record.storage != Local && Held(objects, content)
      modifies this`local, this`trace
      ensures Valid() && old(trace) <= trace
      ensures o.Done? ==> local.None?
      ensures works ==> o.Done?
    {
      var effect: bool, crash: bool, error: bool := *, *, *;
      if works { effect, crash, error := true, false, false; }
      if effect {
        local := None;
      }
      trace := trace + [Now()];
      o := if crash then Crashed else if error || !effect then Failed else Done;
    }

    method DeleteObject(key: Key) returns (o: Outcome)
      requires Valid() && !Newest(objects, key)
      modifies this`objects, this`trace
      ensures Valid() && old(trace) <= trace
      ensures objects == old(objects) || objects == old(objects) - {key}
      ensures o.Done? ==> key !in objects
      ensures works ==> o.Done?
    {
      var effect: bool, crash: bool, error: bool := *, *, *;
      if works { effect, crash, error := true, false, false; }
      ghost var was := Now();
      if effect {
        objects := objects - {key};
        DroppingOldKeepsGood(was, key);
      }
      trace := trace + [Now()];
      o := if crash then Crashed else if error || !effect then Failed else Done;
    }

    /** Fetches an archive object and swaps it in for the project directory; that swap is all-or-nothing. */
    method Restore(key: Key) returns (o: Outcome)
      requires Valid() && HeldByNewest(objects, content, key)
      modifies this`local, this`trace
      ensures Valid() && old(trace) <= trace
      ensures o.Done? ==> local == content
      ensures works ==> o.Done?
    {
      var effect: bool, crash: bool, error: bool := *, *, *;
      if works { effect, crash, error := true, false, false; }
      if effect {
        local := Some(objects[key].content);
      }
      trace := trace + [Now()];
      o := if crash then Crashed else if error || !effect then Failed else Done;
    }

    /* Operations under the project's lock */

    method MarkError() returns (o: Outcome)
      requires Valid()
      modifies this`record, this`trace
      ensures Valid() && old(trace) <= trace
      ensures !o.Done?
      ensures record == old(record) || record == old(record).(storage := Error)
      ensures works ==> o.Failed? && record.storage == Error
    {
      var loads: bool := *;
      o := Failed;
      if loads || works {
        o := Save(record.(storage := Error));
        if o.Done? { o := Failed; }
      }
    }

    /** Deletes all but the newest archive objects; the very newest is never touched. */
    method PruneArchives() returns (o: Outcome, ghost order: seq<Key>)
      requires Valid()
      modifies this`objects, this`trace
      ensures Valid() && old(trace) <= trace
      ensures forall key :: Newest(old(objects), key) ==> Newest(objects, key) && objects[key] == old(objects)[key]
      ensures o.Done? ==> NewestFirst(old(objects), order)
      ensures o.Done? ==> objects == if |order| <= retention then old(objects) else Pruned(old(objects), order, retention, |order|)
      ensures o.Done? ==> KeepsNewest(old(objects), objects, retention)
      ensures works ==> o.Done?
    {
      hide KeepsNewest;
      var listed: bool := *;
      order := [];
      if !listed && !works {
        return Failed, order;
      }
      var sorted := ListObjects(objects);
      order := sorted;
      PrunedIsNewest(objects, order, retention);
      if |sorted| > retention {
        o := DeleteFrom(sorted);
      } else {
        o := Done;
      }
    }

    /** The steps that both ways of archiving share, from the saved intention to the pruning. */
    method ArchiveNow() returns (o: Outcome)
      requires Valid() && record.storage in {Local, Error}
      modifies this`local, this`objects, this`record, this`clock, this`trace
      ensures Valid() && old(trace) <= trace
      ensures o.Done? ==> ArchivedFrom(old(objects), old(local))
      ensures works ==> (o.Done? <==> old(local).Some?) && (!o.Done? ==> record.storage == Error)
    {
      hide Newest, KeepsNewest;
      o := Save(Record(Archiving, record.archive));
      if !o.Done? { return; }
      o := *;
      if works { o := Done; }
      if o.Crashed? { return; }
      if o.Failed? {
        o := MarkError();
        return;
      }
      var key;
      o, key := Upload();
      if o.Crashed? { return; }
      if o.Failed? {
        o := MarkError();
        return;
      }
      o := DeleteLocal();
      if o.Crashed? { return; }
      if o.Failed? {
        o := MarkError();
        return;
      }
      o := Save(Record(Archived, Some(key)));
      if !o.Done? { return; }
      ghost var order;
      o, order := PruneArchives();
    }

    /** The request to archive: refused without an object store or disk headroom, done if archived, from `local` or `error` only. */
    method HandleArchive() returns (o: Outcome)
      requires Valid()
      modifies this`local, this`objects, this`record, this`clock, this`trace
      ensures Valid() && old(trace) <= trace
      ensures o.Done? ==> old(record.storage) !in {Archiving, Restoring}
      ensures o.Done? && old(record.storage) != Archived ==> ArchivedFrom(old(objects), old(local))
      ensures old(record.storage) !in {Local, Error} ==> Now() == old(Now())
      ensures works && old(record.storage) == Archived ==> o.Done?
      ensures works && old(record.storage) in {Local, Error} ==> (o.Done? <==> old(local).Some?) && (!o.Done? ==> record.storage == Error)
    {
      hide ArchivedFrom;
      var admitted: bool, loads: bool := *, *;
      if (!admitted || !loads) && !works {
        return Failed;
      }
      if record.storage == Archived && record.archive.Some? {
        return Done;
      }
      if record.storage != Local && record.storage != Error {
        return Failed;
      }
      o := ArchiveNow();
    }

    /** The sweep over inactive projects archives local ones only. */
    method ArchiveInactive() returns (o: Outcome)
      requires Valid()
      modifies this`local, this`objects, this`record, this`clock, this`trace
      ensures Valid() && old(trace) <= trace
      ensures old(record.storage) != Local ==> Now() == old(Now())
      ensures o.Done? && old(record.storage) == Local ==> ArchivedFrom(old(objects), old(local))
      ensures works && old(record.storage) != Local ==> o.Done?
      ensures works && old(record.storage) == Local ==> (o.Done? <==> old(local).Some?) && (!o.Done? ==> record.storage == Error)
    {
      hide ArchivedFrom;
      var loads: bool := *;
      if !loads && !works {
        return Failed;
      }
      if record.storage != Local {
        return Done;
      }
      o := ArchiveNow();
    }

    /** Brings a project back if it is archived. The branch for an archived project without an archive cannot be taken. */
    method EnsureLocal() returns (o: Outcome)
      requires Valid()
      modifies this`local, this`record, this`trace
      ensures Valid() && old(trace) <= trace
      ensures o.Done? ==> record == Record(Local, old(record).archive) && local == content
      ensures o.Done? ==> old(record.storage) in {Local, Archived}
      ensures old(record.storage) !in {Local, Archived} ==> Now() == old(Now())
      ensures old(record.storage) == Local ==> Now() == old(Now())
      ensures works ==> (o.Done? <==> old(record.storage) in {Local, Archived})
    {
      hide Newest;
      var loads: bool := *;
      if !loads && !works {
        return Failed;
      }
      if record.storage == Local {
        o := Save(record);
        return;
      }
      if record.storage != Archived {
        return Failed;
      }
      if record.archive.None? {
        assert false;
      }
      o := Save(Record(Restoring, record.archive));
      if !o.Done? { return; }
      o := Restore(record.archive.value);
      if o.Crashed? { return; }
      if o.Failed? {
        o := MarkError();
        return;
      }
      o := Save(Record(Local, record.archive));
    }

    /** A request for the project: it is made local first, and may then change what the project contains. */
    method Use(edit: Option<string>) returns (o: Outcome)
      requires Valid()
      modifies this`local, this`record, this`content, this`trace
      ensures Valid() && old(trace) <= trace
      ensures !o.Done? || edit.None? ==> content == old(content)
      ensures o.Done? ==> record.storage == Local && local == content
      ensures o.Done? && edit.Some? ==> content == edit
      ensures works ==> (o.Done? <==> old(record.storage) in {Local, Archived})
    {
      o := EnsureLocal();
      if o.Done? && edit.Some? {
        local := edit;
        content := edit;
        trace := trace + [Now()];
      }
    }

    method DeleteFrom(order: seq<Key>) returns (o: Outcome)
      requires Valid() && NewestFirst(objects, order) && retention <= |order|
      modifies this`objects, this`trace
      ensures Valid() && old(trace) <= trace
      ensures forall key :: Newest(old(objects), key) ==> Newest(objects, key) && objects[key] == old(objects)[key]
      ensures o.Done? ==> objects == Pruned(old(objects), order, retention, |order|)
      ensures works ==> o.Done?
    {
      hide Good, NewestFirst, Pruned, Newest;
      ghost var before := objects;
      var i := retention;
      PruneNothing(objects, order, retention);
      while i < |order|
        invariant retention <= i <= |order|
        invariant Valid() && old(trace) <= trace
        invariant objects == Pruned(before, order, retention, i)
      {
        PruneOneMore(before, order, retention, i);
        o := DeleteObject(order[i]);
        if !o.Done? {
          PrunedKeepsNewest(before, order, retention, if objects == Pruned(before, order, retention, i) then i else i + 1);
          return;
        }
        i := i + 1;
      }
      PrunedKeepsNewest(before, order, retention, i);
      o := Done;
    }
  }

  lemma PrunedKeepsNewest(objects: map<Key, Object>, order: seq<Key>, from: nat, to: nat)
    requires NewestFirst(objects, order) && 1 <= from <= to <= |order|
    ensures var left := Pruned(objects, order, from, to);
      forall key :: Newest(objects, key) ==> Newest(left, key) && left[key] == objects[key]
  {
    forall key | Newest(objects, key) ensures Newest(Pruned(objects, order, from, to), key) {
      NewestSurvives(objects, order, from, to, key);
    }
  }

  lemma DroppingOldKeepsGood(w: World, key: Key)
    requires Good(w) && !Newest(w.objects, key)
    ensures Good(w.(objects := w.objects - {key}))
  {
    var after := w.(objects := w.objects - {key});
    forall k | Newest(w.objects, k) ensures Newest(after.objects, k) {}
    if w.content.Some? && w.local.None? {
      var k :| HeldByNewest(w.objects, w.content, k);
      assert HeldByNewest(after.objects, w.content, k);
    }
  }

  /* Runs */

  datatype Request = ArchiveRequest | Sweep | UnarchiveRequest | UseRequest(edit: Option<string>)

  /**
   * Any sequence of requests, each of which may fail or crash anywhere; a crash only ends its own request, since all
   * that outlives the process is in the world. Every world ever gone through keeps the project's content.
   */
  method Run(requests: seq<Request>, configured: int, works: bool) returns (p: Project)
    ensures fresh(p) && p.Valid()
    ensures forall i :: 0 <= i < |p.trace| ==> Good(p.trace[i])
  {
    p := new Project(configured, works);
    var i := 0;
    while i < |requests|
      invariant fresh(p) && p.Valid()
    {
      var o;
      match requests[i] {
        case ArchiveRequest => o := p.HandleArchive();
        case Sweep => o := p.ArchiveInactive();
        case UnarchiveRequest => o := p.EnsureLocal();
        case UseRequest(edit) => o := p.Use(edit);
      }
      i := i + 1;
    }
  }

  /** Archiving a project and bringing it back gives back the directory that was there. */
  method ArchiveAndBack(p: Project) returns (archived: Outcome, back: Outcome)
    requires p.Valid()
    modifies p
    ensures p.Valid()
    ensures archived.Done? && back.Done? && old(p.local).Some? ==> p.local == old(p.local) && p.record.storage == Local
    ensures p.works && old(p.record.storage) in {Local, Error} && old(p.local).Some? ==> archived.Done? && back.Done?
  {
    archived := p.HandleArchive();
    back := Failed;
    if archived.Done? {
      back := p.EnsureLocal();
    }
  }
}
