/** Keeping the quota tables in their two text files (internal/workspace/workspace.go). */
module QuotaFiles {
  import opened Prelude
  import opened Text
  import opened NameOrder
  import opened ProjectQuota

  /* Sorted keys */

  ghost predicate SortedIds(ids: seq<int>) {
    forall i, j :: 0 <= i < j < |ids| ==> ids[i] < ids[j]
  }

  method InsertId(ids: seq<int>, id: int) returns (out: seq<int>)
    requires SortedIds(ids) && id !in ids
    ensures SortedIds(out)
    ensures forall x :: x in out <==> x in ids || x == id
  {
    hide SortedIds;
    var i := |ids|;
    while i > 0 && id < ids[i - 1]
      invariant 0 <= i <= |ids|
      invariant forall j :: i <= j < |ids| ==> id < ids[j]
    {
      i := i - 1;
    }
    out := ids[..i] + [id] + ids[i..];
    InsertedIsSorted(ids, id, i);
    assert forall x :: x in ids <==> x in ids[..i] || x in ids[i..] by { assert ids == ids[..i] + ids[i..]; }
  }

  lemma InsertedIsSorted(ids: seq<int>, id: int, n: nat)
    requires SortedIds(ids) && id !in ids && n <= |ids|
    requires (n > 0 ==> ids[n - 1] <= id) && (forall j :: n <= j < |ids| ==> id < ids[j])
    ensures SortedIds(ids[..n] + [id] + ids[n..])
  {
    assert n > 0 ==> ids[n - 1] in ids;
    var out := ids[..n] + [id] + ids[n..];
    forall i | 0 <= i < |out| ensures out[i] == if i < n then ids[i] else if i == n then id else ids[i - 1] {}
  }

  lemma SomeId(ids: set<int>)
    ensures ids != {} ==> exists id :: id in ids
  {
    if forall id :: id !in ids { assert ids == {}; }
  }

  method SortIds(keys: set<int>) returns (ids: seq<int>)
    ensures SortedIds(ids)
    ensures forall x :: x in ids <==> x in keys
  {
    ids := [];
    var left := keys;
    while left != {}
      invariant left <= keys && SortedIds(ids)
      invariant forall x :: x in ids <==> x in keys && x !in left
      decreases left
    {
      SomeId(left);
      var id: int :| id in left;
      ids := InsertId(ids, id);
      left := left - {id};
    }
  }

  /* The files */

  function TableOf(projid: Option<string>, projects: Option<string>): Quota {
    Quota(
      ParseIds(Lines(if projid.Some? then projid.value else "")),
      ParsePaths(Lines(if projects.Some? then projects.value else "")))
  }

  class QuotaFiles {
    /** The text of the two files; None if a file does not exist. */
    var projid: Option<string>
    var projects: Option<string>
    const enabled: bool
    /** Whether every file operation and command goes through. */
    const works: bool

    ghost function Table(): Quota
      reads this
    {
      TableOf(projid, projects)
    }

    constructor (projid: Option<string>, projects: Option<string>, enabled: bool, works: bool)
      ensures this.projid == projid && this.projects == projects && this.enabled == enabled && this.works == works
    {
      this.projid, this.projects, this.enabled, this.works := projid, projects, enabled, works;
    }

    /** Replaces the file as a whole, its lines sorted by name, or fails and leaves it. */
    method WriteProjidMap(ids: Ids) returns (ok: bool, ghost names: seq<string>)
      modifies this`projid
      ensures ok ==> SortedNames(names) && (forall i :: 0 <= i < |names| ==> names[i] in ids) && projid == Some(Render(IdLines(ids, names)))
      ensures !ok ==> projid == old(projid)
      ensures works ==> ok
      ensures ok && CleanIds(ids) ==> ParseIds(Lines(projid.value)) == ids
    {
      var fails: bool := *;
      var sorted := SortNames(ids.Keys);
      names := sorted;
      assert forall i :: 0 <= i < |sorted| ==> sorted[i] in sorted;
      ok := !fails || works;
      if ok {
        projid := Some(Render(IdLines(ids, sorted)));
        if CleanIds(ids) { IdsReadBack(ids, sorted); }
      }
    }

    method WriteProjectsMap(paths: Paths) returns (ok: bool, ghost order: seq<int>)
      modifies this`projects
      ensures ok ==> SortedIds(order) && (forall i :: 0 <= i < |order| ==> order[i] in paths) && projects == Some(Render(PathLines(paths, order)))
      ensures !ok ==> projects == old(projects)
      ensures works ==> ok
      ensures ok && CleanPaths(paths) ==> ParsePaths(Lines(projects.value)) == paths
    {
      var fails: bool := *;
      var sorted := SortIds(paths.Keys);
      order := sorted;
      assert forall i :: 0 <= i < |sorted| ==> sorted[i] in sorted;
      ok := !fails || works;
      if ok {
        projects := Some(Render(PathLines(paths, sorted)));
        if CleanPaths(paths) { PathsReadBack(paths, sorted); }
      }
    }

    /** Creates a missing file, empty; the table reads the same. */
    method EnsureFilesExist() returns (ok: bool)
      modifies this
      ensures Table() == old(Table())
      ensures ok ==> projid.Some? && projects.Some?
      ensures works ==> ok
    {
      var fails: bool := *;
      if projects.None? {
        projects := Some("");
      }
      ok := !fails || works;
      if ok && projid.None? {
        projid := Some("");
      }
    }

    lemma TableIsClean()
      ensures Clean(Table())
    {
      hide Lines;
      var ids, paths := if projid.Some? then projid.value else "", if projects.Some? then projects.value else "";
      LinesAreSingle(ids);
      LinesAreSingle(paths);
      ParsedIsClean(Lines(ids));
      ParsedIsClean(Lines(paths));
    }

    /** Records a workspace directory under its quota project; the id file is written first. */
    method EnsureProjectQuota(workspace: string, dir: string) returns (ok: bool)
      modifies this
      ensures !enabled ==> ok && Table() == old(Table())
      ensures enabled && ok && OneLine(dir) ==> Table() == Ensured(old(Table()), workspace, dir)
      ensures !ok && OneLine(dir) ==>
        || Table() == old(Table())
        || Table() == Quota(Ensured(old(Table()), workspace, dir).ids, old(Table()).paths)
        || Table() == Ensured(old(Table()), workspace, dir)
      ensures works ==> ok
    {
      if !enabled {
        return true;
      }
      ok := EnsureFilesExist();
      if !ok { return; }
      hide Render, ParseIds, ParsePaths, Lines, CleanIds, CleanPaths, ProjectName;
      var ids := ReadProjidMap(projid.value);
      var paths := ReadProjectsMap(projects.value);
      ghost var before := Table();
      assert before == Quota(ids, paths);
      var name := ProjectName(workspace);
      var id: int;
      if name in ids {
        id := ids[name];
      } else {
        id := NextProjectId(ids);
      }
      ids, paths := ids[name := id], paths[id := dir];
      if OneLine(dir) { EnsuredIsClean(before, workspace, dir); }
      assert Quota(ids, paths) == Ensured(before, workspace, dir);
      ghost var order, names;
      ok, names := WriteProjidMap(ids);
      if !ok { return; }
      ok, order := WriteProjectsMap(paths);
      if !ok { return; }
      ok := *;
      ok := ok || works;
    }

    lemma EnsuredIsClean(before: Quota, workspace: string, dir: string)
      requires before == Table() && OneLine(dir)
      ensures CleanIds(Ensured(before, workspace, dir).ids) && CleanPaths(Ensured(before, workspace, dir).paths)
    {
      TableIsClean();
      CleanHasCleanIds(before);
      MaxIdFits(before.ids);
      ApplyKeepsClean(before, EnsureOp(workspace, dir));
      hide ProjectName, CleanIds, CleanPaths, Table;
    }

    method DeleteProjectQuota(workspace: string) returns (ok: bool)
      modifies this
      ensures !enabled ==> ok && Table() == old(Table())
      ensures enabled && ok && projid.Some? && projects.Some? ==> Table() == Deleted(old(Table()), workspace)
      ensures !ok ==>
        || Table() == old(Table())
        || Table() == Quota(Deleted(old(Table()), workspace).ids, old(Table()).paths)
      ensures works ==> ok
    {
      if !enabled || projid.None? || projects.None? {
        return true;
      }
      hide Render, ParseIds, ParsePaths, Lines, CleanIds, CleanPaths, ProjectName;
      var ids := ReadProjidMap(projid.value);
      var paths := ReadProjectsMap(projects.value);
      ghost var before := Table();
      assert before == Quota(ids, paths);
      var name := ProjectName(workspace);
      if name !in ids {
        return true;
      }
      var id := ids[name];
      ids, paths := ids - {name}, paths - {id};
      DeletedIsClean(before, workspace);
      assert Quota(ids, paths) == Deleted(before, workspace);
      ghost var order, names;
      ok, names := WriteProjidMap(ids);
      if !ok { return; }
      ok, order := WriteProjectsMap(paths);
    }

    lemma DeletedIsClean(before: Quota, workspace: string)
      requires before == Table()
      ensures CleanIds(Deleted(before, workspace).ids) && CleanPaths(Deleted(before, workspace).paths)
    {
      TableIsClean();
      hide ProjectName, CleanName, OneLine, Table;
    }
  }
}
