/** Replacing a project directory by an extracted backup (internal/app/backups.go, restoreBackup). */
module DirectorySwap {
  import opened Prelude

  /** What a directory holds; the empty text stands for an empty directory. */
  type Tree = map<string, string>

  datatype Names = Names(target: string, extract: string, rollback: string) {
    predicate Different() { target != extract && target != rollback && extract != rollback }
  }

  function Find(dirs: Tree, name: string): Option<string> {
    if name in dirs then Some(dirs[name]) else None
  }

  /** The project can be found under its own name or the rollback name, or the backup is in its place. */
  ghost predicate Safe(dirs: Tree, before: Tree, names: Names, content: string) {
    && (names.target in before ==>
          || Find(dirs, names.target) == Some(before[names.target])
          || Find(dirs, names.rollback) == Some(before[names.target])
          || Find(dirs, names.target) == Some(content))
    && (forall n :: n != names.target && n != names.extract && n != names.rollback ==> Find(dirs, n) == Find(before, n))
  }

  ghost predicate SafeSince(trace: seq<Tree>, start: nat, before: Tree, names: Names, content: string) {
    forall i :: start <= i < |trace| ==> Safe(trace[i], before, names, content)
  }

  /** All is as before, but for what the extraction name stands for. */
  ghost predicate Undone(dirs: Tree, before: Tree, names: Names) {
    forall n :: n != names.extract ==> Find(dirs, n) == Find(before, n)
  }

  ghost predicate MovedAside(dirs: Tree, before: Tree, names: Names) {
    && names.target in before && names.target !in dirs
    && Find(dirs, names.rollback) == Some(before[names.target])
    && forall n :: n != names.target && n != names.extract && n != names.rollback ==> Find(dirs, n) == Find(before, n)
  }

  lemma UndoneFinds(dirs: Tree, before: Tree, names: Names, n: string)
    requires Undone(dirs, before, names) && n != names.extract
    ensures Find(dirs, n) == Find(before, n)
  {
  }

  lemma UndoneIsSafe(dirs: Tree, before: Tree, names: Names, content: string)
    requires names.Different() && Undone(dirs, before, names)
    ensures Safe(dirs, before, names, content)
  {
  }

  lemma UndoneAndCleaned(dirs: Tree, before: Tree, names: Names)
    requires Undone(dirs, before, names) && names.extract !in dirs && names.extract !in before
    ensures dirs == before
  {
    forall n ensures n in dirs <==> n in before { assert n == names.extract || Find(dirs, n) == Find(before, n); }
    forall n | n in dirs ensures dirs[n] == before[n] { assert Find(dirs, n) == Find(before, n); }
    assert dirs.Keys == before.Keys;
  }

  lemma OnlyTargetDiffers(dirs: Tree, before: Tree, names: Names, content: string)
    requires Safe(dirs, before, names, content) && Find(dirs, names.target) == Some(content)
    requires names.extract !in dirs && names.rollback !in dirs && names.extract !in before && names.rollback !in before
    ensures dirs == before[names.target := content]
  {
    var after := before[names.target := content];
    forall n ensures Find(dirs, n) == Find(after, n) {}
    forall n ensures n in dirs <==> n in after { assert Find(dirs, n) == Find(after, n); }
    assert dirs.Keys == after.Keys;
    forall n | n in dirs ensures dirs[n] == after[n] { assert Find(dirs, n) == Find(after, n); }
  }

  class Directories {
    var dirs: Tree
    /** Whether the renames that undo and the removals that clean up always go through when they can. */
    const undoWorks: bool
    /** Whether every other step goes through when it can. */
    const works: bool
    ghost var trace: seq<Tree>

    constructor (tree: Tree, undoWorks: bool, works: bool)
      ensures dirs == tree && trace == [] && this.undoWorks == undoWorks && this.works == works
    {
      dirs, trace := tree, [];
      this.undoWorks, this.works := undoWorks, works;
    }

    /** rename(2): the new name must be free, or that of an empty directory. */
    predicate CanRename(from: string, to: string)
      reads this
    {
      from in dirs && (to !in dirs || dirs[to] == "")
    }

    method Rename(from: string, to: string, undo: bool) returns (ok: bool)
      modifies this`dirs, this`trace
      ensures ok ==> old(CanRename(from, to)) && dirs == (old(dirs) - {from})[to := old(dirs)[from]]
      ensures !ok ==> dirs == old(dirs)
      ensures (works || (undo && undoWorks)) && old(CanRename(from, to)) ==> ok
      ensures trace == old(trace) + [dirs]
    {
      var fails: bool := *;
      ok := (!fails || works || (undo && undoWorks)) && CanRename(from, to);
      if ok {
        dirs := (dirs - {from})[to := dirs[from]];
      }
      trace := trace + [dirs];
    }

    /** A failed removal may have removed part of what was there. */
    method RemoveAll(name: string)
      modifies this`dirs, this`trace
      ensures forall n :: n != name ==> Find(dirs, n) == Find(old(dirs), n)
      ensures works || undoWorks || name !in old(dirs) ==> name !in dirs
      ensures trace == old(trace) + [dirs]
    {
      var fails: bool, rest: string := *, *;
      if name in dirs {
        if fails && !undoWorks && !works {
          dirs := dirs[name := rest];
        } else {
          dirs := dirs - {name};
        }
      }
      trace := trace + [dirs];
    }

    method MakeDir(name: string) returns (ok: bool)
      modifies this`dirs, this`trace
      ensures dirs == if ok && name !in old(dirs) then old(dirs)[name := ""] else old(dirs)
      ensures works ==> ok
      ensures trace == old(trace) + [dirs]
    {
      var fails: bool := *;
      ok := !fails || works;
      if ok && name !in dirs {
        dirs := dirs[name := ""];
      }
      trace := trace + [dirs];
    }

    /** A failed extraction leaves whatever it got to. */
    method Extract(name: string, content: string) returns (ok: bool)
      requires name in dirs
      modifies this`dirs, this`trace
      ensures ok ==> Find(dirs, name) == Some(content)
      ensures forall n :: n != name ==> Find(dirs, n) == Find(old(dirs), n)
      ensures works ==> ok
      ensures trace == old(trace) + [dirs]
    {
      var part: string := *;
      ok := *;
      ok := ok || works;
      dirs := dirs[name := if ok then content else part];
      trace := trace + [dirs];
    }

    /** os.Stat: present, absent, or some other error. */
    method Stat(name: string) returns (r: Result<bool, ()>)
      ensures r.Ok? ==> (r.value <==> name in dirs)
      ensures works ==> r.Ok?
    {
      var fails: bool := *;
      r := if fails && !works then Err(()) else Ok(name in dirs);
    }

    /** Publishes the extracted backup; `aside` tells that the old project was moved to the rollback name. */
    method Publish(names: Names, aside: bool, ghost before: Tree, ghost content: string, ghost start: nat) returns (ok: bool)
      requires names.Different() && Find(dirs, names.extract) == Some(content)
      requires if aside then MovedAside(dirs, before, names) else names.target !in before && Undone(dirs, before, names)
      requires start <= |trace| && SafeSince(trace, start, before, names, content)
      modifies this`dirs, this`trace
      ensures old(trace) <= trace && SafeSince(trace, start, before, names, content)
      ensures Safe(dirs, before, names, content)
      ensures ok ==> Find(dirs, names.target) == Some(content) && names.extract !in dirs
      ensures !ok && undoWorks && names.rollback !in before ==> Undone(dirs, before, names)
      ensures works ==> ok
      ensures !aside && names.rollback !in before ==> names.rollback !in dirs
    {
      if !aside {
        UndoneFinds(dirs, before, names, names.target);
        UndoneFinds(dirs, before, names, names.rollback);
      }
      ok := Rename(names.extract, names.target, false);
      if !ok && aside {
        var _ := Rename(names.rollback, names.target, true);
      }
    }

    method Swap(names: Names, ghost before: Tree, ghost content: string, ghost start: nat) returns (ok: bool)
      requires names.Different() && Undone(dirs, before, names) && Find(dirs, names.extract) == Some(content)
      requires start <= |trace| && SafeSince(trace, start, before, names, content)
      modifies this`dirs, this`trace
      ensures old(trace) <= trace && SafeSince(trace, start, before, names, content)
      ensures Safe(dirs, before, names, content)
      ensures ok ==> Find(dirs, names.target) == Some(content) && names.extract !in dirs
      ensures !ok && undoWorks && names.rollback !in before ==> Undone(dirs, before, names)
      ensures works && names.rollback !in before ==> ok && names.rollback !in dirs
    {
      UndoneIsSafe(dirs, before, names, content);
      hide SafeSince, Safe, Undone;
      var stat := Stat(names.target);
      if stat.Err? {
        return false;
      }
      if stat.value {
        ok := MoveAside(names, before, content, start);
        if !ok { return; }
      } else {
        UndoneFinds(dirs, before, names, names.target);
      }
      ok := Publish(names, stat.value, before, content, start);
      if ok && stat.value {
        DropRollback(names, before, content, start);
      }
    }

    method MoveAside(names: Names, ghost before: Tree, ghost content: string, ghost start: nat) returns (ok: bool)
      requires names.Different() && Undone(dirs, before, names) && Find(dirs, names.extract) == Some(content) && names.target in dirs
      requires start <= |trace| && SafeSince(trace, start, before, names, content)
      modifies this`dirs, this`trace
      ensures old(trace) <= trace && SafeSince(trace, start, before, names, content)
      ensures ok ==> MovedAside(dirs, before, names) && Find(dirs, names.extract) == Some(content)
      ensures !ok ==> Undone(dirs, before, names) && Safe(dirs, before, names, content)
      ensures works && names.rollback !in before ==> ok
    {
      UndoneIsSafe(dirs, before, names, content);
      UndoneFinds(dirs, before, names, names.target);
      UndoneFinds(dirs, before, names, names.rollback);
      ok := Rename(names.target, names.rollback, false);
    }

    method DropRollback(names: Names, ghost before: Tree, ghost content: string, ghost start: nat)
      requires names.Different() && Safe(dirs, before, names, content) && Find(dirs, names.target) == Some(content)
      requires start <= |trace| && SafeSince(trace, start, before, names, content)
      modifies this`dirs, this`trace
      ensures old(trace) <= trace && SafeSince(trace, start, before, names, content)
      ensures Safe(dirs, before, names, content) && Find(dirs, names.target) == Some(content)
      ensures Find(dirs, names.extract) == old(Find(dirs, names.extract))
      ensures works ==> names.rollback !in dirs
    {
      RemoveAll(names.rollback);
    }

    method DropExtract(ok: bool, names: Names, ghost before: Tree, ghost content: string, ghost start: nat)
      requires names.Different() && Safe(dirs, before, names, content)
      requires start <= |trace| && SafeSince(trace, start, before, names, content)
      requires ok ==> Find(dirs, names.target) == Some(content)
      requires !ok && undoWorks && names.rollback !in before ==> Undone(dirs, before, names)
      modifies this`dirs, this`trace
      ensures old(trace) <= trace && SafeSince(trace, start, before, names, content)
      ensures ok ==> Find(dirs, names.target) == Some(content)
      ensures !ok && undoWorks && names.extract !in before && names.rollback !in before ==> dirs == before
      ensures works ==> names.extract !in dirs
      ensures Find(dirs, names.rollback) == old(Find(dirs, names.rollback))
      ensures Safe(dirs, before, names, content)
    {
      RemoveAll(names.extract);
      if !ok && undoWorks && names.extract !in before && names.rollback !in before { UndoneAndCleaned(dirs, before, names); }
    }

    /**
     * Restores a project from an archive of its directory. The project is under its own or the rollback name at every
     * moment until the backup has taken its place. An error return leaves all directories as they were; only a failure
     * to hand over the new extraction directory leaves that (empty) directory behind. If every step goes through, the
     * backup has replaced the project and nothing else has changed.
     */
    method RestoreBackup(names: Names, content: string) returns (ok: bool, handedOver: bool)
      requires names.Different()
      modifies this`dirs, this`trace
      ensures old(trace) <= trace && SafeSince(trace, |old(trace)|, old(dirs), names, content)
      ensures ok ==> Find(dirs, names.target) == Some(content)
      ensures !ok && undoWorks && names.extract !in old(dirs) && names.rollback !in old(dirs) ==>
        dirs == if handedOver then old(dirs) else old(dirs)[names.extract := ""]
      ensures works && names.extract !in old(dirs) && names.rollback !in old(dirs) ==> ok && dirs == old(dirs)[names.target := content]
    {
      ghost var before, start := dirs, |trace|;
      handedOver := true;
      ok := MakeDir(names.extract);
      UndoneIsSafe(dirs, before, names, content);
      if !ok { return; }
      handedOver := *;
      handedOver := handedOver || works;
      if !handedOver {
        return false, false;
      }
      ok := Extract(names.extract, content);
      UndoneIsSafe(dirs, before, names, content);
      hide Undone, Safe;
      if ok {
        ok := Swap(names, before, content, start);
      }
      DropExtract(ok, names, before, content, start);
      if works && ok && names.extract !in before && names.rollback !in before { OnlyTargetDiffers(dirs, before, names, content); }
    }
  }
}
