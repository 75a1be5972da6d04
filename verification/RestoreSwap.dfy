/**
 * Replacing a project by a restored one with a rollback (internal/workspace/zfs.go, internal/app/backups.go).
 * Every command may fail at any time; a failed command has no effect, except where noted.
 */
module RestoreSwap {
  import opened Prelude
  import Text

  datatype Dataset = Dataset(content: string, mountpoint: string, refquota: string, mounted: bool, owned: bool)

  type Pool = map<string, Dataset>

  /** The names a restore works with. They are made from the project name and the time, so they differ. */
  datatype Names = Names(target: string, temp: string, rollback: string) {
    predicate Different() { target != temp && target != rollback && temp != rollback }
  }

  function Find(pool: Pool, name: string): Option<Dataset> {
    if name in pool then Some(pool[name]) else None
  }

  function Moved(pool: Pool, from: string, to: string): Pool
    requires from in pool
  {
    (pool - {from})[to := pool[from]]
  }

  /** The restored content is in place: published under the target name, mounted and owned. */
  predicate Published(pool: Pool, names: Names, content: string, dir: string) {
    && names.target in pool
    && var d := pool[names.target];
       d.content == content && d.mountpoint == dir && d.mounted && d.owned
  }

  /** What must hold of the original at every moment. */
  ghost predicate Kept(pool: Pool, before: Pool, names: Names, content: string, dir: string) {
    names.target in before ==>
      || Find(pool, names.target) == Some(before[names.target])
      || Find(pool, names.rollback) == Some(before[names.target])
      || Published(pool, names, content, dir)
  }

  /** Datasets with other names are left alone. */
  ghost predicate OthersSame(pool: Pool, before: Pool, names: Names) {
    forall n :: n != names.target && n != names.temp && n != names.rollback ==> Find(pool, n) == Find(before, n)
  }

  ghost predicate Safe(pool: Pool, before: Pool, names: Names, content: string, dir: string) {
    Kept(pool, before, names, content, dir) && OthersSame(pool, before, names)
  }

  /** All is as before, but for what the temporary name stands for. */
  ghost predicate Undone(pool: Pool, before: Pool, names: Names) {
    forall n :: n != names.temp ==> Find(pool, n) == Find(before, n)
  }

  lemma UndoneAndCleaned(pool: Pool, before: Pool, names: Names)
    requires Undone(pool, before, names) && names.temp !in pool && names.temp !in before
    ensures pool == before
  {
    forall n ensures n in pool <==> n in before { assert n == names.temp || Find(pool, n) == Find(before, n); }
    forall n | n in pool ensures pool[n] == before[n] { assert Find(pool, n) == Find(before, n); }
    assert pool.Keys == before.Keys;
  }

  /** The old dataset is moved aside and its name is free. */
  ghost predicate Cleared(pool: Pool, before: Pool, names: Names, content: string) {
    && names.target in before && names.target !in pool
    && names.rollback !in before && Find(pool, names.rollback) == Some(before[names.target])
    && names.temp in pool && pool[names.temp].content == content
    && OthersSame(pool, before, names)
  }

  /** The restored content bears the target name; what had it before was moved aside. */
  ghost predicate Placed(pool: Pool, before: Pool, names: Names, content: string) {
    && names.target in pool && pool[names.target].content == content
    && names.temp !in pool
    && (if names.target in before then names.rollback !in before && Find(pool, names.rollback) == Some(before[names.target])
        else Find(pool, names.rollback) == Find(before, names.rollback))
    && OthersSame(pool, before, names)
  }

  lemma UndoneIsSafe(pool: Pool, before: Pool, names: Names, content: string, dir: string)
    requires names.Different() && Undone(pool, before, names)
    ensures Safe(pool, before, names, content, dir)
    ensures Find(pool, names.target) == Find(before, names.target) && Find(pool, names.rollback) == Find(before, names.rollback)
  {
  }

  lemma PlacedIsSafe(pool: Pool, before: Pool, names: Names, content: string, dir: string)
    requires names.Different() && Placed(pool, before, names, content)
    ensures Safe(pool, before, names, content, dir)
  {
  }

  /** From some point on, every state that the commands went through was safe. */
  ghost predicate SafeSince(trace: seq<Pool>, start: nat, before: Pool, names: Names, content: string, dir: string) {
    forall i :: start <= i < |trace| ==> Safe(trace[i], before, names, content, dir)
  }

  ghost predicate UndoneSince(trace: seq<Pool>, start: nat, before: Pool, names: Names) {
    forall i :: start <= i < |trace| ==> Undone(trace[i], before, names)
  }

  /** The names a restore makes up are free. */
  predicate NamesAreFree(pool: Pool, names: Names) {
    names.temp !in pool && names.rollback !in pool
  }

  predicate HasQuota(refquota: string) {
    Text.TrimSpace(refquota) != "" && Text.TrimSpace(refquota) != "0"
  }

  /** The quota of a dataset after one was asked for: blank and "0" ask for none. */
  function Quota(asked: string, was: string): string {
    if Text.TrimSpace(asked) in {"", "0"} then was else asked
  }

  function QuotaOf(pool: Pool, name: string): string {
    if name in pool then pool[name].refquota else ""
  }

  /** The restored dataset has taken the place of the old one, and nothing else has changed. */
  ghost predicate Restored(pool: Pool, before: Pool, names: Names, content: string, dir: string, refquota: string) {
    var quota := if Text.TrimSpace(refquota) in {"", "0"} then "" else refquota;
    pool == before[names.target := Dataset(content, dir, quota, true, true)]
  }

  lemma PublishedIsThere(names: Names, content: string, dir: string)
    ensures forall pool :: Published(pool, names, content, dir) ==> names.target in pool
  {
  }

  /** A restore that went through leaves just the restored dataset in place of the old one. */
  lemma OnlyTargetDiffers(pool: Pool, before: Pool, names: Names, content: string, dir: string)
    requires names.Different() && NamesAreFree(before, names) && NamesAreFree(pool, names)
    requires OthersSame(pool, before, names) && Published(pool, names, content, dir)
    ensures pool == before[names.target := Dataset(content, dir, pool[names.target].refquota, true, true)]
  {
    var after := before[names.target := Dataset(content, dir, pool[names.target].refquota, true, true)];
    forall n ensures Find(pool, n) == Find(after, n) {}
    forall n ensures n in pool <==> n in after { assert Find(pool, n) == Find(after, n); }
    assert pool.Keys == after.Keys;
    forall n | n in pool ensures pool[n] == after[n] { assert Find(pool, n) == Find(after, n); }
  }

  class Zfs {
    var datasets: Pool
    var mounts: set<string>
    /** Whether the commands that undo and clean up always go through when they can. */
    const undoWorks: bool
    /** Whether every command goes through when it can. */
    const works: bool
    /** The datasets after each command that was run. */
    ghost var trace: seq<Pool>

    constructor (pool: Pool, undoWorks: bool, works: bool)
      ensures datasets == pool && mounts == {} && trace == [] && this.undoWorks == undoWorks && this.works == works
    {
      datasets, mounts, trace := pool, {}, [];
      this.undoWorks, this.works := undoWorks, works;
    }

    /* Commands. Those that undo or clean up are marked as such. */

    predicate Surely(undo: bool) {
      works || (undo && undoWorks)
    }

    method Rename(from: string, to: string, undo: bool) returns (ok: bool)
      modifies this`datasets, this`trace
      ensures ok ==> from in old(datasets) && to !in old(datasets) && datasets == Moved(old(datasets), from, to)
      ensures !ok ==> datasets == old(datasets)
      ensures Surely(undo) && from in old(datasets) && to !in old(datasets) ==> ok
      ensures trace == old(trace) + [datasets]
    {
      var fails: bool := *;
      ok := (!fails || Surely(undo)) && from in datasets && to !in datasets;
      if ok {
        datasets := (datasets - {from})[to := datasets[from]];
      }
      trace := trace + [datasets];
    }

    method Destroy(name: string, undo: bool) returns (ok: bool)
      modifies this`datasets, this`trace
      ensures datasets == if ok then old(datasets) - {name} else old(datasets)
      ensures ok ==> name in old(datasets)
      ensures Surely(undo) && name in old(datasets) ==> ok
      ensures trace == old(trace) + [datasets]
    {
      var fails: bool := *;
      ok := (!fails || Surely(undo)) && name in datasets;
      if ok {
        datasets := datasets - {name};
      }
      trace := trace + [datasets];
    }

    /** A failed receive may leave part of the stream behind. */
    method Receive(name: string, content: string) returns (ok: bool)
      modifies this`datasets, this`trace
      ensures ok ==> name !in old(datasets) && datasets == old(datasets)[name := Dataset(content, "", "", false, false)]
      ensures works && name !in old(datasets) ==> ok
      ensures !ok ==> datasets == old(datasets) || (name !in old(datasets) && name in datasets && datasets - {name} == old(datasets))
      ensures trace == old(trace) + [datasets]
    {
      var fails: bool, partial: bool := *, *;
      ok := (!fails || works) && name !in datasets;
      if ok {
        datasets := datasets[name := Dataset(content, "", "", false, false)];
      } else if partial && name !in datasets {
        ghost var before := datasets;
        datasets := datasets[name := Dataset("", "", "", false, false)];
        assert datasets - {name} == before;
      }
      trace := trace + [datasets];
    }

    method Create(name: string, mountpoint: string, refquota: string) returns (ok: bool)
      modifies this`datasets, this`trace
      ensures ok ==> name !in old(datasets) && datasets == old(datasets)[name := Dataset("", mountpoint, refquota, true, false)]
      ensures !ok ==> datasets == old(datasets)
      ensures works && name !in old(datasets) ==> ok
      ensures trace == old(trace) + [datasets]
    {
      var fails: bool := *;
      ok := (!fails || works) && name !in datasets;
      if ok {
        datasets := datasets[name := Dataset("", mountpoint, refquota, true, false)];
      }
      trace := trace + [datasets];
    }

    /** One command on a single dataset: setting a property, mounting, changing the owner, copying files into it. */
    method Change(name: string, changed: Dataset -> Dataset) returns (ok: bool)
      modifies this`datasets, this`trace
      ensures ok ==> name in old(datasets) && datasets == old(datasets)[name := changed(old(datasets)[name])]
      ensures !ok ==> datasets == old(datasets)
      ensures works && name in old(datasets) ==> ok
      ensures trace == old(trace) + [datasets]
    {
      var fails: bool := *;
      ok := (!fails || works) && name in datasets;
      if ok {
        datasets := datasets[name := changed(datasets[name])];
      }
      trace := trace + [datasets];
    }

    /** `zfs list`: a failed command reads as an absent dataset. */
    method Exists(name: string, undo: bool) returns (found: bool)
      ensures found ==> name in datasets
      ensures Surely(undo) && name in datasets ==> found
    {
      var fails: bool := *;
      found := (!fails || Surely(undo)) && name in datasets;
    }

    method Mounted(name: string) returns (ok: bool, mounted: bool)
      ensures ok ==> name in datasets && mounted == datasets[name].mounted
      ensures works && name in datasets ==> ok
    {
      var fails: bool := *;
      if (fails && !works) || name !in datasets {
        return false, false;
      }
      return true, datasets[name].mounted;
    }

    /* The swap */

    /** Undoes a publication. Whatever fails, the original stays where it can be found. */
    method RollbackPublish(names: Names, targetExists: bool, ghost before: Pool, ghost content: string, ghost dir: string, ghost start: nat)
      requires names.Different() && targetExists == (names.target in before)
      requires Placed(datasets, before, names, content)
      requires start <= |trace| && SafeSince(trace, start, before, names, content, dir)
      modifies this`datasets, this`trace
      ensures old(trace) <= trace && SafeSince(trace, start, before, names, content, dir)
      ensures Safe(datasets, before, names, content, dir)
      ensures undoWorks ==> Undone(datasets, before, names)
    {
      var _ := Rename(names.target, names.temp, true);
      if targetExists {
        var _ := Rename(names.rollback, names.target, true);
      }
    }

    method MoveAside(names: Names, ghost before: Pool, ghost content: string, ghost dir: string, ghost start: nat)
      returns (ok: bool, targetExists: bool)
      requires names.Different()
      requires Undone(datasets, before, names) && names.temp in datasets && datasets[names.temp].content == content
      requires start <= |trace| && SafeSince(trace, start, before, names, content, dir)
      modifies this`datasets, this`trace
      ensures old(trace) <= trace && SafeSince(trace, start, before, names, content, dir)
      ensures ok && targetExists ==> Cleared(datasets, before, names, content)
      ensures Safe(datasets, before, names, content, dir)
      ensures !ok || !targetExists ==> Undone(datasets, before, names) && names.temp in datasets && datasets[names.temp].content == content
      ensures datasets[names.temp].refquota == old(datasets)[names.temp].refquota
      ensures works && NamesAreFree(before, names) ==> ok && targetExists == (names.target in before)
    {
      UndoneIsSafe(datasets, before, names, content, dir);
      ok := true;
      targetExists := Exists(names.target, false);
      if targetExists {
        ok := Rename(names.target, names.rollback, false);
      }
    }

    method Publish(names: Names, targetExists: bool, ghost before: Pool, ghost content: string, ghost dir: string, ghost start: nat)
      returns (ok: bool)
      requires names.Different()
      requires if targetExists then Cleared(datasets, before, names, content)
        else Undone(datasets, before, names) && names.temp in datasets && datasets[names.temp].content == content
      requires start <= |trace| && SafeSince(trace, start, before, names, content, dir)
      modifies this`datasets, this`trace
      ensures old(trace) <= trace && SafeSince(trace, start, before, names, content, dir)
      ensures Safe(datasets, before, names, content, dir)
      ensures ok ==> Placed(datasets, before, names, content) && targetExists == (names.target in before)
      ensures !ok && undoWorks ==> Undone(datasets, before, names)
      ensures ok ==> datasets[names.target].refquota == old(datasets)[names.temp].refquota
      ensures works && targetExists == (names.target in before) ==> ok
    {
      if !targetExists { UndoneIsSafe(datasets, before, names, content, dir); }
      ok := Rename(names.temp, names.target, false);
      if !ok && !targetExists { UndoneIsSafe(datasets, before, names, content, dir); }
      if !ok && targetExists {
        var _ := Rename(names.rollback, names.target, true);
      }
    }

    /** Sets up what was published, undoing it all when a command fails, and drops the old dataset in the end. */
    method Finish(names: Names, targetExists: bool, dir: string, refquota: string, ghost before: Pool, ghost content: string, ghost start: nat)
      returns (ok: bool)
      requires names.Different() && targetExists == (names.target in before)
      requires Placed(datasets, before, names, content)
      requires start <= |trace| && SafeSince(trace, start, before, names, content, dir)
      modifies this`datasets, this`trace
      ensures old(trace) <= trace && SafeSince(trace, start, before, names, content, dir)
      ensures Safe(datasets, before, names, content, dir)
      ensures ok ==> Published(datasets, names, content, dir) && names.temp !in datasets && OthersSame(datasets, before, names)
      ensures !ok && undoWorks ==> Undone(datasets, before, names)
      ensures ok ==> datasets[names.target].refquota == Quota(refquota, old(datasets)[names.target].refquota)
      ensures works ==> ok && Find(datasets, names.rollback) == if targetExists then None else Find(before, names.rollback)
    {
      ok := Configure(names, dir, refquota, before, content, start);
      if !ok {
        RollbackPublish(names, targetExists, before, content, dir, start);
        return;
      }
      if targetExists {
        var _ := Destroy(names.rollback, false);
      }
    }

    method Configure(names: Names, dir: string, refquota: string, ghost before: Pool, ghost content: string, ghost start: nat)
      returns (ok: bool)
      requires names.Different() && Placed(datasets, before, names, content)
      requires start <= |trace| && SafeSince(trace, start, before, names, content, dir)
      modifies this`datasets, this`trace
      ensures old(trace) <= trace && SafeSince(trace, start, before, names, content, dir)
      ensures Placed(datasets, before, names, content)
      ensures ok ==> Published(datasets, names, content, dir)
      ensures ok ==> datasets[names.target].refquota == Quota(refquota, old(datasets)[names.target].refquota)
      ensures works ==> ok
    {
      ok := ChangePlaced(names, (d: Dataset) => d.(mountpoint := dir), before, content, dir, start);
      if !ok { return; }
      if HasQuota(refquota) {
        ok := ChangePlaced(names, (d: Dataset) => d.(refquota := refquota), before, content, dir, start);
        if !ok { return; }
      }
      var mounted;
      ok, mounted := Mounted(names.target);
      if !ok { return; }
      if !mounted {
        ok := ChangePlaced(names, (d: Dataset) => d.(mounted := true), before, content, dir, start);
        if !ok { return; }
      }
      ok := ChangePlaced(names, (d: Dataset) => d.(owned := true), before, content, dir, start);
    }

    method ChangePlaced(names: Names, changed: Dataset -> Dataset, ghost before: Pool, ghost content: string, ghost dir: string, ghost start: nat)
      returns (ok: bool)
      requires names.Different() && Placed(datasets, before, names, content)
      requires changed(datasets[names.target]).content == content
      requires start <= |trace| && SafeSince(trace, start, before, names, content, dir)
      modifies this`datasets, this`trace
      ensures old(trace) <= trace && SafeSince(trace, start, before, names, content, dir)
      ensures Placed(datasets, before, names, content)
      ensures datasets[names.target] == if ok then changed(old(datasets)[names.target]) else old(datasets)[names.target]
      ensures works ==> ok
    {
      ok := Change(names.target, changed);
      PlacedIsSafe(datasets, before, names, content, dir);
    }

    /** Moves the prepared dataset into place: aside with the old one, publish, mount, hand over, drop the old one. */
    method Swap(names: Names, dir: string, refquota: string, ghost before: Pool, ghost content: string, ghost start: nat)
      returns (ok: bool)
      requires names.Different()
      requires Undone(datasets, before, names) && names.temp in datasets && datasets[names.temp].content == content
      requires start <= |trace| && SafeSince(trace, start, before, names, content, dir)
      modifies this
      ensures old(trace) <= trace && SafeSince(trace, start, before, names, content, dir)
      ensures Safe(datasets, before, names, content, dir)
      ensures ok ==> Published(datasets, names, content, dir) && names.temp !in datasets && OthersSame(datasets, before, names)
      ensures !ok && undoWorks ==> Undone(datasets, before, names)
      ensures mounts == if ok then old(mounts) + {names.target} else old(mounts)
      ensures ok ==> names.target in datasets && datasets[names.target].refquota == Quota(refquota, old(datasets)[names.temp].refquota)
      ensures works && NamesAreFree(before, names) ==> ok && names.rollback !in datasets
    {
      ghost var quota := datasets[names.temp].refquota;
      PublishedIsThere(names, content, dir);
      hide Undone, Placed, Safe, Cleared, SafeSince, Published, OthersSame, Quota;
      var targetExists;
      ok, targetExists := MoveAside(names, before, content, dir, start);
      if !ok { return; }
      ok := Publish(names, targetExists, before, content, dir, start);
      if !ok { return; }
      ok := Finish(names, targetExists, dir, refquota, before, content, start);
      if ok {
        mounts := mounts + {names.target};
      }
    }

    /** Destroys what is left under the temporary name. */
    method CleanUp(names: Names, ghost before: Pool, ghost content: string, ghost dir: string, ghost start: nat)
      requires names.Different() && start <= |trace| && SafeSince(trace, start, before, names, content, dir)
      requires Safe(datasets, before, names, content, dir)
      modifies this`datasets, this`trace
      ensures old(trace) <= trace && SafeSince(trace, start, before, names, content, dir)
      ensures datasets == old(datasets) || datasets == old(datasets) - {names.temp}
      ensures undoWorks || works ==> names.temp !in datasets
    {
      var found := Exists(names.temp, true);
      if found {
        var _ := Destroy(names.temp, true);
      }
    }

    /**
     * Restores a project from a ZFS stream. At every moment of every run the original is under the target or the
     * rollback name, until the restored content is published, mounted and owned. An error return leaves the original
     * pool, provided the commands that undo and clean up go through and the temporary name was new.
     */
    method RestoreZfsBackup(names: Names, content: string, dir: string, refquota: string) returns (ok: bool)
      requires names.Different()
      modifies this
      ensures old(trace) <= trace && SafeSince(trace, |old(trace)|, old(datasets), names, content, dir)
      ensures ok ==> Published(datasets, names, content, dir) && OthersSame(datasets, old(datasets), names)
      ensures ok ==> datasets[names.target].refquota == if Text.TrimSpace(refquota) in {"", "0"} then "" else refquota
      ensures !ok && undoWorks && names.temp !in old(datasets) ==> datasets == old(datasets)
      ensures works && NamesAreFree(old(datasets), names) ==> ok && Restored(datasets, old(datasets), names, content, dir, refquota)
      ensures mounts == if ok then old(mounts) + {names.target} else old(mounts)
    {
      ghost var before, start := datasets, |trace|;
      ok := ReceiveTemp(names, content, dir);
      if !ok { return; }
      PublishedIsThere(names, content, dir);
      hide Undone, Placed, Safe, Published, OthersSame, SafeSince;
      ok := Swap(names, dir, refquota, before, content, start);
      CleanUpAfter(ok, names, before, content, dir, start);
      if works && NamesAreFree(before, names) { OnlyTargetDiffers(datasets, before, names, content, dir); }
    }

    method ReceiveTemp(names: Names, content: string, dir: string) returns (ok: bool)
      requires names.Different()
      modifies this`datasets, this`trace
      ensures old(trace) <= trace && SafeSince(trace, |old(trace)|, old(datasets), names, content, dir)
      ensures ok ==> Undone(datasets, old(datasets), names) && names.temp in datasets && datasets[names.temp].content == content
      ensures ok ==> datasets[names.temp].refquota == ""
      ensures !ok && undoWorks && names.temp !in old(datasets) ==> datasets == old(datasets)
      ensures works && names.temp !in old(datasets) ==> ok
    {
      ghost var before := datasets;
      ok := Receive(names.temp, content);
      UndoneIsSafe(datasets, before, names, content, dir);
      if !ok {
        var _ := Destroy(names.temp, true);
        UndoneIsSafe(datasets, before, names, content, dir);
        if undoWorks && names.temp !in before { UndoneAndCleaned(datasets, before, names); }
      }
    }

    /** The deferred clean-up: it keeps a success, and completes the undoing of a failure. */
    method CleanUpAfter(ok: bool, names: Names, ghost before: Pool, ghost content: string, ghost dir: string, ghost start: nat)
      requires names.Different() && start <= |trace| && SafeSince(trace, start, before, names, content, dir)
      requires Safe(datasets, before, names, content, dir)
      requires ok ==> Published(datasets, names, content, dir) && OthersSame(datasets, before, names)
      requires !ok && undoWorks ==> Undone(datasets, before, names)
      modifies this`datasets, this`trace
      ensures old(trace) <= trace && SafeSince(trace, start, before, names, content, dir)
      ensures ok ==> Published(datasets, names, content, dir) && OthersSame(datasets, before, names)
      ensures names.target in old(datasets) ==> names.target in datasets && datasets[names.target] == old(datasets)[names.target]
      ensures names.rollback !in old(datasets) ==> names.rollback !in datasets
      ensures works ==> names.temp !in datasets
      ensures !ok && undoWorks && names.temp !in before ==> datasets == before
    {
      CleanUp(names, before, content, dir, start);
      if !ok && undoWorks && names.temp !in before { UndoneAndCleaned(datasets, before, names); }
    }

    /** Makes the dataset under the temporary name ready; if that fails half-way, nobody removes it. */
    method PrepareTemp(names: Names, tempDir: string, refquota: string) returns (ok: bool)
      modifies this`datasets, this`trace
      ensures old(trace) <= trace && UndoneSince(trace, |old(trace)|, old(datasets), names)
      ensures Undone(datasets, old(datasets), names)
      ensures ok ==> names.temp in datasets && ReadyAt(datasets[names.temp], tempDir)
      ensures ok ==> datasets[names.temp].refquota == Quota(refquota, QuotaOf(old(datasets), names.temp))
      ensures works ==> ok
    {
      ghost var before, start := datasets, |trace|;
      var found := Exists(names.temp, false);
      if found {
        ok := ChangeTemp(names, (d: Dataset) => d.(mountpoint := tempDir), before, start);
        if !ok { return; }
        if HasQuota(refquota) {
          ok := ChangeTemp(names, (d: Dataset) => d.(refquota := refquota), before, start);
          if !ok { return; }
        }
      } else {
        ok := Create(names.temp, tempDir, if HasQuota(refquota) then refquota else "");
        if !ok { return; }
      }
      ok := MountTemp(names, before, start);
    }

    predicate ReadyAt(d: Dataset, dir: string) {
      d.mounted && d.owned && d.mountpoint == dir
    }

    method MountTemp(names: Names, ghost before: Pool, ghost start: nat) returns (ok: bool)
      requires Undone(datasets, before, names) && start <= |trace| && UndoneSince(trace, start, before, names)
      modifies this`datasets, this`trace
      ensures old(trace) <= trace && UndoneSince(trace, start, before, names)
      ensures Undone(datasets, before, names)
      ensures ok ==> names.temp in datasets && names.temp in old(datasets)
      ensures ok ==> datasets[names.temp] == old(datasets)[names.temp].(mounted := true, owned := true)
      ensures works && names.temp in old(datasets) ==> ok
    {
      hide Undone, UndoneSince;
      var mounted;
      ok, mounted := Mounted(names.temp);
      if !ok { return; }
      if !mounted {
        ok := ChangeTemp(names, (d: Dataset) => d.(mounted := true), before, start);
        if !ok { return; }
      }
      ok := ChangeTemp(names, (d: Dataset) => d.(owned := true), before, start);
    }

    method ChangeTemp(names: Names, changed: Dataset -> Dataset, ghost before: Pool, ghost start: nat) returns (ok: bool)
      requires Undone(datasets, before, names) && start <= |trace| && UndoneSince(trace, start, before, names)
      modifies this`datasets, this`trace
      ensures old(trace) <= trace && UndoneSince(trace, start, before, names)
      ensures Undone(datasets, before, names)
      ensures ok ==> names.temp in datasets && names.temp in old(datasets) && datasets[names.temp] == changed(old(datasets)[names.temp])
      ensures !ok ==> datasets == old(datasets)
      ensures works && names.temp in old(datasets) ==> ok
    {
      ok := Change(names.temp, changed);
    }

    /** Copies the files into the dataset, which must be mounted at the place they are copied to. */
    method CopyFiles(names: Names, content: string, tempDir: string, ghost before: Pool, ghost start: nat) returns (ok: bool)
      requires names.temp in datasets && ReadyAt(datasets[names.temp], tempDir)
      requires Undone(datasets, before, names) && start <= |trace| && UndoneSince(trace, start, before, names)
      modifies this`datasets, this`trace
      ensures old(trace) <= trace && UndoneSince(trace, start, before, names)
      ensures Undone(datasets, before, names)
      ensures names.temp in datasets && datasets[names.temp].refquota == old(datasets)[names.temp].refquota
      ensures ok ==> datasets[names.temp].content == content
      ensures works ==> ok
    {
      ok := ChangeTemp(names, (d: Dataset) => d.(content := content), before, start);
    }

    /**
     * The same swap with content copied from a directory. Here an error may leave the dataset under the temporary
     * name behind, namely when it could not even be prepared; every other error return leaves the original pool.
     */
    method ReplaceWithDirectory(names: Names, content: string, dir: string, tempDir: string, refquota: string)
      returns (ok: bool, prepared: bool)
      requires names.Different()
      modifies this
      ensures old(trace) <= trace && SafeSince(trace, |old(trace)|, old(datasets), names, content, dir)
      ensures ok ==> Published(datasets, names, content, dir) && OthersSame(datasets, old(datasets), names)
      ensures ok ==> (datasets[names.target].refquota ==
        if Text.TrimSpace(refquota) !in {"", "0"} then refquota else QuotaOf(old(datasets), names.temp))
      ensures works && NamesAreFree(old(datasets), names) ==> ok && Restored(datasets, old(datasets), names, content, dir, refquota)
      ensures !prepared ==> !ok && Undone(datasets, old(datasets), names)
      ensures !ok && undoWorks && names.temp !in old(datasets) ==> (datasets == old(datasets) <==> prepared || names.temp !in datasets)
      ensures mounts == old(mounts) + (if ok then {names.target} else {}) - (if prepared then {names.temp} else {})
    {
      ghost var before, start := datasets, |trace|;
      prepared := PrepareTemp(names, tempDir, refquota);
      if !prepared {
        SafeWhileUndone(trace, start, before, names, content, dir);
        if names.temp !in before && names.temp !in datasets { UndoneAndCleaned(datasets, before, names); }
        return false, false;
      }
      ok := CopyFiles(names, content, tempDir, before, start);
      UndoneIsSafe(datasets, before, names, content, dir);
      SafeWhileUndone(trace, start, before, names, content, dir);
      PublishedIsThere(names, content, dir);
      hide Undone, Placed, Safe, Published, OthersSame, SafeSince;
      if ok {
        ok := Swap(names, dir, refquota, before, content, start);
      }
      mounts := mounts - {names.temp};
      CleanUpAfter(ok, names, before, content, dir, start);
      if works && NamesAreFree(before, names) { OnlyTargetDiffers(datasets, before, names, content, dir); }
    }
  }

  lemma SafeWhileUndone(trace: seq<Pool>, start: nat, before: Pool, names: Names, content: string, dir: string)
    requires names.Different() && UndoneSince(trace, start, before, names)
    ensures SafeSince(trace, start, before, names, content, dir)
  {
    hide Undone, Safe;
    forall i | start <= i < |trace| ensures Safe(trace[i], before, names, content, dir) {
      UndoneIsSafe(trace[i], before, names, content, dir);
    }
  }
}
