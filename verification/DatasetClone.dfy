/** Cloning a project's dataset through a snapshot (internal/workspace/zfs.go, CloneZFS). */
module DatasetClone {
  import RestoreSwap
  import opened Text

  type Pool = RestoreSwap.Pool

  /** What was there before is still there, as it was. */
  ghost predicate Untouched(pool: Pool, before: Pool) {
    forall n :: n in before ==> n in pool && pool[n] == before[n]
  }

  ghost predicate UntouchedSince(trace: seq<Pool>, start: nat, before: Pool) {
    forall i :: start <= i < |trace| ==> Untouched(trace[i], before)
  }

  /** What can be cloned: two different names, neither of them blank, the first of a dataset, the second quite free. */
  ghost predicate CanClone(pool: Pool, dirs: set<string>, source: string, target: string, dir: string) {
    && TrimSpace(source) != "" && TrimSpace(target) != "" && source != target
    && source in pool && target !in pool && dir !in dirs
  }

  /** A mounted clone with the quota asked for; blank and "0" ask for none. */
  function Cloned(content: string, dir: string, refquota: string): RestoreSwap.Dataset {
    RestoreSwap.Dataset(content, dir, if TrimSpace(refquota) in {"", "0"} then "" else refquota, true, true)
  }

  predicate MountedAt(d: RestoreSwap.Dataset, dir: string) {
    d.mounted && d.mountpoint == dir
  }

  class Zfs {
    var datasets: Pool
    /** The content that each snapshot holds. */
    var snapshots: map<string, string>
    var mounts: set<string>
    /** The directories that exist under the workspaces root. */
    var dirs: set<string>
    /** Whether the commands that clean up always go through when they can. */
    const undoWorks: bool
    /** Whether every other command goes through when it can. */
    const works: bool
    ghost var trace: seq<Pool>

    /** Where a dataset is mounted there is a directory. */
    ghost predicate Valid()
      reads this
    {
      forall n :: n in datasets && datasets[n].mounted ==> datasets[n].mountpoint in dirs
    }

    constructor (pool: Pool, dirs: set<string>, undoWorks: bool, works: bool)
      ensures datasets == pool && snapshots == map[] && mounts == {} && trace == []
      ensures this.dirs == dirs && this.undoWorks == undoWorks && this.works == works
    {
      datasets, snapshots, mounts, trace := pool, map[], {}, [];
      this.dirs := dirs;
      this.undoWorks, this.works := undoWorks, works;
    }

    method Exists(name: string) returns (found: bool)
      ensures found ==> name in datasets
      ensures works && name in datasets ==> found
    {
      var fails: bool := *;
      found := (!fails || works) && name in datasets;
    }

    /** Whether a directory is known not to exist; an error tells nothing. */
    method IsAbsent(dir: string) returns (absent: bool)
      ensures absent ==> dir !in dirs
      ensures works && dir !in dirs ==> absent
    {
      var fails: bool := *;
      absent := (!fails || works) && dir !in dirs;
    }

    method Snapshot(dataset: string, snapshot: string) returns (ok: bool)
      modifies this`snapshots
      ensures ok ==> dataset in datasets && snapshot !in old(snapshots) && snapshots == old(snapshots)[snapshot := datasets[dataset].content]
      ensures !ok ==> snapshots == old(snapshots)
      ensures works && dataset in datasets && snapshot !in old(snapshots) ==> ok
    {
      var fails: bool := *;
      ok := (!fails || works) && dataset in datasets && snapshot !in snapshots;
      if ok {
        snapshots := snapshots[snapshot := datasets[dataset].content];
      }
    }

    /** The directory to mount at is made along the way, also when the command fails later. */
    method CloneSnapshot(snapshot: string, target: string, mountpoint: string) returns (ok: bool)
      modifies this`datasets, this`dirs, this`trace
      ensures dirs == old(dirs) || dirs == old(dirs) + {mountpoint}
      ensures ok ==> dirs == old(dirs) + {mountpoint}
      ensures ok ==> snapshot in snapshots && target !in old(datasets)
      ensures ok ==> datasets == old(datasets)[target := RestoreSwap.Dataset(snapshots[snapshot], mountpoint, "", true, false)]
      ensures !ok ==> datasets == old(datasets)
      ensures works && snapshot in snapshots && target !in old(datasets) ==> ok
      ensures trace == old(trace) + [datasets]
    {
      var fails: bool := *;
      ok := (!fails || works) && snapshot in snapshots && target !in datasets;
      if ok {
        datasets := datasets[target := RestoreSwap.Dataset(snapshots[snapshot], mountpoint, "", true, false)];
      }
      var made: bool := *;
      if ok || made {
        dirs := dirs + {mountpoint};
      }
      trace := trace + [datasets];
    }

    method Change(name: string, changed: RestoreSwap.Dataset -> RestoreSwap.Dataset) returns (ok: bool)
      modifies this`datasets, this`trace
      ensures ok ==> name in old(datasets) && datasets == old(datasets)[name := changed(old(datasets)[name])]
      ensures !ok ==> datasets == old(datasets)
      ensures works && name in old(datasets) ==> ok
      ensures trace == old(trace) + [datasets]
    {
      var fails: bool := *;
      ok := (!fails || works) && name in datasets;
      if ok {
        datasets := datasets[name := changed(datasets[name])];
      }
      trace := trace + [datasets];
    }

    method DestroyDataset(name: string)
      modifies this`datasets, this`trace
      ensures datasets == old(datasets) || datasets == old(datasets) - {name}
      ensures undoWorks ==> name !in datasets
      ensures trace == old(trace) + [datasets]
    {
      var fails: bool := *;
      if undoWorks || !fails {
        datasets := datasets - {name};
      }
      trace := trace + [datasets];
    }

    method DestroySnapshot(snapshot: string)
      modifies this`snapshots
      ensures snapshots == old(snapshots) || snapshots == old(snapshots) - {snapshot}
      ensures undoWorks ==> snapshot !in snapshots
    {
      var fails: bool := *;
      if undoWorks || !fails {
        snapshots := snapshots - {snapshot};
      }
    }

    /** Removes a directory with all it holds: a dataset that is mounted there keeps the directory but not its content. */
    method RemoveDirectory(dir: string)
      requires Valid()
      modifies this`datasets, this`dirs, this`trace
      ensures Valid() && datasets.Keys == old(datasets).Keys
      ensures forall n :: n in datasets && !MountedAt(old(datasets)[n], dir) ==> datasets[n] == old(datasets)[n]
      ensures dirs == old(dirs) || dirs == old(dirs) - {dir}
      ensures undoWorks && (forall n :: n in old(datasets) ==> !MountedAt(old(datasets)[n], dir)) ==> dirs == old(dirs) - {dir}
      ensures trace == old(trace) + [datasets]
    {
      var fails: bool := *;
      var busy := exists n :: n in datasets && MountedAt(datasets[n], dir);
      datasets := map n | n in datasets :: if MountedAt(datasets[n], dir) then datasets[n].(content := "") else datasets[n];
      if !busy && (undoWorks || !fails) {
        dirs := dirs - {dir};
      }
      trace := trace + [datasets];
    }

    /** Makes the new dataset from the snapshot and sets it up. */
    method CreateTarget(target: string, snapshot: string, dir: string, refquota: string) returns (ok: bool, created: bool)
      requires Valid()
      modifies this`datasets, this`dirs, this`trace
      ensures Valid()
      ensures dirs == old(dirs) || dirs == old(dirs) + {dir}
      ensures ok ==> dirs == old(dirs) + {dir}
      ensures old(trace) <= trace && UntouchedSince(trace, |old(trace)|, old(datasets)) && Untouched(datasets, old(datasets))
      ensures ok ==> created
      ensures created ==> snapshot in snapshots && target !in old(datasets) && datasets.Keys == old(datasets).Keys + {target}
      ensures !created ==> datasets == old(datasets)
      ensures ok ==> datasets[target] == Cloned(snapshots[snapshot], dir, refquota)
      ensures works && snapshot in snapshots && target !in old(datasets) ==> ok
    {
      ghost var before, start := datasets, |trace|;
      ok := CloneSnapshot(snapshot, target, dir);
      created := ok;
      if !ok { return; }
      if RestoreSwap.HasQuota(refquota) {
        ok := ChangeClone(target, (d: RestoreSwap.Dataset) => d.(refquota := refquota), before, start);
        if !ok { return; }
      }
      ok := ChangeClone(target, (d: RestoreSwap.Dataset) => d.(owned := true), before, start);
    }

    method MayClone(source: string, target: string, dir: string) returns (clear: bool)
      ensures clear ==> source in datasets && source != target && dir !in dirs && TrimSpace(source) != "" && TrimSpace(target) != ""
      ensures works ==> (clear <==> CanClone(datasets, dirs, source, target, dir))
    {
      clear := false;
      if TrimSpace(source) == "" || TrimSpace(target) == "" || source == target { return; }
      var sourceExists := Exists(source);
      if !sourceExists { return; }
      var targetExists := Exists(target);
      if targetExists { return; }
      clear := IsAbsent(dir);
    }

    /**
     * Clones a dataset to a new name. No existing dataset is touched at any moment, not even one that already bears
     * the target name, and no existing directory is removed; an error return leaves neither a new dataset nor a
     * snapshot nor a directory, provided the clean-up goes through.
     */
    method Clone(source: string, target: string, snapshot: string, dir: string, refquota: string) returns (ok: bool)
      requires Valid()
      modifies this
      ensures Valid()
      ensures old(trace) <= trace && UntouchedSince(trace, |old(trace)|, old(datasets)) && Untouched(datasets, old(datasets))
      ensures ok ==>
        && CanClone(old(datasets), old(dirs), source, target, dir) && snapshot !in old(snapshots)
        && datasets == old(datasets)[target := Cloned(old(datasets)[source].content, dir, refquota)]
        && snapshots == old(snapshots)[snapshot := old(datasets)[source].content]
      ensures works ==> (ok <==> CanClone(old(datasets), old(dirs), source, target, dir) && snapshot !in old(snapshots))
      ensures old(dirs) <= dirs
      ensures ok ==> dir !in old(dirs) && dirs == old(dirs) + {dir}
      ensures !ok && undoWorks ==> datasets == old(datasets) && snapshots == old(snapshots) && dirs == old(dirs)
      ensures mounts == if ok then old(mounts) + {target} else old(mounts)
    {
      ok := MayClone(source, target, dir);
      if !ok { return; }
      ok := Snapshot(source, snapshot);
      if !ok { return; }
      ok := CloneFrom(target, snapshot, dir, refquota);
    }

    /** What follows once the snapshot is taken. */
    method CloneFrom(target: string, snapshot: string, dir: string, refquota: string) returns (ok: bool)
      requires Valid() && dir !in dirs && snapshot in snapshots
      modifies this
      ensures Valid()
      ensures old(trace) <= trace && UntouchedSince(trace, |old(trace)|, old(datasets)) && Untouched(datasets, old(datasets))
      ensures ok ==>
        && target !in old(datasets) && snapshots == old(snapshots)
        && datasets == old(datasets)[target := Cloned(old(snapshots)[snapshot], dir, refquota)]
      ensures works && target !in old(datasets) ==> ok
      ensures old(dirs) <= dirs && (ok ==> dirs == old(dirs) + {dir})
      ensures !ok && undoWorks ==> datasets == old(datasets) && snapshots == old(snapshots) - {snapshot} && dirs == old(dirs)
      ensures mounts == if ok then old(mounts) + {target} else old(mounts)
    {
      var created;
      ok, created := CreateTarget(target, snapshot, dir, refquota);
      if ok {
        mounts := mounts + {target};
        assert datasets.Keys == old(datasets)[target := Cloned(snapshots[snapshot], dir, refquota)].Keys;
        return;
      }
      CleanUp(created, target, snapshot, dir, old(datasets), |old(trace)|);
    }

    method CleanUp(created: bool, target: string, snapshot: string, dir: string, ghost before: Pool, ghost start: nat)
      requires Valid()
      requires Untouched(datasets, before) && start <= |trace| && UntouchedSince(trace, start, before)
      requires if created then target !in before && datasets.Keys == before.Keys + {target} else datasets == before
      requires forall n :: n in before ==> !MountedAt(before[n], dir)
      modifies this`datasets, this`snapshots, this`dirs, this`trace
      ensures Valid()
      ensures old(trace) <= trace && UntouchedSince(trace, start, before) && Untouched(datasets, before)
      ensures dirs == old(dirs) || dirs == old(dirs) - {dir}
      ensures undoWorks ==> datasets == before && snapshots == old(snapshots) - {snapshot} && dirs == old(dirs) - {dir}
    {
      if created {
        DestroyDataset(target);
      }
      DestroySnapshot(snapshot);
      RemoveDirectory(dir);
      if undoWorks { assert datasets.Keys == before.Keys; }
    }

    method ChangeClone(target: string, changed: RestoreSwap.Dataset -> RestoreSwap.Dataset, ghost before: Pool, ghost start: nat) returns (ok: bool)
      requires target !in before && Untouched(datasets, before) && datasets.Keys == before.Keys + {target}
      requires forall d :: changed(d).mounted == d.mounted && changed(d).mountpoint == d.mountpoint
      requires start <= |trace| && UntouchedSince(trace, start, before)
      modifies this`datasets, this`trace
      ensures Untouched(datasets, before) && datasets.Keys == before.Keys + {target}
      ensures old(trace) <= trace && UntouchedSince(trace, start, before)
      ensures datasets[target] == if ok then changed(old(datasets)[target]) else old(datasets)[target]
      ensures works ==> ok
    {
      ok := Change(target, changed);
    }
  }
}
