/** The worker pool that copies legacy files (internal/app/project_legacy_import.go, copyLegacyImportTasks). */
module ImportPool {
  import opened Prelude

  const COPY_CONCURRENCY: nat := 32

  /** Where a worker stands; tasks are known by their position. */
  datatype Worker =
    | Receiving
    | Got(task: nat)
    | Copying(task: nat)
    | Copied(task: nat, files: int, bytes: int)
    | Failed(task: nat, error: string)
    | Exited

  datatype Outcome = Success(files: int, bytes: int) | Error(error: string) | Skipped

  /** A task whose worker is through with it, in the order in which the workers got there. */
  datatype Settled = Settled(task: nat, outcome: Outcome)

  datatype Stats = Stats(files: int, bytes: int)

  datatype Pool = Pool(tasks: nat, next: nat, closed: bool, returned: bool, workers: seq<Worker>, stats: Stats, firstErr: Option<string>,
                       log: seq<Settled>)

  datatype Action =
    | HandOff(w: nat)
    | Check(w: nat)
    | Succeed(w: nat, files: int, bytes: int)
    | Break(w: nat, error: string)
    | AddStats(w: nat)
    | SetErr(w: nat)
    | Close
    | Exit(w: nat)
    | Return

  function Start(tasks: nat): Pool {
    var count := if tasks < COPY_CONCURRENCY then tasks else COPY_CONCURRENCY;
    Pool(tasks, 0, false, false, seq(count, _ => Receiving), Stats(0, 0), None, [])
  }

  ghost predicate Enabled(p: Pool, a: Action) {
    match a
    case HandOff(w) => p.next < p.tasks && w < |p.workers| && p.workers[w].Receiving?
    case Check(w) => w < |p.workers| && p.workers[w].Got?
    case Succeed(w, _, _) => w < |p.workers| && p.workers[w].Copying?
    case Break(w, _) => w < |p.workers| && p.workers[w].Copying?
    case AddStats(w) => w < |p.workers| && p.workers[w].Copied?
    case SetErr(w) => w < |p.workers| && p.workers[w].Failed?
    case Close => p.next == p.tasks && !p.closed
    case Exit(w) => p.closed && w < |p.workers| && p.workers[w].Receiving?
    case Return => p.closed && !p.returned && forall w :: 0 <= w < |p.workers| ==> p.workers[w].Exited?
  }

  function Step(p: Pool, a: Action): Pool
    requires Enabled(p, a)
  {
    match a
    case HandOff(w) => p.(workers := p.workers[w := Got(p.next)], next := p.next + 1)
    case Check(w) =>
      var task := p.workers[w].task;
      if p.firstErr.Some? then p.(workers := p.workers[w := Receiving], log := p.log + [Settled(task, Skipped)])
      else p.(workers := p.workers[w := Copying(task)])
    case Succeed(w, files, bytes) => p.(workers := p.workers[w := Copied(p.workers[w].task, files, bytes)])
    case Break(w, error) => p.(workers := p.workers[w := Failed(p.workers[w].task, error)])
    case AddStats(w) =>
      var c := p.workers[w];
      p.(workers := p.workers[w := Receiving], stats := Stats(p.stats.files + c.files, p.stats.bytes + c.bytes),
         log := p.log + [Settled(c.task, Success(c.files, c.bytes))])
    case SetErr(w) =>
      var f := p.workers[w];
      p.(workers := p.workers[w := Receiving], firstErr := if p.firstErr.None? then Some(f.error) else p.firstErr,
         log := p.log + [Settled(f.task, Error(f.error))])
    case Close => p.(closed := true)
    case Exit(w) => p.(workers := p.workers[w := Exited])
    case Return => p.(returned := true)
  }

  /* What the log says */

  function SumOf(log: seq<Settled>): Stats {
    if log == [] then Stats(0, 0)
    else
      var before, o := SumOf(log[..|log| - 1]), log[|log| - 1].outcome;
      if o.Success? then Stats(before.files + o.files, before.bytes + o.bytes) else before
  }

  function FirstError(log: seq<Settled>): Option<string> {
    if log == [] then None
    else
      var before := FirstError(log[..|log| - 1]);
      if before.None? && log[|log| - 1].outcome.Error? then Some(log[|log| - 1].outcome.error) else before
  }

  predicate Holds(w: Worker) {
    w.Got? || w.Copying? || w.Copied? || w.Failed?
  }

  /** A task that was handed out is either with one worker or settled, not both, and not twice. */
  ghost predicate TasksTracked(p: Pool) {
    && p.next <= p.tasks
    && (forall w :: 0 <= w < |p.workers| && Holds(p.workers[w]) ==> p.workers[w].task < p.next)
    && (forall k :: 0 <= k < |p.log| ==> p.log[k].task < p.next)
    && (forall v, w :: 0 <= v < w < |p.workers| && Holds(p.workers[v]) && Holds(p.workers[w]) ==> p.workers[v].task != p.workers[w].task)
    && (forall k, m :: 0 <= k < m < |p.log| ==> p.log[k].task != p.log[m].task)
    && (forall w, k :: 0 <= w < |p.workers| && Holds(p.workers[w]) && 0 <= k < |p.log| ==> p.workers[w].task != p.log[k].task)
    && (forall t :: 0 <= t < p.next ==> WithWorker(p, t) || InLog(p, t))
  }

  predicate WithWorker(p: Pool, t: int) {
    exists w :: 0 <= w < |p.workers| && Holds(p.workers[w]) && p.workers[w].task == t
  }

  predicate InLog(p: Pool, t: int) {
    exists k :: 0 <= k < |p.log| && p.log[k].task == t
  }

  ghost predicate Counted(p: Pool) {
    && p.stats == SumOf(p.log) && p.firstErr == FirstError(p.log)
    && forall k :: 0 <= k < |p.log| && p.log[k].outcome.Skipped? ==> p.firstErr.Some?
  }

  ghost predicate Inv(p: Pool) {
    && TasksTracked(p) && Counted(p)
    && (p.closed ==> p.next == p.tasks)
    && (forall w :: 0 <= w < |p.workers| && p.workers[w].Exited? ==> p.closed)
    && (p.tasks > 0 ==> |p.workers| > 0)
    && (p.returned ==> p.closed && forall w :: 0 <= w < |p.workers| ==> p.workers[w].Exited?)
  }

  lemma StartInv(tasks: nat)
    ensures Inv(Start(tasks))
  {
  }

  lemma LogAppend(log: seq<Settled>, s: Settled)
    ensures SumOf(log + [s]) == if s.outcome.Success? then Stats(SumOf(log).files + s.outcome.files, SumOf(log).bytes + s.outcome.bytes) else SumOf(log)
    ensures FirstError(log + [s]) == if FirstError(log).None? && s.outcome.Error? then Some(s.outcome.error) else FirstError(log)
  {
    assert (log + [s])[..|log|] == log;
  }

  lemma {:induction false} CountsStay(p: Pool, a: Action)
    requires Counted(p) && Enabled(p, a)
    ensures Counted(Step(p, a))
  {
    hide SumOf, FirstError;
    match a
    case Check(w) => LogAppend(p.log, Settled(p.workers[w].task, Skipped));
    case AddStats(w) => LogAppend(p.log, Settled(p.workers[w].task, Success(p.workers[w].files, p.workers[w].bytes)));
    case SetErr(w) => LogAppend(p.log, Settled(p.workers[w].task, Error(p.workers[w].error)));
    case _ =>
  }

  /** A worker that goes on with its task, or takes the next one. */
  lemma KeepingStays(p: Pool, w: nat, now: Worker, next: nat)
    requires TasksTracked(p) && w < |p.workers|
    requires next <= p.tasks
    requires if Holds(p.workers[w]) then Holds(now) && now.task == p.workers[w].task && next == p.next
      else if Holds(now) then now.task == p.next && next == p.next + 1
      else next == p.next
    ensures TasksTracked(p.(workers := p.workers[w := now], next := next))
  {
    var n := p.(workers := p.workers[w := now], next := next);
    forall t | 0 <= t < n.next ensures WithWorker(n, t) || InLog(n, t) {
      if Holds(now) && t == now.task {
        assert n.workers[w].task == t;
      } else if WithWorker(p, t) {
        var v :| 0 <= v < |p.workers| && Holds(p.workers[v]) && p.workers[v].task == t;
        assert n.workers[v] == p.workers[v];
      } else {
        assert InLog(p, t);
      }
    }
  }

  /** A worker that is through with its task. */
  lemma SettlingStays(p: Pool, w: nat, outcome: Outcome)
    requires TasksTracked(p) && w < |p.workers| && Holds(p.workers[w])
    ensures TasksTracked(p.(workers := p.workers[w := Receiving], log := p.log + [Settled(p.workers[w].task, outcome)]))
  {
    var s := Settled(p.workers[w].task, outcome);
    var n := p.(workers := p.workers[w := Receiving], log := p.log + [s]);
    forall t | 0 <= t < n.next ensures WithWorker(n, t) || InLog(n, t) {
      if t == s.task {
        assert n.log[|p.log|].task == t;
      } else if WithWorker(p, t) {
        var v :| 0 <= v < |p.workers| && Holds(p.workers[v]) && p.workers[v].task == t;
        assert n.workers[v] == p.workers[v];
      } else {
        var k :| 0 <= k < |p.log| && p.log[k].task == t;
        assert n.log[k] == p.log[k];
      }
    }
  }

  lemma TrackingIgnores(p: Pool, n: Pool)
    requires TasksTracked(p) && n.tasks == p.tasks && n.next == p.next && n.workers == p.workers && n.log == p.log
    ensures TasksTracked(n)
  {
    forall t | 0 <= t < n.next ensures WithWorker(n, t) || InLog(n, t) { assert WithWorker(p, t) || InLog(p, t); }
  }

  lemma TrackingStays(p: Pool, a: Action)
    requires Inv(p) && Enabled(p, a)
    ensures TasksTracked(Step(p, a))
  {
    hide TasksTracked, Counted;
    match a
    case HandOff(w) => KeepingStays(p, w, Got(p.next), p.next + 1) by { NextIsLeft(p, a); }
    case Check(w) =>
      SettlingStays(p, w, Skipped);
      KeepingStays(p, w, Copying(p.workers[w].task), p.next) by { NextIsLeft(p, a); }
    case Succeed(w, files, bytes) => KeepingStays(p, w, Copied(p.workers[w].task, files, bytes), p.next) by { NextIsLeft(p, a); }
    case Break(w, error) => KeepingStays(p, w, Failed(p.workers[w].task, error), p.next) by { NextIsLeft(p, a); }
    case AddStats(w) =>
      SettlingStays(p, w, Success(p.workers[w].files, p.workers[w].bytes));
      TrackingIgnores(p.(workers := p.workers[w := Receiving], log := Step(p, a).log), Step(p, a));
    case SetErr(w) =>
      SettlingStays(p, w, Error(p.workers[w].error));
      TrackingIgnores(p.(workers := p.workers[w := Receiving], log := Step(p, a).log), Step(p, a));
    case Close => TrackingIgnores(p, Step(p, a));
    case Exit(w) => KeepingStays(p, w, Exited, p.next) by { NextIsLeft(p, a); }
    case Return => TrackingIgnores(p, Step(p, a));
  }

  lemma NextIsLeft(p: Pool, a: Action)
    requires Inv(p) && Enabled(p, a)
    ensures p.next <= p.tasks && TasksTracked(p)
  {
  }

  lemma StepKeepsInv(p: Pool, a: Action)
    requires Inv(p) && Enabled(p, a)
    ensures Inv(Step(p, a))
  {
    hide TasksTracked, Counted;
    TrackingStays(p, a);
    CountsStay(p, a);
  }

  /* Progress */

  function Weight(w: Worker): nat {
    match w
    case Got(_) => 4
    case Copying(_) => 3
    case Copied(_, _, _) => 2
    case Failed(_, _) => 2
    case Receiving => 1
    case Exited => 0
  }

  function TotalWeight(workers: seq<Worker>): nat {
    if workers == [] then 0 else TotalWeight(workers[..|workers| - 1]) + Weight(workers[|workers| - 1])
  }

  /** How many steps the pool can still make at most. */
  function Measure(p: Pool): int {
    4 * (p.tasks - p.next) + TotalWeight(p.workers) + (if p.closed then 0 else 1) + (if p.returned then 0 else 1)
  }

  lemma {:induction false} WeightOfUpdate(workers: seq<Worker>, w: nat, now: Worker)
    requires w < |workers|
    ensures TotalWeight(workers[w := now]) == TotalWeight(workers) - Weight(workers[w]) + Weight(now)
  {
    var n := |workers| - 1;
    hide Weight;
    if w == n {
      assert workers[w := now][..n] == workers[..n];
    } else {
      assert workers[w := now][..n] == workers[..n][w := now];
      WeightOfUpdate(workers[..n], w, now);
    }
  }

  lemma StepCountsDown(p: Pool, a: Action)
    requires Enabled(p, a)
    ensures Measure(Step(p, a)) < Measure(p)
  {
    if !a.Close? && !a.Return? {
      WeightOfUpdate(p.workers, a.w, Step(p, a).workers[a.w]);
    }
    hide TotalWeight;
  }

  /** Until the pool returns some step is possible, whatever the schedule and the errors were. */
  lemma SomethingCanHappen(p: Pool)
    requires Inv(p) && !p.returned
    ensures exists a :: Enabled(p, a)
  {
    hide TasksTracked, Counted;
    if w :| 0 <= w < |p.workers| && Holds(p.workers[w]) {
      var a := match p.workers[w]
        case Got(_) => Check(w)
        case Copying(_) => Succeed(w, 0, 0)
        case Copied(_, _, _) => AddStats(w)
        case Failed(_, _) => SetErr(w)
        case _ => Close;
      assert Enabled(p, a);
    } else if w :| 0 <= w < |p.workers| && p.workers[w].Receiving? {
      if p.next < p.tasks {
        assert Enabled(p, HandOff(w));
      } else if p.closed {
        assert Enabled(p, Exit(w));
      } else {
        assert p.next == p.tasks by { NextInRange(p); }
        assert Enabled(p, Close);
      }
    } else if p.closed {
      assert Enabled(p, Return);
    } else {
      assert p.next == p.tasks by {
        NextInRange(p);
        WorkersAreSomewhere(p);
      }
      assert Enabled(p, Close);
    }
  }

  lemma WorkersAreSomewhere(p: Pool)
    ensures |p.workers| > 0 ==> exists w :: 0 <= w < |p.workers| && (Holds(p.workers[w]) || p.workers[w].Receiving? || p.workers[w].Exited?)
  {
    assert |p.workers| > 0 ==> Holds(p.workers[0]) || p.workers[0].Receiving? || p.workers[0].Exited?;
  }

  lemma NextInRange(p: Pool)
    requires Inv(p)
    ensures p.next <= p.tasks
  {
  }

  /* Runs */

  ghost predicate IsRun(pools: seq<Pool>, actions: seq<Action>) {
    && |pools| == |actions| + 1
    && forall i :: 0 <= i < |actions| ==> Enabled(pools[i], actions[i]) && pools[i + 1] == Step(pools[i], actions[i])
  }

  lemma {:induction false} RunKeepsInv(pools: seq<Pool>, actions: seq<Action>, k: nat)
    requires IsRun(pools, actions) && Inv(pools[0]) && k < |pools|
    ensures Inv(pools[k]) && pools[k].tasks == pools[0].tasks
    ensures k + Measure(pools[k]) <= Measure(pools[0])
  {
    hide Inv, Measure;
    if k > 0 {
      RunKeepsInv(pools, actions, k - 1);
      StepKeepsInv(pools[k - 1], actions[k - 1]);
      StepCountsDown(pools[k - 1], actions[k - 1]);
    }
  }

  /** No schedule deadlocks or goes on forever: before the return a step is possible, and steps are bounded. */
  lemma EverySchedulePasses(tasks: nat, pools: seq<Pool>, actions: seq<Action>)
    requires IsRun(pools, actions) && pools[0] == Start(tasks)
    ensures |actions| <= Measure(Start(tasks))
    ensures var last := pools[|actions|]; !last.returned ==> exists a :: Enabled(last, a)
  {
    StartInv(tasks);
    RunKeepsInv(pools, actions, |actions|);
    var last := pools[|actions|];
    hide Start, Inv;
    if !last.returned { SomethingCanHappen(last); }
    assert Measure(last) >= 0 by { MeasureIsNatural(last); }
  }

  lemma MeasureIsNatural(p: Pool)
    requires Inv(p)
    ensures Measure(p) >= 0
  {
  }

  /* What the actions of a run say */

  /** A copy that succeeds is one more. */
  function More(p: Pool, a: Action, done: seq<Settled>): seq<Settled>
    requires a.Succeed? ==> a.w < |p.workers| && p.workers[a.w].Copying?
  {
    if a.Succeed? then done + [Settled(p.workers[a.w].task, Success(a.files, a.bytes))] else done
  }

  /** The copies that succeeded in the first `n` steps, in the order in which they did. */
  ghost function Successes(pools: seq<Pool>, actions: seq<Action>, n: nat): (done: seq<Settled>)
    requires IsRun(pools, actions) && n <= |actions|
    ensures forall k :: 0 <= k < |done| ==> done[k].outcome.Success?
  {
    if n == 0 then [] else More(pools[n - 1], actions[n - 1], Successes(pools, actions, n - 1))
  }

  /** The error of the first worker that reported one in the first `n` steps. */
  ghost function FirstReport(pools: seq<Pool>, actions: seq<Action>, n: nat): Option<string>
    requires IsRun(pools, actions) && n <= |actions|
  {
    if n == 0 then None
    else
      var before := FirstReport(pools, actions, n - 1);
      if before.None? && actions[n - 1].SetErr? then Some(pools[n - 1].workers[actions[n - 1].w].error) else before
  }

  /** Some copy failed with the error in the first `n` steps. */
  predicate Broke(actions: seq<Action>, n: nat, error: string) {
    exists i :: 0 <= i < n && i < |actions| && actions[i].Break? && actions[i].error == error
  }

  function Own(w: Worker): Stats {
    if w.Copied? then Stats(w.files, w.bytes) else Stats(0, 0)
  }

  /** What workers have copied but not added yet. */
  function Pending(workers: seq<Worker>): Stats {
    if workers == [] then Stats(0, 0)
    else
      var before, own := Pending(workers[..|workers| - 1]), Own(workers[|workers| - 1]);
      Stats(before.files + own.files, before.bytes + own.bytes)
  }

  lemma {:induction false} PendingOfUpdate(workers: seq<Worker>, w: nat, now: Worker)
    requires w < |workers|
    ensures var after, before := Pending(workers[w := now]), Pending(workers);
      && after.files == before.files - Own(workers[w]).files + Own(now).files
      && after.bytes == before.bytes - Own(workers[w]).bytes + Own(now).bytes
  {
    var n := |workers| - 1;
    hide Own;
    if w == n {
      assert workers[w := now][..n] == workers[..n];
    } else {
      assert workers[w := now][..n] == workers[..n][w := now];
      PendingOfUpdate(workers[..n], w, now);
    }
  }

  lemma {:induction false} NothingPending(workers: seq<Worker>)
    requires forall w :: 0 <= w < |workers| ==> !workers[w].Copied?
    ensures Pending(workers) == Stats(0, 0)
  {
    if workers != [] {
      var init, last := workers[..|workers| - 1], workers[|workers| - 1];
      assert Own(last) == Stats(0, 0);
      NothingPending(init);
      hide Own;
    }
  }

  /** The statistics and what is still pending are the sum over the copies that succeeded. */
  ghost predicate SumsUp(p: Pool, done: Stats) {
    var pending := Pending(p.workers);
    done.files == p.stats.files + pending.files && done.bytes == p.stats.bytes + pending.bytes
  }

  /** A step moves sums from the workers to the statistics, or adds what a copy has just brought. */
  lemma {:induction false} SumStep(p: Pool, a: Action, done: seq<Settled>)
    requires Enabled(p, a) && SumsUp(p, SumOf(done))
    ensures SumsUp(Step(p, a), SumOf(More(p, a, done)))
  {
    PendingStep(p, a);
    if a.Succeed? { LogAppend(done, Settled(p.workers[a.w].task, Success(a.files, a.bytes))); }
    hide Pending, SumOf, Step;
  }

  lemma {:induction false} PendingStep(p: Pool, a: Action)
    requires Enabled(p, a)
    ensures var q := Step(p, a); var was, now := Pending(p.workers), Pending(q.workers);
      && q.stats.files + now.files == p.stats.files + was.files + (if a.Succeed? then a.files else 0)
      && q.stats.bytes + now.bytes == p.stats.bytes + was.bytes + (if a.Succeed? then a.bytes else 0)
  {
    hide Pending;
    if !a.Close? && !a.Return? { PendingOfUpdate(p.workers, a.w, Step(p, a).workers[a.w]); }
  }

  lemma {:induction false} SumsFollow(pools: seq<Pool>, actions: seq<Action>, n: nat)
    requires IsRun(pools, actions) && n <= |actions| && SumsUp(pools[0], Stats(0, 0))
    ensures SumsUp(pools[n], SumOf(Successes(pools, actions, n)))
  {
    hide SumsUp, Step, Enabled, More;
    if n == 0 {
      assert SumOf([]) == Stats(0, 0);
    } else {
      SumsFollow(pools, actions, n - 1);
      SumStep(pools[n - 1], actions[n - 1], Successes(pools, actions, n - 1));
    }
  }

  lemma {:induction false} ReportsFollow(pools: seq<Pool>, actions: seq<Action>, n: nat)
    requires IsRun(pools, actions) && n <= |actions| && pools[0].firstErr.None?
    ensures pools[n].firstErr == FirstReport(pools, actions, n)
  {
    if n > 0 {
      ReportsFollow(pools, actions, n - 1);
      assert pools[n] == Step(pools[n - 1], actions[n - 1]);
    }
  }

  ghost predicate Failing(p: Pool, error: string) {
    p.firstErr == Some(error) || exists w :: 0 <= w < |p.workers| && p.workers[w].Failed? && p.workers[w].error == error
  }

  /** Every error around comes from a copy that failed, and a failed copy is on its way to be the error or follows one. */
  ghost predicate ErrorsTraced(p: Pool, actions: seq<Action>, n: nat) {
    && (forall e :: Failing(p, e) ==> Broke(actions, n, e))
    && (forall e :: Broke(actions, n, e) ==> p.firstErr.Some? || Failing(p, e))
  }

  lemma BrokeOneMore(actions: seq<Action>, n: nat, e: string)
    requires n < |actions|
    ensures Broke(actions, n + 1, e) <==> Broke(actions, n, e) || (actions[n].Break? && actions[n].error == e)
  {
    if Broke(actions, n, e) {
      var i :| 0 <= i < n && i < |actions| && actions[i].Break? && actions[i].error == e;
      assert i < n + 1;
    }
  }

  lemma FailingStep(p: Pool, a: Action, e: string)
    requires Enabled(p, a)
    ensures Failing(Step(p, a), e) ==> Failing(p, e) || (a.Break? && a.error == e)
    ensures Failing(p, e) || (a.Break? && a.error == e) ==> Step(p, a).firstErr.Some? || Failing(Step(p, a), e)
  {
    var q := Step(p, a);
    if w :| 0 <= w < |q.workers| && q.workers[w].Failed? && q.workers[w].error == e {
      assert (a.Break? && a.w == w) || q.workers[w] == p.workers[w];
    }
    if w :| 0 <= w < |p.workers| && p.workers[w].Failed? && p.workers[w].error == e {
      assert (a.SetErr? && a.w == w) || q.workers[w] == p.workers[w];
    }
    if a.Break? && a.error == e { assert q.workers[a.w].Failed?; }
  }

  lemma {:induction false} ErrorsFollow(pools: seq<Pool>, actions: seq<Action>, n: nat)
    requires IsRun(pools, actions) && n <= |actions| && forall e :: !Failing(pools[0], e)
    ensures ErrorsTraced(pools[n], actions, n)
  {
    if n > 0 {
      ErrorsFollow(pools, actions, n - 1);
      var p, a := pools[n - 1], actions[n - 1];
      assert pools[n] == Step(p, a);
      hide Failing, Broke, Step, Enabled;
      ErrorKept(p, a);
      forall e
        ensures Failing(pools[n], e) ==> Broke(actions, n, e)
        ensures Broke(actions, n, e) ==> pools[n].firstErr.Some? || Failing(pools[n], e)
      {
        FailingStep(p, a, e);
        BrokeOneMore(actions, n - 1, e);
      }
    }
  }

  lemma ErrorKept(p: Pool, a: Action)
    requires Enabled(p, a)
    ensures p.firstErr.Some? ==> Step(p, a).firstErr == p.firstErr
  {
  }

  /** A success is in the log, or with the worker that has yet to add it. */
  ghost predicate Recorded(p: Pool, s: Settled) {
    s in p.log || (s.outcome.Success? && exists w :: 0 <= w < |p.workers| && p.workers[w] == Copied(s.task, s.outcome.files, s.outcome.bytes))
  }

  ghost predicate SuccessesTraced(p: Pool, done: seq<Settled>) {
    && (forall s: Settled :: s.outcome.Success? ==> (s in done <==> Recorded(p, s)))
    && (forall k, m :: 0 <= k < m < |done| ==> done[k].task != done[m].task)
  }

  lemma RecordedStep(p: Pool, a: Action, s: Settled)
    requires Enabled(p, a) && s.outcome.Success?
    ensures Recorded(Step(p, a), s) <==>
      Recorded(p, s) || (a.Succeed? && s == Settled(p.workers[a.w].task, Success(a.files, a.bytes)))
  {
    var q := Step(p, a);
    if w :| 0 <= w < |q.workers| && q.workers[w] == Copied(s.task, s.outcome.files, s.outcome.bytes) {
      assert (a.Succeed? && a.w == w) || q.workers[w] == p.workers[w];
    }
    if w :| 0 <= w < |p.workers| && p.workers[w] == Copied(s.task, s.outcome.files, s.outcome.bytes) {
      assert a.AddStats? && a.w == w ==> q.log[|p.log|] == s;
      assert (a.AddStats? && a.w == w) || q.workers[w] == p.workers[w];
    }
    if s in p.log {
      var k :| 0 <= k < |p.log| && p.log[k] == s;
      assert q.log[k] == s;
    }
    if a.Succeed? { assert q.workers[a.w] == Copied(p.workers[a.w].task, a.files, a.bytes); }
  }

  lemma CopyingIsNew(p: Pool, w: nat, s: Settled)
    requires TasksTracked(p) && w < |p.workers| && p.workers[w].Copying? && Recorded(p, s)
    ensures s.task != p.workers[w].task
  {
    if s in p.log {
      var k :| 0 <= k < |p.log| && p.log[k] == s;
    }
  }

  lemma SuccessesStep(p: Pool, a: Action, done: seq<Settled>)
    requires Enabled(p, a) && TasksTracked(p) && SuccessesTraced(p, done)
    requires forall k :: 0 <= k < |done| ==> done[k].outcome.Success?
    ensures SuccessesTraced(Step(p, a), More(p, a, done))
  {
    hide Step, Recorded, TasksTracked;
    forall s: Settled | s.outcome.Success? ensures s in More(p, a, done) <==> Recorded(Step(p, a), s) {
      RecordedStep(p, a, s);
    }
    if a.Succeed? {
      forall k | 0 <= k < |done| ensures done[k].task != p.workers[a.w].task {
        CopyingIsNew(p, a.w, done[k]);
      }
    }
  }

  lemma {:induction false} SuccessesFollow(pools: seq<Pool>, actions: seq<Action>, n: nat)
    requires IsRun(pools, actions) && Inv(pools[0]) && n <= |actions| && forall s :: !Recorded(pools[0], s)
    ensures SuccessesTraced(pools[n], Successes(pools, actions, n))
  {
    if n > 0 {
      SuccessesFollow(pools, actions, n - 1);
      RunKeepsInv(pools, actions, n - 1);
      hide Step, Recorded, TasksTracked, Counted, SuccessesTraced, More;
      SuccessesStep(pools[n - 1], actions[n - 1], Successes(pools, actions, n - 1));
    }
  }

  ghost predicate ExactlyOnce(done: seq<Settled>, task: nat) {
    exists k :: 0 <= k < |done| && done[k].task == task && forall m :: 0 <= m < |done| && done[m].task == task ==> m == k
  }

  /**
   * When the pool returns, its statistics are the sums over the copies that succeeded, no task among them twice. Its
   * error is the first one that a worker reported, and that of some failed copy; there is one exactly when some copy
   * failed. If none did, each task was copied exactly once.
   */
  lemma ReturnIsRight(tasks: nat, pools: seq<Pool>, actions: seq<Action>)
    requires IsRun(pools, actions) && pools[0] == Start(tasks) && pools[|actions|].returned
    ensures var last, done := pools[|actions|], Successes(pools, actions, |actions|);
      && last.stats == SumOf(done)
      && (forall k, m :: 0 <= k < m < |done| ==> done[k].task != done[m].task)
      && last.firstErr == FirstReport(pools, actions, |actions|)
      && (last.firstErr.Some? ==> Broke(actions, |actions|, last.firstErr.value))
      && (last.firstErr.None? ==> forall e :: !Broke(actions, |actions|, e))
      && (last.firstErr.None? ==> forall t :: 0 <= t < tasks ==> ExactlyOnce(done, t))
  {
    StartsEmpty(tasks);
    RunKeepsInv(pools, actions, |actions|);
    hide Start, IsRun, Inv, Successes, FirstReport, SumOf, Broke, ExactlyOnce, Failing, Recorded, SumsUp;
    SumsAreRight(pools, actions);
    ErrorIsRight(pools, actions);
    CopiesAreRight(pools, actions);
  }

  lemma {:induction false} SumsAreRight(pools: seq<Pool>, actions: seq<Action>)
    requires IsRun(pools, actions) && SumsUp(pools[0], Stats(0, 0)) && Inv(pools[|actions|]) && pools[|actions|].returned
    ensures pools[|actions|].stats == SumOf(Successes(pools, actions, |actions|))
  {
    AllExited(pools[|actions|]);
    hide Successes, SumOf, Pending, Enabled, Inv, Step;
    SumsFollow(pools, actions, |actions|);
    NothingPending(pools[|actions|].workers);
  }

  lemma {:induction false} AllExited(p: Pool)
    requires Inv(p) && p.returned
    ensures forall w :: 0 <= w < |p.workers| ==> p.workers[w].Exited?
  {
    hide TasksTracked, Counted;
  }

  lemma {:induction false} ErrorIsRight(pools: seq<Pool>, actions: seq<Action>)
    requires IsRun(pools, actions) && pools[0].firstErr.None? && Inv(pools[|actions|]) && pools[|actions|].returned
    requires forall e :: !Failing(pools[0], e)
    ensures var last := pools[|actions|];
      && last.firstErr == FirstReport(pools, actions, |actions|)
      && (last.firstErr.Some? ==> Broke(actions, |actions|, last.firstErr.value))
      && (last.firstErr.None? ==> forall e :: !Broke(actions, |actions|, e))
  {
    AllExited(pools[|actions|]);
    hide FirstReport, Broke, Enabled, Inv, Step;
    ReportsFollow(pools, actions, |actions|);
    ErrorsFollow(pools, actions, |actions|);
    assert pools[|actions|].firstErr.Some? ==> Failing(pools[|actions|], pools[|actions|].firstErr.value);
  }

  lemma {:induction false} CopiesAreRight(pools: seq<Pool>, actions: seq<Action>)
    requires IsRun(pools, actions) && Inv(pools[0]) && Inv(pools[|actions|]) && pools[|actions|].returned
    requires (forall s :: !Recorded(pools[0], s)) && pools[|actions|].tasks == pools[0].tasks
    ensures var last, done := pools[|actions|], Successes(pools, actions, |actions|);
      && (forall k, m :: 0 <= k < m < |done| ==> done[k].task != done[m].task)
      && (last.firstErr.None? ==> forall t :: 0 <= t < pools[0].tasks ==> ExactlyOnce(done, t))
  {
    var last, done := pools[|actions|], Successes(pools, actions, |actions|);
    SuccessesFollow(pools, actions, |actions|);
    hide IsRun, Inv, Successes, Recorded, ExactlyOnce;
    if last.firstErr.None? {
      forall t | 0 <= t < pools[0].tasks ensures ExactlyOnce(done, t) { CopiedOnce(last, done, t); }
    }
  }

  lemma StartsEmpty(tasks: nat)
    ensures var p := Start(tasks);
      && Inv(p) && p.tasks == tasks && p.firstErr.None? && SumsUp(p, Stats(0, 0))
      && (forall e :: !Failing(p, e)) && (forall s :: !Recorded(p, s))
  {
    StartInv(tasks);
    NothingPending(Start(tasks).workers);
  }

  lemma CopiedOnce(p: Pool, done: seq<Settled>, t: nat)
    requires Inv(p) && p.returned && p.firstErr.None? && t < p.tasks && SuccessesTraced(p, done)
    ensures ExactlyOnce(done, t)
  {
    assert WithWorker(p, t) || InLog(p, t);
    var k :| 0 <= k < |p.log| && p.log[k].task == t;
    ErrorsShow(p.log, k);
    assert Recorded(p, p.log[k]) && p.log[k].outcome.Success?;
    var m :| 0 <= m < |done| && done[m] == p.log[k];
  }

  lemma {:induction false} ErrorsShow(log: seq<Settled>, k: nat)
    requires k < |log|
    ensures FirstError(log).None? ==> !log[k].outcome.Error?
  {
    if k < |log| - 1 { ErrorsShow(log[..|log| - 1], k); }
  }
}
