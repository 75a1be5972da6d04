/**
 * The order in which operations take locks, and why they cannot block each other for good
 * (internal/workspace/workspace.go, zfs.go, internal/app/project_storage_state.go).
 */
module LockOrder {
  import opened Text

  datatype Lock = Project(name: string) | Workspace(name: string) | Quota | Mounts | Containers

  function Rank(l: Lock): nat {
    match l
    case Project(_) => 0
    case Workspace(_) => 1
    case Quota => 2
    case Mounts => 3
    case Containers => 4
  }

  function NameOf(l: Lock): string {
    match l
    case Project(name) => name
    case Workspace(name) => name
    case _ => ""
  }

  /** Project locks come first, then workspace locks by name, then the locks of single tables. */
  predicate Precedes(a: Lock, b: Lock) {
    Rank(a) < Rank(b) || (Rank(a) == Rank(b) && Less(NameOf(a), NameOf(b)))
  }

  lemma PrecedesIsOrder(a: Lock, b: Lock)
    ensures Precedes(a, b) || a == b || Precedes(b, a)
    ensures !(Precedes(a, b) && Precedes(b, a)) && !Precedes(a, a)
  {
    LessTotal(NameOf(a), NameOf(b));
  }

  lemma PrecedesTransitive(a: Lock, b: Lock, c: Lock)
    requires Precedes(a, b) && Precedes(b, c)
    ensures Precedes(a, c)
  {
    if Rank(a) == Rank(b) == Rank(c) { LessTransitive(NameOf(a), NameOf(b), NameOf(c)); }
  }

  /* Operations as nested critical sections */

  datatype Section = Section(lock: Lock, body: seq<Section>)

  function Short(lock: Lock): Section {
    Section(lock, [])
  }

  function EnsureWorkspace(name: string): Section {
    Section(Workspace(name), [Short(Mounts), Short(Quota), Short(Mounts)])
  }

  function DeleteWorkspace(name: string): Section {
    Section(Workspace(name), [Short(Mounts), Short(Quota)])
  }

  /** Both clone operations lock the two names in the order of the names. */
  function CloneWorkspace(source: string, target: string): Section {
    var swap := Less(target, source);
    var first, second := if swap then target else source, if swap then source else target;
    Section(Workspace(first), [Section(Workspace(second), [Short(Quota), Short(Mounts)])])
  }

  datatype Operation =
    | Ensure(name: string)
    | Delete(name: string)
    | Clone(source: string, target: string)
    | Archive(name: string)
    | Unarchive(name: string)
    | TouchProject(name: string)
    | EnsureContainer(name: string)

  /** What an operation locks if it goes all the way. */
  function Program(op: Operation): seq<Section> {
    match op
    case Ensure(name) => [EnsureWorkspace(name)]
    case Delete(name) => [DeleteWorkspace(name)]
    case Clone(source, target) => if source == target then [] else [CloneWorkspace(source, target)]
    case Archive(name) => [Section(Project(name), [Short(Containers), Short(Containers), DeleteWorkspace(name)])]
    case Unarchive(name) => [Section(Project(name), [Short(Mounts), Short(Mounts)])]
    case TouchProject(name) => [Short(Project(name))]
    case EnsureContainer(name) =>
      [Short(Containers), Short(Containers), Short(Containers), EnsureWorkspace(name), Short(Containers), Short(Containers)]
  }

  /** What it locks in some run: branches not taken and early returns leave sections out. */
  ghost predicate Runs(full: seq<Section>, actual: seq<Section>)
    decreases full, actual
  {
    || actual == []
    || (full != [] && Runs(full[1..], actual))
    || (full != [] && actual[0].lock == full[0].lock && Runs(full[0].body, actual[0].body) && Runs(full[1..], actual[1..]))
  }

  /** Every nested section's lock comes after the lock it is nested in. */
  predicate InOrder(sections: seq<Section>) {
    forall i :: 0 <= i < |sections| ==>
      && (forall k :: 0 <= k < |sections[i].body| ==> Precedes(sections[i].lock, sections[i].body[k].lock))
      && InOrder(sections[i].body)
  }

  lemma ShortsInOrder(sections: seq<Section>)
    requires forall i :: 0 <= i < |sections| ==> sections[i].body == []
    ensures InOrder(sections)
  {
  }

  lemma NestedInOrder(lock: Lock, body: seq<Section>)
    requires InOrder(body) && forall k :: 0 <= k < |body| ==> Precedes(lock, body[k].lock)
    ensures InOrder([Section(lock, body)])
  {
  }

  lemma JoinedInOrder(a: seq<Section>, b: seq<Section>)
    requires InOrder(a) && InOrder(b)
    ensures InOrder(a + b)
  {
  }

  /** All operations nest their locks in the one order. */
  lemma ProgramsAreInOrder(op: Operation)
    ensures InOrder(Program(op))
  {
    var m, q, c := Short(Mounts), Short(Quota), Short(Containers);
    hide InOrder;
    match op
    case Ensure(name) =>
      ShortsInOrder([m, q, m]);
      NestedInOrder(Workspace(name), [m, q, m]);
    case Delete(name) =>
      ShortsInOrder([m, q]);
      NestedInOrder(Workspace(name), [m, q]);
    case Clone(source, target) => CloneIsInOrder(source, target);
    case Archive(name) =>
      ShortsInOrder([c, c]);
      ShortsInOrder([m, q]);
      NestedInOrder(Workspace(name), [m, q]);
      JoinedInOrder([c, c], [DeleteWorkspace(name)]);
      assert [c, c] + [DeleteWorkspace(name)] == [c, c, DeleteWorkspace(name)];
      NestedInOrder(Project(name), [c, c, DeleteWorkspace(name)]);
    case Unarchive(name) =>
      ShortsInOrder([m, m]);
      NestedInOrder(Project(name), [m, m]);
    case TouchProject(name) => ShortsInOrder([Short(Project(name))]);
    case EnsureContainer(name) =>
      ShortsInOrder([c, c, c]);
      ShortsInOrder([c, c]);
      ShortsInOrder([m, q, m]);
      NestedInOrder(Workspace(name), [m, q, m]);
      JoinedInOrder([c, c, c], [EnsureWorkspace(name)]);
      JoinedInOrder([c, c, c] + [EnsureWorkspace(name)], [c, c]);
      assert [c, c, c] + [EnsureWorkspace(name)] + [c, c] == Program(op);
  }

  lemma CloneIsInOrder(source: string, target: string)
    ensures InOrder(Program(Clone(source, target)))
  {
    var m, q := Short(Mounts), Short(Quota);
    LessTotal(source, target);
    hide InOrder, Less;
    ShortsInOrder([q, m]);
    ShortsInOrder([]);
    var swap := Less(target, source);
    var first, second := if swap then target else source, if swap then source else target;
    NestedInOrder(Workspace(second), [q, m]);
    if source != target { NestedInOrder(Workspace(first), [Section(Workspace(second), [q, m])]); }
  }

  lemma {:induction false} LocksOfRun(full: seq<Section>, actual: seq<Section>, i: nat) returns (j: nat)
    requires Runs(full, actual) && i < |actual|
    ensures j < |full| && full[j].lock == actual[i].lock && Runs(full[j].body, actual[i].body)
    decreases full, actual
  {
    if Runs(full[1..], actual) {
      j := LocksOfRun(full[1..], actual, i);
      j := j + 1;
    } else if i == 0 {
      j := 0;
    } else {
      j := LocksOfRun(full[1..], actual[1..], i - 1);
      j := j + 1;
    }
  }

  lemma {:induction false} RunsStayInOrder(full: seq<Section>, actual: seq<Section>)
    requires InOrder(full) && Runs(full, actual)
    ensures InOrder(actual)
    decreases actual
  {
    forall i | 0 <= i < |actual|
      ensures (forall k :: 0 <= k < |actual[i].body| ==> Precedes(actual[i].lock, actual[i].body[k].lock)) && InOrder(actual[i].body)
    {
      var j := LocksOfRun(full, actual, i);
      RunsStayInOrder(full[j].body, actual[i].body);
      forall k | 0 <= k < |actual[i].body| ensures Precedes(actual[i].lock, actual[i].body[k].lock) {
        var m := LocksOfRun(full[j].body, actual[i].body, k);
      }
    }
  }

  /* Threads */

  datatype Instr = Acquire(lock: Lock) | Release(lock: Lock)

  function Code(sections: seq<Section>): seq<Instr> {
    if sections == [] then []
    else [Acquire(sections[0].lock)] + Code(sections[0].body) + [Release(sections[0].lock)] + Code(sections[1..])
  }

  /** The locks a thread holds, the latest last, and what it still has to do. */
  datatype Thread = Thread(held: seq<Lock>, todo: seq<Instr>)

  /** Each lock still to be taken comes after those held at that time, and in the end none is held. */
  ghost predicate Disciplined(held: seq<Lock>, todo: seq<Instr>)
    decreases todo
  {
    if todo == [] then held == []
    else
      match todo[0]
      case Acquire(l) => (forall i :: 0 <= i < |held| ==> Precedes(held[i], l)) && Disciplined(held + [l], todo[1..])
      case Release(l) => held != [] && held[|held| - 1] == l && Disciplined(held[..|held| - 1], todo[1..])
  }

  lemma AcquireFirst(held: seq<Lock>, l: Lock, todo: seq<Instr>)
    requires Disciplined(held + [l], todo) && forall i :: 0 <= i < |held| ==> Precedes(held[i], l)
    ensures Disciplined(held, [Acquire(l)] + todo)
  {
    assert ([Acquire(l)] + todo)[1..] == todo;
  }

  lemma ReleaseFirst(held: seq<Lock>, l: Lock, todo: seq<Instr>)
    requires Disciplined(held, todo)
    ensures Disciplined(held + [l], [Release(l)] + todo)
  {
    assert ([Release(l)] + todo)[1..] == todo && (held + [l])[..|held|] == held;
  }

  ghost predicate AllPrecede(held: seq<Lock>, sections: seq<Section>) {
    forall i, k :: 0 <= i < |held| && 0 <= k < |sections| ==> Precedes(held[i], sections[k].lock)
  }

  lemma InOrderParts(held: seq<Lock>, sections: seq<Section>)
    requires InOrder(sections) && sections != [] && AllPrecede(held, sections)
    ensures InOrder(sections[0].body) && InOrder(sections[1..])
    ensures AllPrecede(held, sections[1..]) && AllPrecede(held + [sections[0].lock], sections[0].body)
    ensures forall i :: 0 <= i < |held| ==> Precedes(held[i], sections[0].lock)
  {
    hide Precedes;
    var s := sections[0];
    var inner := held + [s.lock];
    forall i, k | 0 <= i < |inner| && 0 <= k < |s.body| ensures Precedes(inner[i], s.body[k].lock) {
      if i < |held| { PrecedesTransitive(held[i], s.lock, s.body[k].lock); }
    }
  }

  lemma CodeOfFirst(sections: seq<Section>, rest: seq<Instr>)
    requires sections != []
    ensures var s := sections[0];
      Code(sections) + rest == [Acquire(s.lock)] + (Code(s.body) + ([Release(s.lock)] + (Code(sections[1..]) + rest)))
  {
  }

  /** What a section takes it gives back, so that it can stand in front of any code that fits what is held. */
  lemma {:induction false} CodeIsDisciplined(sections: seq<Section>, held: seq<Lock>, rest: seq<Instr>)
    requires InOrder(sections) && Disciplined(held, rest) && AllPrecede(held, sections)
    ensures Disciplined(held, Code(sections) + rest)
    decreases sections
  {
    if sections == [] {
      assert Code(sections) + rest == rest;
    } else {
      var s, after := sections[0], Code(sections[1..]) + rest;
      hide Disciplined, Precedes, InOrder, AllPrecede, Code;
      InOrderParts(held, sections);
      CodeIsDisciplined(sections[1..], held, rest);
      ReleaseFirst(held, s.lock, after);
      CodeIsDisciplined(s.body, held + [s.lock], [Release(s.lock)] + after);
      AcquireFirst(held, s.lock, Code(s.body) + ([Release(s.lock)] + after));
      CodeOfFirst(sections, rest);
    }
  }

  type Threads = map<nat, Thread>

  predicate Holds(threads: Threads, t: nat, l: Lock) {
    t in threads && l in threads[t].held
  }

  predicate Unfinished(threads: Threads, t: nat) {
    t in threads && threads[t].todo != []
  }

  /** A thread can go on unless it wants a lock that some thread holds. */
  ghost predicate CanStep(threads: Threads, t: nat) {
    Unfinished(threads, t) && (threads[t].todo[0].Acquire? ==> forall u :: !Holds(threads, u, threads[t].todo[0].lock))
  }

  function StepThread(threads: Threads, t: nat): Threads
    requires Unfinished(threads, t)
  {
    var thread := threads[t];
    threads[t := match thread.todo[0]
      case Acquire(l) => Thread(thread.held + [l], thread.todo[1..])
      case Release(_) => Thread(if thread.held == [] then [] else thread.held[..|thread.held| - 1], thread.todo[1..])]
  }

  /** A new thread runs an operation, some way through its sections. */
  ghost predicate Starts(threads: Threads, t: nat, op: Operation, actual: seq<Section>) {
    t !in threads && Runs(Program(op), actual)
  }

  datatype Event = Start(t: nat, op: Operation, actual: seq<Section>) | Go(t: nat)

  ghost predicate Possible(threads: Threads, e: Event) {
    match e
    case Start(t, op, actual) => Starts(threads, t, op, actual)
    case Go(t) => CanStep(threads, t)
  }

  function Next(threads: Threads, e: Event): Threads
    requires e.Go? ==> Unfinished(threads, e.t)
  {
    match e
    case Start(t, _, actual) => threads[t := Thread([], Code(actual))]
    case Go(t) => StepThread(threads, t)
  }

  ghost predicate Inv(threads: Threads) {
    && (forall t :: t in threads ==> Disciplined(threads[t].held, threads[t].todo))
    && (forall t, u, l :: Holds(threads, t, l) && Holds(threads, u, l) ==> t == u)
  }

  lemma NextKeepsInv(threads: Threads, e: Event)
    requires Inv(threads) && Possible(threads, e)
    ensures Inv(Next(threads, e))
  {
    var n := Next(threads, e);
    match e
    case Start(t, op, actual) =>
      ProgramsAreInOrder(op);
      RunsStayInOrder(Program(op), actual);
      CodeIsDisciplined(actual, [], []);
      assert Code(actual) + [] == Code(actual);
      hide Disciplined, Code;
      forall a, b, l | Holds(n, a, l) && Holds(n, b, l) ensures a == b { assert Holds(threads, a, l) && Holds(threads, b, l); }
    case Go(t) => GoKeepsInv(threads, t);
  }

  lemma GoKeepsInv(threads: Threads, t: nat)
    requires Inv(threads) && CanStep(threads, t)
    ensures Inv(StepThread(threads, t))
  {
    var n := StepThread(threads, t);
    assert Disciplined(n[t].held, n[t].todo);
    hide Disciplined;
    forall a, b, l | Holds(n, a, l) && Holds(n, b, l) ensures a == b {
      assert Holds(threads, a, l) || (a == t && threads[t].todo[0] == Acquire(l));
      assert Holds(threads, b, l) || (b == t && threads[t].todo[0] == Acquire(l));
    }
  }

  /* Waiting */

  /** The lock that an unfinished thread's next instruction is about. */
  function Wanted(threads: Threads, t: nat): Lock {
    if Unfinished(threads, t) then threads[t].todo[0].lock else Quota
  }

  /** Thread `t` wants a lock that thread `u` holds. */
  predicate WaitsFor(threads: Threads, t: nat, u: nat) {
    Unfinished(threads, t) && threads[t].todo[0].Acquire? && Holds(threads, u, Wanted(threads, t))
  }

  lemma WaitingClimbs(threads: Threads, t: nat, u: nat, v: nat)
    requires Inv(threads) && WaitsFor(threads, t, u) && WaitsFor(threads, u, v)
    ensures Precedes(Wanted(threads, t), Wanted(threads, u))
  {
    var held, todo := threads[u].held, threads[u].todo;
    assert Disciplined(held, todo);
    var i :| 0 <= i < |held| && held[i] == Wanted(threads, t);
    hide Disciplined;
    assert Precedes(held[i], todo[0].lock) by { AcquiresAbove(held, todo, i); }
  }

  lemma AcquiresAbove(held: seq<Lock>, todo: seq<Instr>, i: nat)
    requires Disciplined(held, todo) && todo != [] && todo[0].Acquire? && i < |held|
    ensures Precedes(held[i], todo[0].lock)
  {
  }

  ghost predicate WaitingChain(threads: Threads, chain: seq<nat>) {
    forall i :: 0 <= i < |chain| - 1 ==> WaitsFor(threads, chain[i], chain[i + 1])
  }

  lemma {:induction false} ChainClimbs(threads: Threads, chain: seq<nat>, j: nat)
    requires Inv(threads) && WaitingChain(threads, chain) && 0 < j < |chain| - 1
    ensures Precedes(Wanted(threads, chain[0]), Wanted(threads, chain[j]))
  {
    hide Inv, Precedes;
    assert WaitsFor(threads, chain[j - 1], chain[j]) && WaitsFor(threads, chain[j], chain[j + 1]);
    WaitingClimbs(threads, chain[j - 1], chain[j], chain[j + 1]);
    if j > 1 {
      ChainClimbs(threads, chain, j - 1);
      PrecedesTransitive(Wanted(threads, chain[0]), Wanted(threads, chain[j - 1]), Wanted(threads, chain[j]));
    }
  }

  /** No reachable state has a cycle of threads that wait for each other. */
  lemma NoWaitingCycle(threads: Threads, chain: seq<nat>)
    requires Inv(threads) && WaitingChain(threads, chain) && |chain| > 1
    ensures chain[0] != chain[|chain| - 1]
  {
    hide Inv, Precedes, Holds;
    var n := |chain| - 1;
    if chain[0] == chain[n] {
      var longer := chain + [chain[1]];
      forall i | 0 <= i < |longer| - 1 ensures WaitsFor(threads, longer[i], longer[i + 1]) {
        assert WaitsFor(threads, chain[0], chain[1]);
      }
      ChainClimbs(threads, longer, n);
      PrecedesIsOrder(Wanted(threads, chain[0]), Wanted(threads, chain[0]));
      assert false;
    }
  }

  /** Someone holds the wanted lock, and is unfinished itself. */
  lemma BlockerIsUnfinished(threads: Threads, t: nat) returns (u: nat)
    requires Inv(threads) && Unfinished(threads, t) && !CanStep(threads, t)
    ensures WaitsFor(threads, t, u) && Unfinished(threads, u)
  {
    var l := threads[t].todo[0].lock;
    u :| Holds(threads, u, l);
    assert l in threads[u].held;
    assert Disciplined(threads[u].held, threads[u].todo);
  }

  /** Whenever a thread is unfinished, one that it waits for, directly or not, can go on. */
  lemma {:induction false} SomeoneCanStep(threads: Threads, t: nat, above: set<nat>) returns (u: nat)
    requires Inv(threads) && Unfinished(threads, t) && above <= threads.Keys
    requires forall v :: v in threads && v !in above && Wants(threads, v) ==> !Precedes(Wanted(threads, t), Wanted(threads, v))
    requires Wants(threads, t)
    ensures CanStep(threads, u)
    decreases |above|
  {
    if CanStep(threads, t) {
      u := t;
    } else {
      var v := BlockerIsUnfinished(threads, t);
      if CanStep(threads, v) {
        u := v;
      } else {
        var w := BlockerIsUnfinished(threads, v);
        WaitingClimbs(threads, t, v, w);
        hide Inv, Holds;
        assert v in above;
        forall x | x in threads && x !in above - {v} && Wants(threads, x)
          ensures !Precedes(Wanted(threads, v), Wanted(threads, x))
        {
          WantedBelow(threads, t, v, x);
        }
        u := SomeoneCanStep(threads, v, above - {v});
      }
    }
  }

  predicate Wants(threads: Threads, t: nat) {
    Unfinished(threads, t) && threads[t].todo[0].Acquire?
  }

  lemma WantedBelow(threads: Threads, t: nat, v: nat, x: nat)
    requires Wants(threads, t) && Wants(threads, v) && Wants(threads, x)
    requires Precedes(Wanted(threads, t), Wanted(threads, v))
    requires x == v || !Precedes(Wanted(threads, t), Wanted(threads, x))
    ensures !Precedes(Wanted(threads, v), Wanted(threads, x))
  {
    var a, b, c := Wanted(threads, t), Wanted(threads, v), Wanted(threads, x);
    PrecedesIsOrder(b, b);
    if Precedes(b, c) { PrecedesTransitive(a, b, c); }
  }

  /* Runs */

  ghost predicate IsRun(states: seq<Threads>, events: seq<Event>) {
    && |states| == |events| + 1 && states[0] == map[]
    && forall i :: 0 <= i < |events| ==> Possible(states[i], events[i]) && states[i + 1] == Next(states[i], events[i])
  }

  lemma {:induction false} RunKeepsInv(states: seq<Threads>, events: seq<Event>, k: nat)
    requires IsRun(states, events) && k < |states|
    ensures Inv(states[k])
  {
    hide Inv, Next, Possible;
    if k == 0 {
      NoThreadsInv();
    } else {
      RunKeepsInv(states, events, k - 1);
      NextKeepsInv(states[k - 1], events[k - 1]);
    }
  }

  lemma NoThreadsInv()
    ensures Inv(map[])
  {
  }

  /** No run deadlocks: as long as some thread is unfinished, some thread can go on, and no threads wait in a circle. */
  lemma NoDeadlock(states: seq<Threads>, events: seq<Event>, k: nat)
    requires IsRun(states, events) && k < |states|
    ensures (exists t :: Unfinished(states[k], t)) ==> exists u :: CanStep(states[k], u)
    ensures forall chain :: WaitingChain(states[k], chain) && |chain| > 1 ==> chain[0] != chain[|chain| - 1]
  {
    RunKeepsInv(states, events, k);
    var s := states[k];
    hide Inv, IsRun, Holds;
    if t :| Unfinished(s, t) {
      if !s[t].todo[0].Acquire? {
        assert CanStep(s, t);
      } else {
        assert forall v :: v in s && v !in s.Keys ==> false;
        var u := SomeoneCanStep(s, t, s.Keys);
      }
    }
    forall chain | WaitingChain(s, chain) && |chain| > 1 ensures chain[0] != chain[|chain| - 1] { NoWaitingCycle(s, chain); }
  }
}
