/** All runs of the container manager: any number of threads, one locked section at a time (internal/container/manager.go). */
module ContainerRuns {
  import opened Prelude
  import opened ContainerManager

  type Answer = Result<ContainerRecord, string>

  /** Where a thread stands in ensureContainerUnlocked. */
  datatype Phase = Starting | SeenCached | Unrecorded | Finished(result: Answer)

  /** A thread inside EnsureContainer, or one that has returned from it. */
  datatype Thread =
    | Flying(name: string, flight: nat, phase: Phase)
    | Waiting(name: string, flight: nat)
    | Returned(name: string, flight: nat, result: Answer)

  /**
   * The manager's tables, the results posted for flights (None while a flight is under way), the threads, how many
   * requests are open for each container by the account of those who opened them, and the names some of whose open
   * requests the manager has lost sight of, until they are all closed.
   */
  datatype System = System(state: State, posted: map<nat, Option<Answer>>, threads: map<nat, Thread>, open: map<string, nat>,
                           strayed: set<string>, idleTimeout: int)

  datatype Action =
    | Enter(thread: nat, name: string, flight: nat)
    | Peek(thread: nat)
    | Hit(thread: nat, now: int)
    | Drop(thread: nat)
    | Create(thread: nat, rec: ContainerRecord)
    | Fail(thread: nat, error: string)
    | Leave(thread: nat)
    | Wake(thread: nat)
    | Touch(name: string, now: int)
    | OpenRequest(name: string, now: int)
    | CloseRequest(name: string, now: int)
    | Fire(name: string, now: int)
    | Forget(name: string)
    | Find(key: string, found: Option<string>, after: State)
    | Refresh(name: string, ip: string)

  function OpenCount(s: System, name: string): nat {
    if name in s.open then s.open[name] else 0
  }

  predicate InPhase(s: System, t: nat, phase: Phase) {
    t in s.threads && s.threads[t].Flying? && s.threads[t].phase == phase
  }

  ghost predicate Enabled(s: System, a: Action) {
    match a
    case Enter(t, name, flight) => t !in s.threads && flight !in s.posted
    case Peek(t) => InPhase(s, t, Starting)
    case Hit(t, _) => InPhase(s, t, SeenCached)
    case Drop(t) => InPhase(s, t, SeenCached)
    case Create(t, rec) => InPhase(s, t, Unrecorded) && rec.inFlight == 0
    case Fail(t, _) => InPhase(s, t, Unrecorded)
    case Leave(t) => t in s.threads && s.threads[t].Flying? && s.threads[t].phase.Finished?
    case Wake(t) => t in s.threads && s.threads[t].Waiting? && s.threads[t].flight in s.posted && s.posted[s.threads[t].flight].Some?
    case CloseRequest(name, _) => OpenCount(s, name) > 0
    case Find(key, found, after) => Looked(s.state, key, found, after)
    case _ => true
  }

  /** The manager loses sight of requests: one opens without a record, or the record goes away while some are open. */
  predicate Loses(s: System, a: Action, name: string) {
    match a
    case OpenRequest(n, _) => n == name && name !in s.state.containers
    case Drop(t) => t in s.threads && s.threads[t].name == name && OpenCount(s, name) > 0
    case Forget(n) => n == name && OpenCount(s, name) > 0
    case _ => false
  }

  function SetPhase(s: System, t: nat, phase: Phase): System
    requires t in s.threads && s.threads[t].Flying?
  {
    s.(threads := s.threads[t := s.threads[t].(phase := phase)])
  }

  function Step(s: System, a: Action): System
    requires Enabled(s, a)
  {
    match a
    case Enter(t, name, flight) =>
      if name in s.state.inFlight then s.(threads := s.threads[t := Waiting(name, s.state.inFlight[name])])
      else s.(state := FlightBegun(s.state, name, flight), posted := s.posted[flight := None],
              threads := s.threads[t := Flying(name, flight, Starting)])
    case Peek(t) =>
      SetPhase(s, t, if s.threads[t].name in s.state.containers then SeenCached else Unrecorded)
    case Hit(t, now) =>
      var name := s.threads[t].name;
      if name in s.state.containers then
        var state := Touched(s.state, name, now, s.idleTimeout);
        SetPhase(s.(state := state), t, Finished(Ok(state.containers[name])))
      else SetPhase(s, t, Unrecorded)
    case Drop(t) =>
      var name := s.threads[t].name;
      SetPhase(s.(state := Removed(s.state, name), strayed := if Loses(s, a, name) then s.strayed + {name} else s.strayed), t, Unrecorded)
    case Create(t, rec) => SetPhase(s.(state := Installed(s.state, s.threads[t].name, rec, s.idleTimeout)), t, Finished(Ok(rec)))
    case Fail(t, error) => SetPhase(s, t, Finished(Err(error)))
    case Leave(t) =>
      var thread := s.threads[t];
      s.(state := FlightEnded(s.state, thread.name), posted := s.posted[thread.flight := Some(thread.phase.result)],
         threads := s.threads[t := Returned(thread.name, thread.flight, thread.phase.result)])
    case Wake(t) =>
      var thread := s.threads[t];
      s.(threads := s.threads[t := Returned(thread.name, thread.flight, s.posted[thread.flight].value)])
    case Touch(name, now) => s.(state := Touched(s.state, name, now, s.idleTimeout))
    case OpenRequest(name, now) =>
      s.(state := ContainerManager.Opened(s.state, name, now, s.idleTimeout), open := s.open[name := OpenCount(s, name) + 1],
         strayed := if Loses(s, a, name) then s.strayed + {name} else s.strayed)
    case CloseRequest(name, now) =>
      s.(state := Closed(s.state, name, now, s.idleTimeout), open := s.open[name := OpenCount(s, name) - 1],
         strayed := if OpenCount(s, name) == 1 then s.strayed - {name} else s.strayed)
    case Fire(name, now) => s.(state := Fired(s.state, name, now, s.idleTimeout))
    case Forget(name) => s.(state := Removed(s.state, name), strayed := if Loses(s, a, name) then s.strayed + {name} else s.strayed)
    case Find(_, _, after) => s.(state := after)
    case Refresh(name, ip) => s.(state := Refreshed(s.state, name, ip))
  }

  /* Invariants */

  type Threads = map<nat, Thread>

  /** Each flight under way belongs to exactly one thread, and is counted once as pending. */
  ghost predicate SingleFlight(threads: Threads, inFlight: map<string, nat>, pending: map<string, int>) {
    && (forall t :: t in threads && threads[t].Flying? ==> IsPilot(threads, inFlight, t, threads[t].name))
    && (forall t, u :: SameFlight(threads, t, u) ==> t == u)
    && (forall name :: name in inFlight ==> exists t :: IsPilot(threads, inFlight, t, name))
    && pending.Keys == inFlight.Keys
    && (forall name :: name in pending ==> pending[name] == 1)
  }

  predicate SameFlight(threads: Threads, t: nat, u: nat) {
    t in threads && u in threads && threads[t].Flying? && threads[u].Flying? && threads[t].name == threads[u].name
  }

  /** Thread `t` is inside ensureContainerUnlocked for the name. */
  predicate IsPilot(threads: Threads, inFlight: map<string, nat>, t: nat, name: string) {
    t in threads && threads[t].Flying? && threads[t].name == name && name in inFlight && threads[t].flight == inFlight[name]
  }

  /** Results are posted once a flight ends, and everybody who joined it gets what is posted. */
  ghost predicate ResultsShared(threads: Threads, inFlight: map<string, nat>, posted: map<nat, Option<Answer>>) {
    && (forall name :: name in inFlight ==> inFlight[name] in posted && posted[inFlight[name]].None?)
    && (forall a, b :: a in inFlight && b in inFlight && inFlight[a] == inFlight[b] ==> a == b)
    && (forall t :: t in threads ==> Accounted(threads[t], inFlight, posted))
  }

  predicate Accounted(t: Thread, inFlight: map<string, nat>, posted: map<nat, Option<Answer>>) {
    && t.flight in posted
    && (t.Waiting? ==> posted[t.flight].Some? || (t.name in inFlight && inFlight[t.name] == t.flight))
    && (t.Returned? ==> posted[t.flight] == Some(t.result))
  }

  ghost predicate FlightsSound(s: System) {
    SingleFlight(s.threads, s.state.inFlight, s.state.pending) && ResultsShared(s.threads, s.state.inFlight, s.posted)
  }

  /** Only a flight records a container, and it does so only while none is recorded under its name. */
  ghost predicate RecordsGuarded(s: System) {
    forall t :: InPhase(s, t, Unrecorded) ==> s.threads[t].name !in s.state.containers
  }

  ghost predicate TimersExact(s: System) {
    s.idleTimeout > 0 ==> s.state.timers == s.state.containers.Keys
  }

  ghost predicate RequestsCounted(s: System) {
    forall name :: name in s.state.containers ==> 0 <= s.state.containers[name].inFlight <= OpenCount(s, name)
  }

  /** Unless it has lost sight of some, the manager counts exactly the open requests. */
  ghost predicate RequestsSeen(s: System) {
    forall name :: Seen(s, name)
  }

  predicate Seen(s: System, name: string) {
    if name in s.strayed then OpenCount(s, name) > 0
    else OpenCount(s, name) == if name in s.state.containers then s.state.containers[name].inFlight else 0
  }

  ghost predicate Inv(s: System) {
    FlightsSound(s) && RecordsGuarded(s) && IndexSound(s.state) && TimersExact(s) && RequestsCounted(s) && RequestsSeen(s)
  }

  /** The manager when it starts: what it discovered, and no thread yet. */
  function Initial(list: seq<Discovered>, idleTimeout: int): System {
    System(Discover(EMPTY, list, idleTimeout), map[], map[], map[], {}, idleTimeout)
  }

  lemma {:induction false} DiscoveredRecords(list: seq<Discovered>, idleTimeout: int)
    requires forall i :: 0 <= i < |list| ==> list[i].rec.inFlight == 0
    ensures var s := Discover(EMPTY, list, idleTimeout);
      && s.pending == map[] && s.inFlight == map[]
      && (forall name :: name in s.containers ==> s.containers[name].inFlight == 0)
      && (idleTimeout > 0 ==> s.timers == s.containers.Keys)
  {
    hide Indexed;
    if list != [] { DiscoveredRecords(list[..|list| - 1], idleTimeout); }
  }

  lemma InitialInv(list: seq<Discovered>, idleTimeout: int)
    requires forall i :: 0 <= i < |list| ==> list[i].rec.inFlight == 0
    requires forall i, j :: 0 <= i < j < |list| ==> list[i].name != list[j].name
    ensures Inv(Initial(list, idleTimeout))
  {
    DiscoveredRecords(list, idleTimeout);
    DiscoveryIsSound(list, idleTimeout);
    hide Discover, IndexSound;
  }

  /* Flights */

  /** The same threads fly, whatever phases they are in, and the others are as they were. */
  ghost predicate SamePilots(threads: Threads, more: Threads) {
    && more.Keys == threads.Keys
    && forall t :: t in threads ==>
         if threads[t].Flying? then more[t].Flying? && more[t].name == threads[t].name && more[t].flight == threads[t].flight
         else more[t] == threads[t]
  }

  lemma PilotsStay(threads: Threads, more: Threads, inFlight: map<string, nat>, pending: map<string, int>, posted: map<nat, Option<Answer>>)
    requires SingleFlight(threads, inFlight, pending) && ResultsShared(threads, inFlight, posted) && SamePilots(threads, more)
    ensures SingleFlight(more, inFlight, pending) && ResultsShared(more, inFlight, posted)
  {
    assert forall t, name :: IsPilot(more, inFlight, t, name) == IsPilot(threads, inFlight, t, name);
    assert forall t, u :: SameFlight(more, t, u) == SameFlight(threads, t, u);
    forall t | t in more ensures Accounted(more[t], inFlight, posted) { assert Accounted(threads[t], inFlight, posted); }
  }

  /** A thread that does not fly changes nothing about who does. */
  lemma {:induction false} GroundedKeeps(threads: Threads, inFlight: map<string, nat>, pending: map<string, int>, posted: map<nat, Option<Answer>>,
                      t: nat, thread: Thread)
    requires SingleFlight(threads, inFlight, pending) && ResultsShared(threads, inFlight, posted)
    requires !thread.Flying? && (t in threads ==> !threads[t].Flying?) && Accounted(thread, inFlight, posted)
    ensures SingleFlight(threads[t := thread], inFlight, pending) && ResultsShared(threads[t := thread], inFlight, posted)
  {
    var more := threads[t := thread];
    assert forall u, name :: IsPilot(more, inFlight, u, name) == IsPilot(threads, inFlight, u, name);
    assert forall u, v :: SameFlight(more, u, v) == SameFlight(threads, u, v);
  }

  lemma BeginKeepsSingle(threads: Threads, inFlight: map<string, nat>, pending: map<string, int>, t: nat, name: string, flight: nat)
    requires SingleFlight(threads, inFlight, pending) && t !in threads && name !in inFlight
    ensures SingleFlight(threads[t := Flying(name, flight, Starting)], inFlight[name := flight], pending[name := 1])
  {
    var more, flights := threads[t := Flying(name, flight, Starting)], inFlight[name := flight];
    assert IsPilot(more, flights, t, name);
    forall u, x | IsPilot(threads, inFlight, u, x) ensures IsPilot(more, flights, u, x) {}
    forall u, v | SameFlight(more, u, v) ensures u == v {
      if u != t && v != t { assert SameFlight(threads, u, v); }
    }
  }

  lemma BeginKeepsShared(threads: Threads, inFlight: map<string, nat>, posted: map<nat, Option<Answer>>, t: nat, name: string, flight: nat)
    requires ResultsShared(threads, inFlight, posted) && t !in threads && name !in inFlight && flight !in posted
    ensures ResultsShared(threads[t := Flying(name, flight, Starting)], inFlight[name := flight], posted[flight := None])
  {
    var more := threads[t := Flying(name, flight, Starting)];
    forall u | u in more && u != t ensures Accounted(more[u], inFlight[name := flight], posted[flight := None]) {
      assert Accounted(threads[u], inFlight, posted);
    }
  }

  lemma LeaveKeepsSingle(threads: Threads, inFlight: map<string, nat>, pending: map<string, int>, t: nat, result: Answer)
    requires SingleFlight(threads, inFlight, pending) && t in threads && threads[t].Flying?
    ensures SingleFlight(threads[t := Returned(threads[t].name, threads[t].flight, result)], inFlight - {threads[t].name}, pending - {threads[t].name})
  {
    var name := threads[t].name;
    var more, flights := threads[t := Returned(name, threads[t].flight, result)], inFlight - {name};
    forall u, x | x != name && IsPilot(threads, inFlight, u, x) ensures IsPilot(more, flights, u, x) {}
    forall u | u in more && more[u].Flying? ensures IsPilot(more, flights, u, more[u].name) {
      assert IsPilot(threads, inFlight, u, threads[u].name);
      assert !SameFlight(threads, u, t);
    }
    assert forall u, v :: SameFlight(more, u, v) ==> SameFlight(threads, u, v);
  }

  lemma LeaveKeepsShared(threads: Threads, inFlight: map<string, nat>, posted: map<nat, Option<Answer>>, t: nat, result: Answer)
    requires ResultsShared(threads, inFlight, posted) && t in threads && threads[t].Flying?
    requires threads[t].name in inFlight && inFlight[threads[t].name] == threads[t].flight
    ensures ResultsShared(threads[t := Returned(threads[t].name, threads[t].flight, result)], inFlight - {threads[t].name},
      posted[threads[t].flight := Some(result)])
  {
    var name, flight := threads[t].name, threads[t].flight;
    forall u | u in threads && u != t ensures Accounted(threads[u], inFlight - {name}, posted[flight := Some(result)]) {
      assert Accounted(threads[u], inFlight, posted);
    }
  }

  /** Steps that only concern the tables, and steps that bring one flying thread on. */
  predicate Quiet(a: Action) {
    a.Touch? || a.OpenRequest? || a.CloseRequest? || a.Fire? || a.Forget? || a.Find? || a.Refresh?
  }

  predicate Flies(a: Action) {
    a.Peek? || a.Hit? || a.Drop? || a.Create? || a.Fail?
  }

  /** Neither kind of step changes who flies or what is posted. */
  ghost predicate SameFlights(s: System, n: System) {
    && n.state.inFlight == s.state.inFlight && n.state.pending == s.state.pending && n.posted == s.posted
    && SamePilots(s.threads, n.threads)
  }

  /** Only a flight begins or ends a flight, and only a flight records a container. */
  predicate Keeps(s: State, n: State) {
    n.inFlight == s.inFlight && n.pending == s.pending && n.containers.Keys <= s.containers.Keys
  }

  lemma {:induction false} RequestsKeep(s: State, name: string, now: int, idleTimeout: int)
    ensures Keeps(s, Touched(s, name, now, idleTimeout)) && Keeps(s, ContainerManager.Opened(s, name, now, idleTimeout))
    ensures Keeps(s, Closed(s, name, now, idleTimeout)) && Keeps(s, Fired(s, name, now, idleTimeout))
  {
    hide WithTimer, IdleEnough;
  }

  lemma {:induction false} OthersKeep(s: State, name: string, ip: string)
    ensures Keeps(s, Removed(s, name)) && Keeps(s, Refreshed(s, name, ip))
  {
    hide Indexed, Unindexed;
  }

  lemma {:induction false} LookupKeeps(s: State, key: string, found: Option<string>, after: State)
    requires Looked(s, key, found, after)
    ensures Keeps(s, after)
  {
    hide Yields;
  }

  lemma {:induction false} QuietKeepsFlights(s: System, a: Action)
    requires Enabled(s, a) && Quiet(a)
    ensures SameFlights(s, Step(s, a))
    ensures Step(s, a).threads == s.threads && Step(s, a).state.containers.Keys <= s.state.containers.Keys
  {
    hide Touched, ContainerManager.Opened, Closed, Fired, Removed, Refreshed, Looked, OpenCount, Loses;
    match a
    case Touch(name, now) => RequestsKeep(s.state, name, now, s.idleTimeout);
    case OpenRequest(name, now) => RequestsKeep(s.state, name, now, s.idleTimeout);
    case CloseRequest(name, now) => RequestsKeep(s.state, name, now, s.idleTimeout);
    case Fire(name, now) => RequestsKeep(s.state, name, now, s.idleTimeout);
    case Forget(name) => OthersKeep(s.state, name, "");
    case Refresh(name, ip) => OthersKeep(s.state, name, ip);
    case Find(key, found, after) => LookupKeeps(s.state, key, found, after);
  }

  lemma {:induction false} FlyingKeepsFlights(s: System, a: Action)
    requires Enabled(s, a) && Flies(a)
    ensures SameFlights(s, Step(s, a))
  {
    hide Indexed, Unindexed, WithTimer;
  }

  lemma FlightsStay(s: System, a: Action)
    requires FlightsSound(s) && Enabled(s, a)
    ensures FlightsSound(Step(s, a))
  {
    if a.Enter? || a.Leave? || a.Wake? {
      TurnsKeepFlights(s, a);
    } else {
      hide SingleFlight, ResultsShared, Step, Enabled;
      if Quiet(a) { QuietKeepsFlights(s, a); } else { FlyingKeepsFlights(s, a); }
      PilotsStay(s.threads, Step(s, a).threads, s.state.inFlight, s.state.pending, s.posted);
    }
  }

  lemma TurnsKeepFlights(s: System, a: Action)
    requires FlightsSound(s) && Enabled(s, a) && (a.Enter? || a.Leave? || a.Wake?)
    ensures FlightsSound(Step(s, a))
  {
    hide SingleFlight, ResultsShared, Accounted;
    var threads, inFlight, pending, posted := s.threads, s.state.inFlight, s.state.pending, s.posted;
    match a
    case Enter(t, name, flight) =>
      if name in inFlight {
        var waiting := Waiting(name, inFlight[name]);
        assert Accounted(waiting, inFlight, posted) by { JoinerIsAccounted(threads, inFlight, posted, name); }
        GroundedKeeps(threads, inFlight, pending, posted, t, waiting);
      } else {
        NotPending(threads, inFlight, pending, name);
        BeginKeepsSingle(threads, inFlight, pending, t, name, flight);
        BeginKeepsShared(threads, inFlight, posted, t, name, flight);
      }
    case Leave(t) =>
      PilotIsPending(threads, inFlight, pending, t);
      LeaveKeepsSingle(threads, inFlight, pending, t, threads[t].phase.result);
      LeaveKeepsShared(threads, inFlight, posted, t, threads[t].phase.result);
    case Wake(t) =>
      var returned := Returned(threads[t].name, threads[t].flight, posted[threads[t].flight].value);
      assert Accounted(returned, inFlight, posted) by { ReturnIsAccounted(returned, inFlight, posted); }
      GroundedKeeps(threads, inFlight, pending, posted, t, returned);
  }

  lemma JoinerIsAccounted(threads: Threads, inFlight: map<string, nat>, posted: map<nat, Option<Answer>>, name: string)
    requires ResultsShared(threads, inFlight, posted) && name in inFlight
    ensures Accounted(Waiting(name, inFlight[name]), inFlight, posted)
  {
  }

  lemma ReturnIsAccounted(t: Thread, inFlight: map<string, nat>, posted: map<nat, Option<Answer>>)
    requires t.Returned? && t.flight in posted && posted[t.flight] == Some(t.result)
    ensures Accounted(t, inFlight, posted)
  {
  }

  lemma NotPending(threads: Threads, inFlight: map<string, nat>, pending: map<string, int>, name: string)
    requires SingleFlight(threads, inFlight, pending) && name !in inFlight
    ensures name !in pending
  {
  }

  lemma PilotIsPending(threads: Threads, inFlight: map<string, nat>, pending: map<string, int>, t: nat)
    requires SingleFlight(threads, inFlight, pending) && t in threads && threads[t].Flying?
    ensures var name := threads[t].name;
      name in inFlight && inFlight[name] == threads[t].flight && name in pending && pending[name] == 1
  {
    assert IsPilot(threads, inFlight, t, threads[t].name);
  }

  /* Records, index, timers and counts */

  lemma {:induction false} GuardStays(s: System, a: Action)
    requires FlightsSound(s) && RecordsGuarded(s) && Enabled(s, a)
    ensures RecordsGuarded(Step(s, a))
  {
    hide Step, Enabled, FlightsSound, RecordsGuarded;
    if Quiet(a) {
      QuietKeepsGuard(s, a);
    } else if a.Create? {
      CreateKeepsGuard(s, a);
    } else {
      ThreadKeepsGuard(s, a);
    }
  }

  lemma {:induction false} QuietKeepsGuard(s: System, a: Action)
    requires RecordsGuarded(s) && Enabled(s, a) && Quiet(a)
    ensures RecordsGuarded(Step(s, a))
  {
    hide Step, Enabled;
    QuietKeepsFlights(s, a);
    assert forall t :: InPhase(Step(s, a), t, Unrecorded) ==> InPhase(s, t, Unrecorded);
  }

  lemma {:induction false} ThreadKeepsGuard(s: System, a: Action)
    requires RecordsGuarded(s) && Enabled(s, a) && !Quiet(a) && !a.Create?
    ensures RecordsGuarded(Step(s, a))
  {
    hide Indexed, Unindexed, WithTimer;
    assert forall t :: t != a.thread && InPhase(Step(s, a), t, Unrecorded) ==> InPhase(s, t, Unrecorded);
  }

  lemma {:induction false} CreateKeepsGuard(s: System, a: Action)
    requires FlightsSound(s) && RecordsGuarded(s) && Enabled(s, a) && a.Create?
    ensures RecordsGuarded(Step(s, a))
  {
    hide Indexed, Unindexed, WithTimer, IsPilot;
    forall t | t != a.thread && InPhase(s, t, Unrecorded) ensures s.threads[t].name != s.threads[a.thread].name {
      assert !SameFlight(s.threads, t, a.thread);
    }
  }

  lemma {:induction false} IndexStays(s: System, a: Action)
    requires RecordsGuarded(s) && IndexSound(s.state) && Enabled(s, a)
    ensures IndexSound(Step(s, a).state)
  {
    match a
    case Drop(t) => RemovedStaysSound(s.state, s.threads[t].name);
    case Forget(name) => RemovedStaysSound(s.state, name);
    case Create(t, rec) => InstalledStaysSound(s.state, s.threads[t].name, rec, s.idleTimeout);
    case Refresh(name, ip) => RefreshedStaysSound(s.state, name, ip);
    case Find(key, found, after) => LookedStaysSound(s.state, key, found, after);
    case Touch(name, now) => OpenedKeepsAddresses(s.state, name, now, s.idleTimeout);
    case OpenRequest(name, now) => OpenedKeepsAddresses(s.state, name, now, s.idleTimeout);
    case CloseRequest(name, now) => OpenedKeepsAddresses(s.state, name, now, s.idleTimeout);
    case Hit(t, now) => OpenedKeepsAddresses(s.state, s.threads[t].name, now, s.idleTimeout);
    case _ => SameTables(s.state, Step(s, a).state) by { OtherStepsKeepTables(s, a); }
  }

  lemma {:induction false} OtherStepsKeepTables(s: System, a: Action)
    requires Enabled(s, a) && (a.Enter? || a.Peek? || a.Fail? || a.Leave? || a.Wake? || a.Fire?)
    ensures Step(s, a).state.containers == s.state.containers && Step(s, a).state.ipIndex == s.state.ipIndex
  {
  }

  lemma SameTables(s: State, n: State)
    requires IndexSound(s) && n.containers == s.containers && n.ipIndex == s.ipIndex
    ensures IndexSound(n)
  {
    hide SourceIpKeys;
  }

  lemma {:induction false} TimersStay(s: System, a: Action)
    requires TimersExact(s) && Enabled(s, a)
    ensures TimersExact(Step(s, a))
  {
    hide Indexed, Unindexed, Yields, IdleEnough;
  }

  lemma {:induction false} CountsStay(s: System, a: Action)
    requires RequestsCounted(s) && Enabled(s, a)
    ensures RequestsCounted(Step(s, a))
  {
    hide Step, Enabled, RequestsCounted;
    if a.OpenRequest? || a.CloseRequest? {
      RequestsStayCounted(s, a);
    } else if Quiet(a) {
      QuietStaysCounted(s, a);
    } else {
      ThreadStaysCounted(s, a);
    }
  }

  lemma {:induction false} QuietStaysCounted(s: System, a: Action)
    requires RequestsCounted(s) && Enabled(s, a) && Quiet(a) && !a.OpenRequest? && !a.CloseRequest?
    ensures RequestsCounted(Step(s, a))
  {
    hide Indexed, Unindexed, Yields, IdleEnough, WithTimer;
  }

  lemma {:induction false} ThreadStaysCounted(s: System, a: Action)
    requires RequestsCounted(s) && Enabled(s, a) && !Quiet(a)
    ensures RequestsCounted(Step(s, a))
  {
    hide Indexed, Unindexed, WithTimer;
  }

  lemma {:induction false} RequestsStayCounted(s: System, a: Action)
    requires RequestsCounted(s) && Enabled(s, a) && (a.OpenRequest? || a.CloseRequest?)
    ensures RequestsCounted(Step(s, a))
  {
    hide WithTimer;
  }

  lemma SightStays(s: System, a: Action, name: string)
    requires RequestsCounted(s) && RecordsGuarded(s) && Seen(s, name) && Enabled(s, a)
    ensures Seen(Step(s, a), name)
  {
    hide Step, Enabled, Seen, RequestsCounted, RecordsGuarded;
    if a.CloseRequest? {
      CloseKeepsSight(s, a, name);
    } else if a.Drop? || a.Forget? || a.Create? {
      RecordsKeepSight(s, a, name);
    } else {
      OthersKeepSight(s, a, name);
    }
  }

  lemma {:induction false} OthersKeepSight(s: System, a: Action, name: string)
    requires Seen(s, name) && Enabled(s, a) && !a.CloseRequest? && !a.Drop? && !a.Forget? && !a.Create?
    ensures Seen(Step(s, a), name)
  {
    hide Indexed, Unindexed, Yields, IdleEnough, WithTimer, PendingOf;
  }

  lemma RecordsKeepSight(s: System, a: Action, name: string)
    requires RecordsGuarded(s) && Seen(s, name) && Enabled(s, a) && (a.Drop? || a.Forget? || a.Create?)
    ensures Seen(Step(s, a), name)
  {
    hide Indexed, Unindexed, WithTimer;
  }

  lemma CloseKeepsSight(s: System, a: Action, name: string)
    requires RequestsCounted(s) && a.CloseRequest? && Seen(s, name) && Enabled(s, a)
    ensures Seen(Step(s, a), name)
  {
    RequestsStayCounted(s, a);
    hide WithTimer;
  }

  lemma StepKeepsInv(s: System, a: Action)
    requires Inv(s) && Enabled(s, a)
    ensures Inv(Step(s, a))
  {
    hide FlightsSound, RecordsGuarded, IndexSound, TimersExact, RequestsCounted, Seen, Step, Enabled;
    forall name ensures Seen(Step(s, a), name) { SightStays(s, a, name); }
    FlightsStay(s, a);
    GuardStays(s, a);
    IndexStays(s, a);
    TimersStay(s, a);
    CountsStay(s, a);
  }

  /* Runs */

  ghost predicate IsRun(states: seq<System>, actions: seq<Action>) {
    && |states| == |actions| + 1
    && forall i :: 0 <= i < |actions| ==> Enabled(states[i], actions[i]) && states[i + 1] == Step(states[i], actions[i])
  }

  lemma {:induction false} StepOfRun(states: seq<System>, actions: seq<Action>, i: nat)
    requires IsRun(states, actions) && i < |actions|
    ensures |states| == |actions| + 1 && Enabled(states[i], actions[i]) && states[i + 1] == Step(states[i], actions[i])
  {
    hide Enabled, Step;
  }

  /** The invariants hold in every state of every run. */
  lemma {:induction false} RunKeepsInv(states: seq<System>, actions: seq<Action>, k: nat)
    requires IsRun(states, actions) && k < |states| && Inv(states[0])
    ensures Inv(states[k])
  {
    hide Inv, Step, Enabled;
    if k > 0 {
      RunKeepsInv(states, actions, k - 1);
      StepKeepsInv(states[k - 1], actions[k - 1]);
    }
  }

  /** At most one thread is inside a flight of a name, and `pending` counts exactly that one. */
  lemma OneFlightPerName(s: System, t: nat, u: nat)
    requires Inv(s) && SameFlight(s.threads, t, u)
    ensures t == u
    ensures s.threads[t].name in s.state.pending && s.state.pending[s.threads[t].name] == 1
  {
    PilotIsPending(s.threads, s.state.inFlight, s.state.pending, t);
  }

  /** When a flight ends its name is no longer pending: the decrement to a positive count is never made. */
  lemma LeavingClearsPending(s: System, t: nat)
    requires Inv(s) && Enabled(s, Leave(t))
    ensures PendingOf(s.state, s.threads[t].name) == 1
    ensures s.threads[t].name !in Step(s, Leave(t)).state.pending
  {
    PilotIsPending(s.threads, s.state.inFlight, s.state.pending, t);
  }

  /** A thread that waits can return with the result of the flight it joined, or that flight is still under way and can go on. */
  lemma {:induction false} NobodyIsStuck(s: System, t: nat)
    requires Inv(s) && t in s.threads && s.threads[t].Waiting?
    ensures Enabled(s, Wake(t)) || exists u, a :: IsPilot(s.threads, s.state.inFlight, u, s.threads[t].name) && s.threads[u].flight == s.threads[t].flight && MovesOn(s, u, a)
  {
    assert Accounted(s.threads[t], s.state.inFlight, s.posted);
    if !Enabled(s, Wake(t)) {
      var u :| IsPilot(s.threads, s.state.inFlight, u, s.threads[t].name);
      var rec := ContainerRecord("", 0, "", 0, 0);
      var a := match s.threads[u].phase
        case Starting => Peek(u)
        case SeenCached => Drop(u)
        case Unrecorded => Create(u, rec)
        case Finished(_) => Leave(u);
      assert MovesOn(s, u, a);
    }
  }

  /** A step of a flying thread that brings it nearer to its end. */
  ghost predicate MovesOn(s: System, u: nat, a: Action) {
    && Enabled(s, a) && u in s.threads && u in Step(s, a).threads
    && StepsLeft(Step(s, a).threads[u]) < StepsLeft(s.threads[u])
  }

  function StepsLeft(t: Thread): nat {
    if !t.Flying? then 0
    else
      match t.phase
      case Starting => 4
      case SeenCached => 3
      case Unrecorded => 2
      case Finished(_) => 1
  }

  /** Every return, of the thread that flew and of those that waited, is the result posted for the flight. */
  lemma ResultsAreShared(s: System, t: nat, u: nat)
    requires Inv(s) && t in s.threads && u in s.threads && s.threads[t].Returned? && s.threads[u].Returned?
    requires s.threads[t].flight == s.threads[u].flight
    ensures s.threads[t].result == s.threads[u].result
  {
    assert Accounted(s.threads[t], s.state.inFlight, s.posted) && Accounted(s.threads[u], s.state.inFlight, s.posted);
  }

  /** In a reachable state a cached lookup answers as a scan over all containers would. */
  lemma LookupMatchesScan(s: System, key: string, found: Option<string>, after: State)
    requires Inv(s) && Looked(s.state, key, found, after)
    ensures found.Some? <==> exists name :: Yields(s.state, name, key)
    ensures found.Some? ==> Yields(s.state, found.value, key)
  {
    LookedStaysSound(s.state, key, found, after);
  }

  /* Stopping idle containers */

  /** In some step the manager lost sight of requests for the name, and since then some have been open all along. */
  ghost predicate LostSight(states: seq<System>, actions: seq<Action>, k: nat, name: string)
    requires IsRun(states, actions) && k < |states|
  {
    exists i :: 0 <= i < k && Loses(states[i], actions[i], name) && forall j :: i < j <= k ==> OpenCount(states[j], name) > 0
  }

  lemma {:induction false} StrayStep(s: System, a: Action, name: string)
    requires Enabled(s, a) && Seen(Step(s, a), name)
    ensures name in Step(s, a).strayed <==> OpenCount(Step(s, a), name) > 0 && (name in s.strayed || Loses(s, a, name))
  {
    hide Indexed, Unindexed, Yields, IdleEnough, WithTimer, Opened, Closed, Touched, Removed, Installed, Looked;
  }

  lemma LostSightOneMore(states: seq<System>, actions: seq<Action>, k: nat, name: string)
    requires IsRun(states, actions) && k + 1 < |states|
    ensures LostSight(states, actions, k + 1, name) <==>
      OpenCount(states[k + 1], name) > 0 && (LostSight(states, actions, k, name) || Loses(states[k], actions[k], name))
  {
    hide Loses, Step, Enabled, OpenCount;
    if LostSight(states, actions, k, name) {
      var i :| 0 <= i < k && Loses(states[i], actions[i], name) && forall j :: i < j <= k ==> OpenCount(states[j], name) > 0;
      assert OpenCount(states[k + 1], name) > 0 ==> forall j :: i < j <= k + 1 ==> OpenCount(states[j], name) > 0;
    }
  }

  lemma {:induction false} SeenInRun(states: seq<System>, actions: seq<Action>, k: nat, name: string)
    requires IsRun(states, actions) && k < |states| && Inv(states[0])
    ensures Seen(states[k], name)
  {
    RunKeepsInv(states, actions, k);
    hide IsRun, FlightsSound, RecordsGuarded, IndexSound, TimersExact, RequestsCounted, Seen;
  }

  lemma {:induction false} StrayedIsLost(states: seq<System>, actions: seq<Action>, k: nat, name: string)
    requires IsRun(states, actions) && k < |states| && Inv(states[0]) && states[0].strayed == {}
    ensures name in states[k].strayed <==> LostSight(states, actions, k, name)
  {
    hide Inv, Loses, Enabled, Step, OpenCount;
    if k > 0 {
      StrayedIsLost(states, actions, k - 1, name);
      StrayedOneMore(states, actions, k - 1, name);
    }
  }

  lemma {:induction false} StrayedOneMore(states: seq<System>, actions: seq<Action>, k: nat, name: string)
    requires IsRun(states, actions) && k + 1 < |states| && Inv(states[0])
    requires name in states[k].strayed <==> LostSight(states, actions, k, name)
    ensures name in states[k + 1].strayed <==> LostSight(states, actions, k + 1, name)
  {
    StepOfRun(states, actions, k);
    hide IsRun, Inv, Loses, LostSight, Seen, OpenCount, Enabled, Step;
    LostSightOneMore(states, actions, k, name);
    SeenInRun(states, actions, k + 1, name);
    StrayStep(states[k], actions[k], name);
  }

  /** A step that uses a recorded container, or records it. */
  predicate IsUse(s: System, a: Action, name: string) {
    match a
    case Create(t, _) => t in s.threads && s.threads[t].name == name
    case Hit(t, _) => t in s.threads && s.threads[t].name == name && name in s.state.containers
    case Touch(n, _) => n == name && name in s.state.containers
    case OpenRequest(n, _) => n == name && name in s.state.containers
    case CloseRequest(n, _) => n == name && name in s.state.containers
    case _ => false
  }

  function UseTime(a: Action): int {
    match a
    case Create(_, rec) => rec.lastAccessed
    case Hit(_, now) => now
    case Touch(_, now) => now
    case OpenRequest(_, now) => now
    case CloseRequest(_, now) => now
    case _ => 0
  }

  /** The time of the last use among the first `k` steps; the one recorded at the start if there was none. */
  ghost predicate LastUsed(states: seq<System>, actions: seq<Action>, k: nat, name: string, time: int)
    requires IsRun(states, actions) && k < |states|
  {
    if forall i :: 0 <= i < k ==> !IsUse(states[i], actions[i], name) then
      name in states[0].state.containers && states[0].state.containers[name].lastAccessed == time
    else
      exists i :: 0 <= i < k && UseTime(actions[i]) == time && IsLastUse(states, actions, k, name, i)
  }

  ghost predicate IsLastUse(states: seq<System>, actions: seq<Action>, k: nat, name: string, i: nat)
    requires IsRun(states, actions) && i < k < |states|
  {
    IsUse(states[i], actions[i], name) && forall j :: i < j < k ==> !IsUse(states[j], actions[j], name)
  }

  lemma {:induction false} UseStep(s: System, a: Action, name: string)
    requires Enabled(s, a) && name in Step(s, a).state.containers
    ensures var time := Step(s, a).state.containers[name].lastAccessed;
      if IsUse(s, a, name) then time == UseTime(a)
      else name in s.state.containers && time == s.state.containers[name].lastAccessed
  {
    hide Indexed, Unindexed, Yields, IdleEnough, WithTimer, Looked, Loses, OpenCount;
    if a.Find? { FindKeepsRecords(s, a); }
  }

  lemma FindKeepsRecords(s: System, a: Action)
    requires Enabled(s, a) && a.Find?
    ensures Step(s, a).state.containers == s.state.containers
  {
    hide Yields;
  }

  lemma LastUsedOneMore(states: seq<System>, actions: seq<Action>, k: nat, name: string, time: int)
    requires IsRun(states, actions) && k + 1 < |states|
    requires if IsUse(states[k], actions[k], name) then time == UseTime(actions[k]) else LastUsed(states, actions, k, name, time)
    ensures LastUsed(states, actions, k + 1, name, time)
  {
    hide IsUse, UseTime, Step, Enabled;
    if IsUse(states[k], actions[k], name) {
      assert IsLastUse(states, actions, k + 1, name, k);
    } else if i :| 0 <= i < k && UseTime(actions[i]) == time && IsLastUse(states, actions, k, name, i) {
      assert IsLastUse(states, actions, k + 1, name, i);
    }
  }

  /** A record bears the time of the last use of its container, in every state of every run. */
  lemma {:induction false} LastUseIsRecorded(states: seq<System>, actions: seq<Action>, k: nat, name: string)
    requires IsRun(states, actions) && k < |states| && name in states[k].state.containers
    ensures LastUsed(states, actions, k, name, states[k].state.containers[name].lastAccessed)
  {
    hide IsUse, UseTime, Step, Enabled;
    if k > 0 {
      StepOfRun(states, actions, k - 1);
      UseStep(states[k - 1], actions[k - 1], name);
      hide IsRun, LastUsed;
      if !IsUse(states[k - 1], actions[k - 1], name) { LastUseIsRecorded(states, actions, k - 1, name); }
      LastUsedOneMore(states, actions, k - 1, name, states[k].state.containers[name].lastAccessed);
    }
  }

  /**
   * When a container is stopped as idle, its last use was at least the idle time ago and no flight for it is under way.
   * One of its requests is still open exactly when the manager has lost sight of it: it opened before the container was
   * recorded, or the record was replaced since.
   */
  lemma IdleKillIsDue(states: seq<System>, actions: seq<Action>, k: nat, name: string, now: int)
    requires IsRun(states, actions) && k < |states| && Inv(states[0]) && states[0].strayed == {}
    requires IdleEnough(states[k].state, name, now, states[k].idleTimeout)
    ensures name !in states[k].state.inFlight && forall t :: !IsPilot(states[k].threads, states[k].state.inFlight, t, name)
    ensures OpenCount(states[k], name) > 0 <==> LostSight(states, actions, k, name)
    ensures exists time :: LastUsed(states, actions, k, name, time) && now - time >= states[k].idleTimeout
  {
    LastUseIsRecorded(states, actions, k, name);
    assert LastUsed(states, actions, k, name, states[k].state.containers[name].lastAccessed);
    hide LastUsed;
    RunKeepsInv(states, actions, k);
    StrayedIsLost(states, actions, k, name);
    SeenInRun(states, actions, k, name);
    hide IsRun, LostSight, RecordsGuarded, IndexSound, TimersExact, RequestsCounted, RequestsSeen;
  }

  /** The system while a request for "p" is open and thread 0 starts the container. */
  predicate EarlyOpen(s: System, thread: Phase, recorded: bool) {
    && s.idleTimeout == 60 && s.open == map["p" := 1]
    && s.threads == map[0 := Flying("p", 0, thread)] && s.posted == map[0 := None]
    && s.state.inFlight == map["p" := 0] && s.state.pending == map["p" := 1]
    && if recorded then "p" in s.state.containers && s.state.containers["p"] == ContainerRecord("c", 1, "", 0, 0)
       else s.state.containers == map[]
  }

  lemma EarlyStart()
    ensures var s0, open, enter := Initial([], 60), OpenRequest("p", 0), Enter(0, "p", 0);
      Enabled(s0, open) && Enabled(Step(s0, open), enter) && EarlyOpen(Step(Step(s0, open), enter), Starting, false)
  {
    assert Initial([], 60) == System(EMPTY, map[], map[], map[], {}, 60);
    assert map["p" := 1] == map[]["p" := 1];
  }

  lemma EarlyCreate(s: System)
    requires EarlyOpen(s, Starting, false)
    ensures var create := Create(0, ContainerRecord("c", 1, "", 0, 0));
      && Enabled(s, Peek(0)) && Enabled(Step(s, Peek(0)), create)
      && EarlyOpen(Step(Step(s, Peek(0)), create), Finished(Ok(create.rec)), true)
  {
    hide Indexed;
    var t := Step(s, Peek(0));
    assert t.threads == map[0 := Flying("p", 0, Unrecorded)];
  }

  lemma EarlyLeave(s: System, rec: ContainerRecord)
    requires EarlyOpen(s, Finished(Ok(rec)), true)
    ensures Enabled(s, Leave(0))
    ensures var last := Step(s, Leave(0)); IdleEnough(last.state, "p", 60, last.idleTimeout) && OpenCount(last, "p") == 1
  {
  }

  /** Such a run: a request opens before the container is recorded, and the container is stopped under it. */
  lemma EarlyRequestIsCut() returns (states: seq<System>, actions: seq<Action>)
    ensures IsRun(states, actions) && states[0] == Initial([], 60)
    ensures var last := states[|actions|]; IdleEnough(last.state, "p", 60, last.idleTimeout) && OpenCount(last, "p") == 1
  {
    var rec := ContainerRecord("c", 1, "", 0, 0);
    hide Step, Enabled, Initial, EarlyOpen, IdleEnough, OpenCount;
    actions := [OpenRequest("p", 0), Enter(0, "p", 0), Peek(0), Create(0, rec), Leave(0)];
    EarlyStart();
    var s0 := Initial([], 60);
    var s1 := Step(s0, actions[0]);
    var s2 := Step(s1, actions[1]);
    EarlyCreate(s2);
    var s3 := Step(s2, actions[2]);
    var s4 := Step(s3, actions[3]);
    EarlyLeave(s4, rec);
    states := [s0, s1, s2, s3, s4, Step(s4, actions[4])];
  }
}
