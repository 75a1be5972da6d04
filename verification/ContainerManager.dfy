/** The container manager's tables, one locked section at a time (internal/container/manager.go). */
module ContainerManager {
  import opened Prelude
  import opened Text

  /* Source addresses */

  predicate IsOctet(s: string) {
    1 <= |s| <= 3 && forall i :: 0 <= i < |s| ==> IsDigit(s[i])
  }

  predicate IsIpv4(s: string) {
    exists i, j, k :: 0 <= i < j < k < |s| && DotsAt(s, i, j, k)
  }

  predicate DotsAt(s: string, i: int, j: int, k: int)
    requires 0 <= i < j < k < |s|
  {
    && s[i] == '.' && s[j] == '.' && s[k] == '.'
    && IsOctet(s[..i]) && IsOctet(s[i + 1..j]) && IsOctet(s[j + 1..k]) && IsOctet(s[k + 1..])
  }

  predicate IsGroup(s: string) {
    (|s| == 1 || |s| == 2 || |s| == 3) && forall i :: 0 <= i < |s| ==> '0' <= s[i] <= '9'
  }

  ghost predicate JoinsTo(s: string, a: string, b: string, c: string, d: string) {
    s == a + "." + b + "." + c + "." + d && IsGroup(a) && IsGroup(b) && IsGroup(c) && IsGroup(d)
  }

  lemma DottedGroups(s: string, i: nat, j: nat, k: nat)
    requires i < j < k < |s| && s[i] == '.' && s[j] == '.' && s[k] == '.'
    ensures s == s[..i] + "." + s[i + 1..j] + "." + s[j + 1..k] + "." + s[k + 1..]
  {
  }

  lemma GroupsAreDotted(a: string, b: string, c: string, d: string)
    ensures var s := a + "." + b + "." + c + "." + d; var i, j, k := |a|, |a| + 1 + |b|, |a| + 1 + |b| + 1 + |c|;
      && s[i] == '.' && s[j] == '.' && s[k] == '.'
      && s[..i] == a && s[i + 1..j] == b && s[j + 1..k] == c && s[k + 1..] == d
  {
  }

  /** An IPv4 address is four groups of one to three digits, joined by dots. */
  lemma Ipv4IsFourGroups(s: string)
    ensures IsIpv4(s) <==> exists a, b, c, d :: JoinsTo(s, a, b, c, d)
  {
    hide DotsAt, JoinsTo;
    if i, j, k :| 0 <= i < j < k < |s| && DotsAt(s, i, j, k) {
      DotsJoin(s, i, j, k);
    }
    if a, b, c, d :| JoinsTo(s, a, b, c, d) {
      JoinedHasDots(s, a, b, c, d);
    }
  }

  lemma OctetIsGroup(s: string)
    ensures IsOctet(s) <==> IsGroup(s)
  {
  }

  lemma DotsJoin(s: string, i: nat, j: nat, k: nat)
    requires i < j < k < |s| && DotsAt(s, i, j, k)
    ensures JoinsTo(s, s[..i], s[i + 1..j], s[j + 1..k], s[k + 1..])
  {
    DottedGroups(s, i, j, k);
    OctetIsGroup(s[..i]);
    OctetIsGroup(s[i + 1..j]);
    OctetIsGroup(s[j + 1..k]);
    OctetIsGroup(s[k + 1..]);
    hide IsOctet, IsGroup;
  }

  lemma JoinedHasDots(s: string, a: string, b: string, c: string, d: string)
    requires JoinsTo(s, a, b, c, d)
    ensures var i, j, k := |a|, |a| + 1 + |b|, |a| + 1 + |b| + 1 + |c|; i < j < k < |s| && DotsAt(s, i, j, k)
  {
    GroupsAreDotted(a, b, c, d);
    OctetIsGroup(a);
    OctetIsGroup(b);
    OctetIsGroup(c);
    OctetIsGroup(d);
    hide IsOctet, IsGroup;
  }

  /** An address is looked up without white space around it and without the prefix of mapped ones; an IPv4 address also with it. */
  lemma KeysAreThese(ip: string, plain: string)
    requires Trimmed(ip) && plain == if "::ffff:" <= ip then ip[7..] else ip
    ensures SourceIpKeys(ip) ==
      if plain == "" then {} else if exists a, b, c, d :: JoinsTo(plain, a, b, c, d) then {plain, "::ffff:" + plain} else {plain}
  {
    TrimSpaceTrims(ip);
    Ipv4IsFourGroups(plain);
    hide TrimSpace, IsIpv4, JoinsTo;
  }

  const MAPPED := "::ffff:"

  function NormalizeIp(ip: string): string {
    var trimmed := TrimSpace(ip);
    if MAPPED <= trimmed then trimmed[|MAPPED|..] else trimmed
  }

  /** The forms under which an address is looked up. */
  function SourceIpKeys(ip: string): set<string> {
    var n := NormalizeIp(ip);
    if n == "" then {} else if IsIpv4(n) then {n, MAPPED + n} else {n}
  }

  lemma NoAddressNoKeys()
    ensures SourceIpKeys("") == {}
  {
    assert TrimSpace("") == "";
  }

  /** An IPv4 address and its mapped IPv6 form are looked up under the same keys. */
  lemma MappedFormHasSameKeys(ip: string)
    requires ip != "" && Trimmed(ip) && !(MAPPED <= ip)
    ensures SourceIpKeys(MAPPED + ip) == SourceIpKeys(ip)
    ensures ip in SourceIpKeys(ip)
  {
    var mapped := MAPPED + ip;
    assert mapped[0] == ':' && mapped[|mapped| - 1] == ip[|ip| - 1];
    TrimSpaceTrims(ip);
    TrimSpaceTrims(mapped);
    assert mapped[|MAPPED|..] == ip;
  }

  /* State */

  datatype ContainerRecord = ContainerRecord(containerId: string, hostPort: int, ip: string, inFlight: int, lastAccessed: int)

  /** The fields that the manager's mutex guards. A flight is identified by a number. */
  datatype State = State(
    containers: map<string, ContainerRecord>, ipIndex: map<string, string>, pending: map<string, int>,
    inFlight: map<string, nat>, timers: set<string>)

  /** Every index entry points to a live record whose address has that key. */
  ghost predicate IndexSound(s: State) {
    forall key :: key in s.ipIndex ==> Yields(s, s.ipIndex[key], key)
  }

  predicate Yields(s: State, name: string, key: string) {
    name in s.containers && key in SourceIpKeys(s.containers[name].ip)
  }

  /** A container with the given name has a key of the address. */
  ghost predicate Answers(s: State, name: string, sourceIp: string) {
    exists key :: key in SourceIpKeys(sourceIp) && Yields(s, name, key)
  }

  function Unindexed(index: map<string, string>, ip: string): map<string, string> {
    index - SourceIpKeys(ip)
  }

  function Indexed(index: map<string, string>, ip: string, name: string): map<string, string> {
    Marked(index, SourceIpKeys(ip), name)
  }

  function Marked(index: map<string, string>, keys: set<string>, name: string): map<string, string> {
    index + map key | key in keys :: name
  }

  lemma MarkedOneMore(index: map<string, string>, keys: set<string>, name: string, key: string)
    ensures Marked(index, keys + {key}, name) == Marked(index, keys, name)[key := name]
    ensures Marked(index, {}, name) == index
  {
  }

  /** Starts a record's idle timer anew, if idle containers are stopped at all. */
  function WithTimer(timers: set<string>, name: string, idleTimeout: int): set<string> {
    if idleTimeout <= 0 then timers else timers + {name}
  }

  function Touched(s: State, name: string, now: int, idleTimeout: int): State {
    if name !in s.containers then s
    else s.(containers := s.containers[name := s.containers[name].(lastAccessed := now)], timers := WithTimer(s.timers, name, idleTimeout))
  }

  function Opened(s: State, name: string, now: int, idleTimeout: int): State {
    if name !in s.containers then s
    else
      var rec := s.containers[name];
      Touched(s.(containers := s.containers[name := rec.(inFlight := rec.inFlight + 1)]), name, now, idleTimeout)
  }

  function Closed(s: State, name: string, now: int, idleTimeout: int): State {
    if name !in s.containers then s
    else
      var rec := s.containers[name];
      Touched(s.(containers := s.containers[name := rec.(inFlight := if rec.inFlight > 0 then rec.inFlight - 1 else rec.inFlight)]),
        name, now, idleTimeout)
  }

  function Removed(s: State, name: string): State {
    s.(ipIndex := if name in s.containers then Unindexed(s.ipIndex, s.containers[name].ip) else s.ipIndex,
       containers := s.containers - {name}, timers := s.timers - {name})
  }

  function Installed(s: State, name: string, rec: ContainerRecord, idleTimeout: int): State {
    s.(containers := s.containers[name := rec], ipIndex := Indexed(s.ipIndex, rec.ip, name), timers := WithTimer(s.timers, name, idleTimeout))
  }

  /** The address of a recorded container as Docker reports it now; "" if it cannot be told. */
  function Refreshed(s: State, name: string, ip: string): State {
    if ip == "" || name !in s.containers then s
    else
      var rec := s.containers[name];
      var index := if rec.ip != "" && rec.ip != ip then Unindexed(s.ipIndex, rec.ip) else s.ipIndex;
      s.(containers := s.containers[name := rec.(ip := ip)], ipIndex := Indexed(index, ip, name))
  }

  /** Whether the idle timer of a container finds it idle long enough, with nothing pending and no request open. */
  predicate IdleEnough(s: State, name: string, now: int, idleTimeout: int) {
    && name in s.containers
    && !(name in s.pending && s.pending[name] > 0)
    && s.containers[name].inFlight <= 0
    && now - s.containers[name].lastAccessed >= idleTimeout
  }

  function Fired(s: State, name: string, now: int, idleTimeout: int): State {
    if name !in s.containers then s.(timers := s.timers - {name})
    else if IdleEnough(s, name, now, idleTimeout) then s
    else s.(timers := WithTimer(s.timers, name, idleTimeout))
  }

  function PendingOf(s: State, name: string): int {
    if name in s.pending then s.pending[name] else 0
  }

  function FlightBegun(s: State, name: string, flight: nat): State {
    s.(inFlight := s.inFlight[name := flight], pending := s.pending[name := PendingOf(s, name) + 1])
  }

  function FlightEnded(s: State, name: string): State {
    s.(inFlight := s.inFlight - {name},
       pending := if PendingOf(s, name) <= 1 then s.pending - {name} else s.pending[name := PendingOf(s, name) - 1])
  }

  /** What a cached lookup of a key may answer and leave behind. */
  ghost predicate Looked(s: State, key: string, found: Option<string>, after: State) {
    if key in s.ipIndex && s.ipIndex[key] in s.containers then found == Some(s.ipIndex[key]) && after == s
    else if exists name :: Yields(s, name, key) then
      found.Some? && Yields(s, found.value, key) && after == s.(ipIndex := s.ipIndex[key := found.value])
    else found.None? && after == s.(ipIndex := s.ipIndex - {key})
  }

  /* The manager */

  class Manager {
    var containers: map<string, ContainerRecord>
    var containerIpIndex: map<string, string>
    var pendingWorkspaces: map<string, int>
    var ensureInFlight: map<string, nat>
    var idleTimers: set<string>
    /** In milliseconds. */
    const idleTimeout: int

    ghost function Contents(): State
      reads this
    {
      State(containers, containerIpIndex, pendingWorkspaces, ensureInFlight, idleTimers)
    }

    constructor (timeout: int)
      ensures Contents() == State(map[], map[], map[], map[], {}) && idleTimeout == timeout
    {
      containers, containerIpIndex, pendingWorkspaces, ensureInFlight, idleTimers := map[], map[], map[], map[], {};
      idleTimeout := timeout;
    }

    method IndexContainerIp(ip: string, name: string)
      modifies this`containerIpIndex
      ensures containerIpIndex == Indexed(old(containerIpIndex), ip, name)
    {
      hide SourceIpKeys, Marked;
      var left := SourceIpKeys(ip);
      ghost var done: set<string> := {};
      MarkedOneMore(containerIpIndex, {}, name, "");
      while left != {}
        invariant left + done == SourceIpKeys(ip) && left !! done
        invariant containerIpIndex == Marked(old(containerIpIndex), done, name)
        decreases left
      {
        var key :| key in left;
        MarkedOneMore(old(containerIpIndex), done, name, key);
        containerIpIndex := containerIpIndex[key := name];
        left, done := left - {key}, done + {key};
      }
    }

    method UnindexContainerIp(ip: string)
      modifies this`containerIpIndex
      ensures containerIpIndex == Unindexed(old(containerIpIndex), ip)
    {
      var left := SourceIpKeys(ip);
      ghost var done: set<string> := {};
      while left != {}
        invariant left + done == SourceIpKeys(ip) && left !! done
        invariant containerIpIndex == old(containerIpIndex) - done
        decreases left
      {
        var key :| key in left;
        containerIpIndex := containerIpIndex - {key};
        left, done := left - {key}, done + {key};
      }
    }

    method ResetIdleTimer(name: string)
      modifies this`idleTimers
      ensures idleTimers == WithTimer(old(idleTimers), name, idleTimeout)
    {
      if idleTimeout <= 0 { return; }
      idleTimers := idleTimers + {name};
    }

    method TouchContainer(name: string, now: int)
      modifies this`containers, this`idleTimers
      ensures Contents() == Touched(old(Contents()), name, now, idleTimeout)
      ensures containers.Keys == old(containers).Keys
      ensures name in containers ==> containers[name] == old(containers)[name].(lastAccessed := now)
    {
      if name !in containers { return; }
      containers := containers[name := containers[name].(lastAccessed := now)];
      ResetIdleTimer(name);
    }

    method AddInFlightRequest(name: string, now: int)
      modifies this`containers, this`idleTimers
      ensures Contents() == Opened(old(Contents()), name, now, idleTimeout)
      ensures name in containers ==>
        containers[name] == old(containers)[name].(inFlight := old(containers)[name].inFlight + 1, lastAccessed := now)
    {
      if name !in containers { return; }
      var rec := containers[name];
      containers := containers[name := rec.(inFlight := rec.inFlight + 1, lastAccessed := now)];
      ResetIdleTimer(name);
    }

    method RemoveInFlightRequest(name: string, now: int)
      modifies this`containers, this`idleTimers
      ensures Contents() == Closed(old(Contents()), name, now, idleTimeout)
      ensures name in containers ==>
        && containers[name].lastAccessed == now
        && containers[name].inFlight == old(containers)[name].inFlight - (if old(containers)[name].inFlight > 0 then 1 else 0)
    {
      if name !in containers { return; }
      var rec := containers[name];
      if rec.inFlight > 0 {
        rec := rec.(inFlight := rec.inFlight - 1);
      }
      containers := containers[name := rec.(lastAccessed := now)];
      ResetIdleTimer(name);
    }

    method RemoveContainerRecord(name: string)
      modifies this`containers, this`containerIpIndex, this`idleTimers
      ensures Contents() == Removed(old(Contents()), name)
    {
      NoAddressNoKeys();
      if name in containers && containers[name].ip != "" {
        UnindexContainerIp(containers[name].ip);
      }
      containers := containers - {name};
      idleTimers := idleTimers - {name};
    }

    method InstallRecord(name: string, rec: ContainerRecord)
      modifies this`containers, this`containerIpIndex, this`idleTimers
      ensures Contents() == Installed(old(Contents()), name, rec, idleTimeout)
    {
      NoAddressNoKeys();
      containers := containers[name := rec];
      if rec.ip != "" {
        IndexContainerIp(rec.ip, name);
      }
      ResetIdleTimer(name);
    }

    /** The locked part of the idle timer; the caller stops the container when `kill` is set. */
    method ExpireIdleContainer(name: string, now: int) returns (kill: bool)
      modifies this`idleTimers
      ensures Contents() == Fired(old(Contents()), name, now, idleTimeout)
      ensures kill <==> IdleEnough(old(Contents()), name, now, idleTimeout)
    {
      if name !in containers {
        idleTimers := idleTimers - {name};
        return false;
      }
      var pending := if name in pendingWorkspaces then pendingWorkspaces[name] else 0;
      var open := containers[name].inFlight;
      if pending > 0 || open > 0 || now - containers[name].lastAccessed < idleTimeout {
        ResetIdleTimer(name);
        return false;
      }
      kill := true;
    }

    method RefreshAddress(name: string, latestIp: string)
      modifies this`containers, this`containerIpIndex
      ensures Contents() == Refreshed(old(Contents()), name, latestIp)
    {
      if latestIp == "" || name !in containers { return; }
      var rec := containers[name];
      if rec.ip != "" && rec.ip != latestIp {
        UnindexContainerIp(rec.ip);
      }
      containers := containers[name := rec.(ip := latestIp)];
      IndexContainerIp(latestIp, name);
    }

    /**
     * The cached lookup. With a sound index it finds a record exactly when some container's address has the key,
     * and what it finds is such a record.
     */
    method GetContainerBySourceIpCached(key: string) returns (found: Option<string>)
      modifies this`containerIpIndex
      ensures Looked(old(Contents()), key, found, Contents())
      ensures old(IndexSound(Contents())) ==>
        && IndexSound(Contents())
        && (found.Some? <==> exists name :: Yields(Contents(), name, key))
        && (found.Some? ==> Yields(Contents(), found.value, key))
    {
      ghost var before := Contents();
      found := LookUp(key);
      hide Looked, IndexSound, Yields;
      if IndexSound(before) { LookedStaysSound(before, key, found, Contents()); }
    }

    method LookUp(key: string) returns (found: Option<string>)
      modifies this`containerIpIndex
      ensures Looked(old(Contents()), key, found, Contents())
    {
      hide SourceIpKeys;
      if key in containerIpIndex {
        if containerIpIndex[key] in containers {
          return Some(containerIpIndex[key]);
        }
        containerIpIndex := containerIpIndex - {key};
      }
      ghost var before := old(Contents());
      assert containerIpIndex == before.ipIndex - {key};
      var left := containers.Keys;
      while left != {}
        invariant left <= containers.Keys
        invariant forall name :: name in containers && name !in left ==> key !in SourceIpKeys(containers[name].ip)
        decreases left
      {
        var name :| name in left;
        if key in SourceIpKeys(containers[name].ip) {
          assert Yields(before, name, key);
          containerIpIndex := containerIpIndex[key := name];
          assert containerIpIndex == before.ipIndex[key := name];
          return Some(name);
        }
        left := left - {name};
      }
      found := None;
    }

    /**
     * Looks an address up under each of its keys, then asks for the current address of every container. `latest` is
     * what Docker reports meanwhile; a name without an entry could not be inspected. With a sound index and nobody else
     * interfering, a container is found that has a key of the address, and if none is found no container has one.
     */
    method ResolveContainerBySourceIp(sourceIp: string, latest: map<string, string>) returns (found: Option<string>)
      modifies this`containers, this`containerIpIndex
      ensures old(IndexSound(Contents())) ==> IndexSound(Contents())
      ensures old(IndexSound(Contents())) && found.Some? ==> Answers(Contents(), found.value, sourceIp)
      ensures old(IndexSound(Contents())) && found.None? ==> forall name :: !Answers(Contents(), name, sourceIp)
    {
      hide SourceIpKeys, IndexSound, Looked;
      ghost var sound := IndexSound(Contents());
      var keys := SourceIpKeys(sourceIp);
      while keys != {}
        invariant keys <= SourceIpKeys(sourceIp)
        invariant sound ==> IndexSound(Contents())
        invariant containers == old(containers)
        invariant sound ==> forall key, name :: key in SourceIpKeys(sourceIp) && key !in keys ==> !Yields(Contents(), name, key)
        decreases keys
      {
        var key :| key in keys;
        ghost var before := Contents();
        found := GetContainerBySourceIpCached(key);
        if found.Some? {
          return;
        }
        assert forall k, name :: Yields(Contents(), name, k) ==> Yields(before, name, k);
        keys := keys - {key};
      }
      var names := containers.Keys;
      while names != {}
        invariant names <= containers.Keys
        invariant sound ==> IndexSound(Contents())
        invariant sound ==> forall name :: !Answers(Contents(), name, sourceIp)
        decreases names
      {
        var name :| name in names;
        names := names - {name};
        var ip := if name in latest then latest[name] else "";
        if ip == "" { continue; }
        ghost var before := Contents();
        RefreshAddress(name, ip);
        if IndexSound(before) { RefreshedStaysSound(before, name, ip); }
        if SourceIpKeys(sourceIp) * SourceIpKeys(ip) != {} {
          var key :| key in SourceIpKeys(sourceIp) * SourceIpKeys(ip);
          assert Yields(Contents(), name, key);
          return Some(name);
        }
        RefreshedOthers(before, name, ip, sourceIp);
      }
      found := None;
    }

    /** The first locked part of EnsureContainer: join the flight under way, or begin one. */
    method BeginEnsure(name: string, newFlight: nat) returns (joined: Option<nat>)
      modifies this`pendingWorkspaces, this`ensureInFlight
      ensures joined == if name in old(ensureInFlight) then Some(old(ensureInFlight)[name]) else None
      ensures Contents() == if joined.Some? then old(Contents()) else FlightBegun(old(Contents()), name, newFlight)
    {
      if name in ensureInFlight {
        return Some(ensureInFlight[name]);
      }
      ensureInFlight := ensureInFlight[name := newFlight];
      pendingWorkspaces := pendingWorkspaces[name := (if name in pendingWorkspaces then pendingWorkspaces[name] else 0) + 1];
      joined := None;
    }

    /** The last locked part of EnsureContainer. */
    method EndEnsure(name: string)
      modifies this`pendingWorkspaces, this`ensureInFlight
      ensures Contents() == FlightEnded(old(Contents()), name)
    {
      ensureInFlight := ensureInFlight - {name};
      if name !in pendingWorkspaces || pendingWorkspaces[name] <= 1 {
        pendingWorkspaces := pendingWorkspaces - {name};
      } else {
        pendingWorkspaces := pendingWorkspaces[name := pendingWorkspaces[name] - 1];
      }
    }

    /** Records what runs already when the manager starts. */
    method DiscoverRunningContainers(list: seq<Discovered>)
      modifies this`containers, this`containerIpIndex, this`idleTimers
      ensures Contents() == Discover(old(Contents()), list, idleTimeout)
    {
      var i := 0;
      while i < |list|
        invariant i <= |list|
        invariant Contents() == Discover(old(Contents()), list[..i], idleTimeout)
      {
        assert list[..i + 1][..i] == list[..i];
        InstallRecord(list[i].name, list[i].rec);
        i := i + 1;
      }
      assert list[..i] == list;
    }
  }

  /* The index */

  lemma RemovedStaysSound(s: State, name: string)
    requires IndexSound(s)
    ensures IndexSound(Removed(s, name))
  {
    hide SourceIpKeys;
  }

  lemma InstalledStaysSound(s: State, name: string, rec: ContainerRecord, idleTimeout: int)
    requires IndexSound(s) && name !in s.containers
    ensures IndexSound(Installed(s, name, rec, idleTimeout))
  {
    hide SourceIpKeys;
  }

  lemma RefreshedStaysSound(s: State, name: string, ip: string)
    requires IndexSound(s)
    ensures IndexSound(Refreshed(s, name, ip))
  {
    NoAddressNoKeys();
    hide SourceIpKeys;
  }

  lemma RefreshedOthers(s: State, name: string, ip: string, sourceIp: string)
    requires name in s.containers && ip != "" && SourceIpKeys(sourceIp) * SourceIpKeys(ip) == {}
    ensures forall other :: Answers(Refreshed(s, name, ip), other, sourceIp) ==> Answers(s, other, sourceIp)
  {
    hide SourceIpKeys, Indexed, Unindexed;
    var n := Refreshed(s, name, ip);
    forall other | Answers(n, other, sourceIp) ensures Answers(s, other, sourceIp) {
      var key :| key in SourceIpKeys(sourceIp) && Yields(n, other, key);
      assert key !in SourceIpKeys(sourceIp) * SourceIpKeys(ip);
      assert Yields(s, other, key);
    }
  }

  lemma LookedStaysSound(s: State, key: string, found: Option<string>, after: State)
    requires IndexSound(s) && Looked(s, key, found, after)
    ensures IndexSound(after)
    ensures found.Some? <==> exists name :: Yields(s, name, key)
    ensures found.Some? ==> Yields(s, found.value, key)
    ensures after.containers == s.containers
    ensures forall name :: Yields(after, name, key) == Yields(s, name, key)
  {
    hide SourceIpKeys;
    forall k | k in after.ipIndex ensures Yields(after, after.ipIndex[k], k) {
      assert k != key ==> Yields(s, s.ipIndex[k], k);
    }
  }

  lemma OpenedKeepsAddresses(s: State, name: string, now: int, idleTimeout: int)
    requires IndexSound(s)
    ensures IndexSound(Touched(s, name, now, idleTimeout))
    ensures IndexSound(Opened(s, name, now, idleTimeout))
    ensures IndexSound(Closed(s, name, now, idleTimeout))
  {
    hide SourceIpKeys;
  }

  /* Discovery */

  datatype Discovered = Discovered(name: string, rec: ContainerRecord)

  function Discover(s: State, list: seq<Discovered>, idleTimeout: int): State {
    if list == [] then s
    else Installed(Discover(s, list[..|list| - 1], idleTimeout), list[|list| - 1].name, list[|list| - 1].rec, idleTimeout)
  }

  const EMPTY := State(map[], map[], map[], map[], {})

  ghost predicate LastYielding(list: seq<Discovered>, key: string, i: nat) {
    i < |list| && key in SourceIpKeys(list[i].rec.ip) && forall k :: i < k < |list| ==> key !in SourceIpKeys(list[k].rec.ip)
  }

  ghost predicate LastNamed(list: seq<Discovered>, name: string, i: nat) {
    i < |list| && list[i].name == name && forall k :: i < k < |list| ==> list[k].name != name
  }

  /** Discovery leaves the last container of each name. */
  lemma {:induction false} NamesDiscovered(list: seq<Discovered>, idleTimeout: int, name: string)
    ensures var s := Discover(EMPTY, list, idleTimeout);
      && (name in s.containers ==> exists i: nat :: LastNamed(list, name, i) && s.containers[name] == list[i].rec)
      && (forall i: nat :: LastNamed(list, name, i) ==> name in s.containers)
  {
    hide SourceIpKeys, Marked;
    if list != [] {
      var n := |list| - 1;
      var init := list[..n];
      NamesDiscovered(init, idleTimeout, name);
      if name == list[n].name {
        assert LastNamed(list, name, n);
      } else {
        forall i: nat ensures LastNamed(list, name, i) <==> LastNamed(init, name, i) {}
      }
    }
  }

  /** And for each key the name of the last container that has it. */
  lemma {:induction false} KeysDiscovered(list: seq<Discovered>, idleTimeout: int, key: string)
    ensures var s := Discover(EMPTY, list, idleTimeout);
      && (key in s.ipIndex ==> exists i: nat :: LastYielding(list, key, i) && s.ipIndex[key] == list[i].name)
      && (forall i: nat :: LastYielding(list, key, i) ==> key in s.ipIndex)
  {
    hide SourceIpKeys;
    if list != [] {
      var n := |list| - 1;
      var init := list[..n];
      KeysDiscovered(init, idleTimeout, key);
      if key in SourceIpKeys(list[n].rec.ip) {
        assert LastYielding(list, key, n);
      } else {
        forall i: nat ensures LastYielding(list, key, i) <==> LastYielding(init, key, i) {}
      }
    }
  }

  /** For every key, the last container that has it must not be shadowed by a later one of its name without it. */
  ghost predicate NoneShadowed(list: seq<Discovered>) {
    forall key, i: nat, j: nat :: LastYielding(list, key, i) && LastNamed(list, list[i].name, j) ==> key in SourceIpKeys(list[j].rec.ip)
  }

  lemma LastNamedIsUnique(list: seq<Discovered>, name: string, i: nat, j: nat)
    requires LastNamed(list, name, i) && LastNamed(list, name, j)
    ensures i == j
  {
  }

  lemma LastYieldingIsUnique(list: seq<Discovered>, key: string, i: nat, j: nat)
    requires LastYielding(list, key, i) && LastYielding(list, key, j)
    ensures i == j
  {
    hide SourceIpKeys;
  }

  /** Discovery leaves a sound index exactly when no address is shadowed; distinct names suffice. */
  lemma DiscoveryIsSound(list: seq<Discovered>, idleTimeout: int)
    ensures IndexSound(Discover(EMPTY, list, idleTimeout)) <==> NoneShadowed(list)
    ensures (forall i, j :: 0 <= i < j < |list| ==> list[i].name != list[j].name) ==> NoneShadowed(list)
  {
    hide SourceIpKeys, Discover;
    var s := Discover(EMPTY, list, idleTimeout);
    if NoneShadowed(list) {
      forall key | key in s.ipIndex ensures Yields(s, s.ipIndex[key], key) { UnshadowedYields(list, idleTimeout, key); }
    }
    if IndexSound(s) {
      forall key, i: nat, j: nat | LastYielding(list, key, i) && LastNamed(list, list[i].name, j)
        ensures key in SourceIpKeys(list[j].rec.ip)
      {
        SoundIsUnshadowed(list, idleTimeout, key, i, j);
      }
    }
  }

  lemma UnshadowedYields(list: seq<Discovered>, idleTimeout: int, key: string)
    requires NoneShadowed(list) && key in Discover(EMPTY, list, idleTimeout).ipIndex
    ensures var s := Discover(EMPTY, list, idleTimeout); Yields(s, s.ipIndex[key], key)
  {
    hide SourceIpKeys, Discover;
    var s := Discover(EMPTY, list, idleTimeout);
    KeysDiscovered(list, idleTimeout, key);
    var i: nat :| LastYielding(list, key, i) && s.ipIndex[key] == list[i].name;
    NamesDiscovered(list, idleTimeout, list[i].name);
    var j := LastOfName(list, list[i].name, i);
    var k: nat :| LastNamed(list, list[i].name, k) && s.containers[list[i].name] == list[k].rec;
    LastNamedIsUnique(list, list[i].name, j, k);
  }

  lemma SoundIsUnshadowed(list: seq<Discovered>, idleTimeout: int, key: string, i: nat, j: nat)
    requires IndexSound(Discover(EMPTY, list, idleTimeout))
    requires LastYielding(list, key, i) && LastNamed(list, list[i].name, j)
    ensures key in SourceIpKeys(list[j].rec.ip)
  {
    hide SourceIpKeys, Discover;
    var s := Discover(EMPTY, list, idleTimeout);
    KeysDiscovered(list, idleTimeout, key);
    NamesDiscovered(list, idleTimeout, list[i].name);
    assert Yields(s, s.ipIndex[key], key);
    var m: nat :| LastYielding(list, key, m) && s.ipIndex[key] == list[m].name;
    LastYieldingIsUnique(list, key, i, m);
    var k: nat :| LastNamed(list, list[i].name, k) && s.containers[list[i].name] == list[k].rec;
    LastNamedIsUnique(list, list[i].name, j, k);
  }

  lemma {:induction false} LastOfName(list: seq<Discovered>, name: string, i: nat) returns (j: nat)
    requires i < |list| && list[i].name == name
    ensures LastNamed(list, name, j)
    decreases |list| - i
  {
    if k: nat :| i < k < |list| && list[k].name == name {
      j := LastOfName(list, name, k);
    } else {
      j := i;
    }
  }

  /** Two containers of one name on different addresses are enough to leave a stale entry. */
  lemma ShadowedDiscovery(a: ContainerRecord, b: ContainerRecord, name: string, idleTimeout: int)
    requires SourceIpKeys(a.ip) - SourceIpKeys(b.ip) != {}
    ensures !IndexSound(Discover(EMPTY, [Discovered(name, a), Discovered(name, b)], idleTimeout))
  {
    hide SourceIpKeys, Discover;
    var list := [Discovered(name, a), Discovered(name, b)];
    var key :| key in SourceIpKeys(a.ip) - SourceIpKeys(b.ip);
    DiscoveryIsSound(list, idleTimeout);
    assert LastYielding(list, key, 0) && LastNamed(list, list[0].name, 1);
  }
}
