/** `reconcile` (deploy/managed_pool.py): one pass of owner Apply over the pool. */
module PoolReconcile {
  import opened Effects
  import opened PoolModel
  import opened PoolLog
  import opened PoolSite

  const CAPACITY := 32
  const PATIENCE := 60

  datatype Report = Report(ready: seq<string>, draining: seq<string>, retired: seq<string>)

  /** What became of one member in a pass that returned. */
  datatype Fate = Skipped | MadeReady | LeftDraining | Retired

  /** The local registration is the recorded runner. */
  predicate Held(w: World, m: Member) {
    && Recorded(w, m.id) && w.pool.value.members[m.id].runnerId.Some?
    && RegistrationOf(MarkersOf(w, m.id), m) == Present(w.pool.value.members[m.id].runnerId.value)
  }

  ghost predicate OthersKept(w: World, w': World, id: string) {
    && w.pool.Some? && w'.pool.Some?
    && w'.pool.value == w.pool.value.(members := w'.pool.value.members)
    && (forall k :: k != id ==> RecordIn(w'.pool, k) == RecordIn(w.pool, k))
    && FilesKeptBut(w, w', id)
  }

  ghost predicate NothingLeftFrozen(before: Log, after: Log) {
    forall k :: LeftFrozen(after, k) ==> LeftFrozen(before, k)
  }

  ghost predicate AllMatch(w: World, state: PoolState) {
    forall id :: id in state.members ==> RecordMatches(w, id, state.members[id])
  }

  /** A pass changes one record at a time, along the phase graph. */
  lemma RecordWritable(w: World, log: Log, state: PoolState, m: Member, record: Record)
    requires Inv(w, log) && w.pool == Some(state) && IsMember(state, m) && RecordOk(record)
    requires PhaseStep(RecordIn(w.pool, m.id), Some(record)) && RecordMatches(w, m.id, record)
    requires record.phase == Ready && !InReady(w.pool, m.id) ==> JustReady(log, m.id)
    requires record.phase == Remove && !InRemove(w.pool, m.id) && Clean(log, m.name) ==>
               record.runnerId.Some? && Drained(w, record.runnerId.value)
    ensures var state' := state.(members := state.members[m.id := record]);
            && WriteOk(w.pool, state') && ReadyEarned(log, w.pool, state') && StateOk(state')
            && RemovalEarned(log, w, w.pool, state') && AllMatch(w, state')
  {
    hide WorldOk, Counted, Reserved, WriteOk, ReadyEarned, RemovalEarned, Clean, Drained;
    StateFacts(w, log, state);
    if record.runnerId.Some? {
      assert w.issued[record.runnerId.value].owner == Some(m.id);
      OwnRunnerNamed(w, log, m, record.runnerId.value);
    }
    OneRecordOk(state, m, record);
    OneRecordSteps(w, log, state, m, record);
    hide Inv, RecordMatches, StateOk;
    forall id | id in state.members
      ensures RecordMatches(w, id, state.members[id])
    {
    }
  }

  lemma StateFacts(w: World, log: Log, state: PoolState)
    requires Inv(w, log) && w.pool == Some(state)
    ensures StateOk(state) && AllMatch(w, state)
  {
    hide StateOk, RecordMatches, WorldOk, Counted, Reserved;
  }

  lemma OneRecordOk(state: PoolState, m: Member, record: Record)
    requires StateOk(state) && IsMember(state, m) && RecordOk(record)
    ensures StateOk(state.(members := state.members[m.id := record]))
  {
    assert KnowsId(state.binding.members, m.id);
  }

  lemma OneRecordSteps(w: World, log: Log, state: PoolState, m: Member, record: Record)
    requires PhaseStep(RecordIn(Some(state), m.id), Some(record))
    requires record.phase == Ready && !InReady(Some(state), m.id) ==> JustReady(log, m.id)
    requires record.phase == Remove ==>
               && record.runnerId.Some? && record.runnerId.value in w.issued
               && w.issued[record.runnerId.value].name == m.name
    requires record.phase == Remove && !InRemove(Some(state), m.id) && Clean(log, m.name) ==>
               Drained(w, record.runnerId.value)
    ensures WriteOk(Some(state), state.(members := state.members[m.id := record]))
    ensures ReadyEarned(log, Some(state), state.(members := state.members[m.id := record]))
    ensures RemovalEarned(log, w, Some(state), state.(members := state.members[m.id := record]))
  {
    hide Clean, Drained;
  }

  /** Two durable states that differ in one member's record only. */
  lemma OneRecordChanged(w: World, state: PoolState, state': PoolState, id: string)
    requires w.pool == Some(state) && state' == state.(members := state'.members)
    requires forall k :: k != id ==> RecordIn(Some(state'), k) == RecordIn(Some(state), k)
    ensures OthersKept(w, w, id) && OthersKept(w, w.(pool := Some(state')), id)
  {
  }

  /** Write one changed record. */
  method SetRecord(site: Site, state: PoolState, m: Member, record: Record) returns (r: Result<PoolState>)
    requires site.Valid() && site.world.pool == Some(state) && IsMember(state, m) && RecordOk(record)
    requires PhaseStep(RecordIn(site.world.pool, m.id), Some(record)) && RecordMatches(site.world, m.id, record)
    requires record.phase == Ready && !InReady(site.world.pool, m.id) ==> JustReady(site.log, m.id)
    requires m.id !in state.members ==> MarkersOf(site.world, m.id).runner.None?
    requires record.phase == Remove && !InRemove(site.world.pool, m.id) && Clean(site.log, m.name) ==>
               record.runnerId.Some? && Drained(site.world, record.runnerId.value)
    modifies site
    ensures site.Valid()
    ensures site.world == old(site.world).(pool := site.world.pool)
    ensures r.Ok? ==> OthersKept(old(site.world), site.world, m.id)
    ensures Continues(old(site.log), site.log)
    ensures r.Ok? ==> r.value == state.(members := state.members[m.id := record])
    ensures r.Ok? ==>
              site.world.pool == Some(r.value) && site.log == Then(old(site.log), Wrote(r.value), old(site.world))
    ensures site.quiet ==> r.Ok?
    ensures Acts(site.log) == Acts(old(site.log))
    ensures site.quiet ==> Aside(old(site.world), site.world, m)
  {
    hide Inv, WriteOk, ReadyEarned, RemovalEarned, StateOk, RecordMatches, OthersKept, Clean, Drained;
    var state' := state.(members := state.members[m.id := record]);
    RecordWritable(site.world, site.log, state, m, record);
    OneRecordChanged(site.world, state, state', m.id);
    var _ :- site.Write(state');
    return Ok(state');
  }

  /** Delete one record. */
  method DropRecord(site: Site, state: PoolState, m: Member) returns (r: Result<PoolState>)
    requires site.Valid() && site.world.pool == Some(state) && InPhase(site.world, m.id, Remove)
    modifies site
    ensures site.Valid()
    ensures site.world == old(site.world).(pool := site.world.pool)
    ensures r.Ok? ==> OthersKept(old(site.world), site.world, m.id)
    ensures Continues(old(site.log), site.log)
    ensures r.Ok? ==> site.world.pool == Some(r.value) && m.id !in r.value.members
    ensures site.quiet ==> r.Ok?
    ensures Acts(site.log) == Acts(old(site.log))
    ensures site.quiet ==> Aside(old(site.world), site.world, m)
  {
    hide OthersKept;
    var state' := state.(members := map k | k in state.members && k != m.id :: state.members[k]);
    OneRecordChanged(site.world, state, state', m.id);
    var _ :- site.Write(state');
    return Ok(state');
  }

  /** What the record of a member says about GitHub and the local files. */
  lemma RecordFacts(w: World, log: Log, m: Member)
    requires Inv(w, log) && Recorded(w, m.id) && IsMember(w.pool.value, m)
    ensures var record := w.pool.value.members[m.id];
            && RecordOk(record) && RecordMatches(w, m.id, record)
            && (record.runnerId.Some? ==>
                  && record.runnerId.value in w.issued
                  && w.issued[record.runnerId.value] == Issue(m.name, Some(m.id))
                  && (record.runnerId.value in w.runners ==> record.runnerId.value in Named(w, m.name)))
  {
    var record := w.pool.value.members[m.id];
    if record.runnerId.Some? {
      OwnRunnerNamed(w, log, m, record.runnerId.value);
    }
  }

  /** `remote_absent`, required. */
  method ProveUnlisted(site: Site, m: Member, id: nat) returns (r: Result<()>)
    requires site.Valid() && InPool(site.world, m) && Recorded(site.world, m.id)
    requires site.world.pool.value.members[m.id].runnerId == Some(id)
    modifies site
    ensures site.Valid() && (r.Ok? ==> Drift(old(site.world), site.world))
    ensures Continues(old(site.log), site.log)
    ensures r.Ok? && ShortLists(site.log) ==> RunnerGone(site.world, m.id)
    ensures site.quiet ==>
              site.world == old(site.world) && (r.Ok? <==> Named(site.world, m.name) == {} && id !in site.world.runners)
    ensures Acts(site.log) == Acts(old(site.log))
  {
    RecordFacts(site.world, site.log, m);
    hide Inv, RecordMatches, RecordOk, IsMember, WorldOk;
    var absent := site.RemoteAbsent(m, id);
    ReadContinues(old(site.log), site.log);
    DriftIsStoresDrift(old(site.world), site.world);
    hide Drift, Continues;
    return if absent.Stop? then Stop(absent.halt) else if absent.value then Ok(()) else Stop(Raised);
  }

  lemma ShortEarlier(a: Log, b: Log)
    requires Continues(a, b)
    ensures ShortLists(b) ==> ShortLists(a)
  {
  }

  lemma GoneStays(w: World, w': World, id: string)
    requires Drift(w, w')
    ensures RunnerGone(w, id) ==> RunnerGone(w', id)
  {
  }

  /** No repository has an active attempt, and nothing of the unit is left. */
  method ProveStill(site: Site, m: Member) returns (r: Result<()>)
    requires site.Valid()
    modifies site
    ensures site.Valid() && (r.Ok? ==> Drift(old(site.world), site.world))
    ensures Continues(old(site.log), site.log)
    ensures r.Ok? ==> Dead(UnitOf(site.world, m.id)) && AttemptsIdleNow(site.log)
    ensures site.quiet ==> site.world == old(site.world) && (r.Ok? <==> RemovalStopped(UnitOf(site.world, m.id)))
    ensures Acts(site.log) == Acts(old(site.log))
  {
    hide Inv, Drift;
    var idle :- site.Ask(AttemptsIdle);
    if !idle {
      return Stop(Raised);
    }
    ghost var w := site.world;
    var stopped :- site.Stopped(m);
    DriftTransitive(old(site.world), w, site.world);
    return if stopped then Ok(()) else Stop(Raised);
  }

  /** A removal whose outcome was not seen: prove that the runner is gone from GitHub,
      that nothing runs any attempt, and that nothing of the unit is left. */
  method ProveGone(site: Site, state: PoolState, m: Member) returns (r: Result<()>)
    requires site.Valid() && site.world.pool == Some(state) && IsMember(state, m) && InPhase(site.world, m.id, Remove)
    modifies site
    ensures site.Valid() && (r.Ok? ==> Drift(old(site.world), site.world))
    ensures Continues(old(site.log), site.log)
    ensures r.Ok? ==> Dead(UnitOf(site.world, m.id)) && AttemptsIdleNow(site.log)
    ensures r.Ok? && ShortLists(site.log) ==> RunnerGone(site.world, m.id)
    ensures site.quiet ==> site.world == old(site.world) && (r.Ok? <==> Removable(site.world, m))
    ensures Acts(site.log) == Acts(old(site.log))
  {
    hide Inv, RunnerGone, RecordMatches, Drift, Continues, IsMember;
    RecordFacts(site.world, site.log, m);
    var _ :- ProveUnlisted(site, m, state.members[m.id].runnerId.value);
    ghost var w, log := site.world, site.log;
    r := ProveStill(site, m);
    ContinuesTwice(old(site.log), log, site.log);
    ShortEarlier(log, site.log);
    if r.Ok? {
      DriftTransitive(old(site.world), w, site.world);
      GoneStays(w, site.world, m.id);
    }
  }

  // ---- What a pass over a quiet site does about one member ----

  /** The custom labels are replaced unless they are the wanted ones. */
  function LabelActs(m: Member, id: nat, runner: Runner, tags: set<string>): seq<Event> {
    if CustomNames(runner.labels) == tags then [] else [Labelled(m, id, tags)]
  }

  /** A registered or drained member is started. */
  function LaunchActs(m: Member, phase: Phase): seq<Event> {
    if phase in {Registered, Draining} then [Event.Started(m)] else []
  }

  /** Local markers are forgotten if there are any; the member is retired. */
  function RemovalActs(w: World, m: Member): seq<Event> {
    (if MetadataPresent(MarkersOf(w, m.id)) then [Forgot(m)] else []) + [Event.Retired(m)]
  }

  /** A unit that is down is removed, an active one is stopped if it is idle. */
  ghost function LowerActs(w: World, m: Member): seq<Event> {
    if RemovalStopped(UnitOf(w, m.id)) then [Unconfigured(m), Event.Retired(m)] else StopActs(w, m)
  }

  ghost function UnitAfter(w: World, m: Member, busy: bool): Unit {
    if busy then UnitOf(w, m.id) else UnitOf(AfterStop(w, m), m.id)
  }

  /** Nothing of the member exists anywhere but on the host's disk. */
  ghost predicate Traceless(w: World, m: Member) {
    RegistrationOf(MarkersOf(w, m.id), m) == Absent && Named(w, m.name) == {}
  }

  /** GitHub lists neither the member's name nor its recorded runner, and nothing of its
      unit is left. */
  ghost predicate Removable(w: World, m: Member) {
    && Recorded(w, m.id) && w.pool.value.members[m.id].runnerId.Some?
    && Named(w, m.name) == {} && w.pool.value.members[m.id].runnerId.value !in w.runners
    && RemovalStopped(UnitOf(w, m.id))
  }

  /** The `remove` branch. Local markers are never parsed here. */
  method FinishRemoval(site: Site, state: PoolState, m: Member) returns (r: Result<PoolState>)
    requires site.Valid() && site.world.pool == Some(state) && IsMember(state, m) && InPhase(site.world, m.id, Remove)
    modifies site
    ensures site.Valid() && (r.Ok? ==> OthersKept(old(site.world), site.world, m.id))
    ensures Continues(old(site.log), site.log)
    ensures r.Ok? ==> site.world.pool == Some(r.value) && m.id !in r.value.members
    ensures r.Ok? ==> !MetadataPresent(MarkersOf(site.world, m.id))
    ensures site.quiet ==> (r.Ok? <==> old(Removable(site.world, m)))
    ensures site.quiet ==> Aside(old(site.world), site.world, m)
    ensures r.Ok? ==> Acts(site.log) == Acts(old(site.log)) + old(RemovalActs(site.world, m))
  {
    hide Inv, OthersKept, Removable;
    var _ :- ProveGone(site, state, m);
    KeptThroughDrift(old(site.world), site.world, m.id);
    DriftStays(old(site.world), site.world);
    hide Drift, RunnerGone;
    r := Delete(site, state, m, old(site.world));
  }

  /** The rest of the `remove` branch. */
  method Delete(site: Site, state: PoolState, m: Member, ghost was: World) returns (r: Result<PoolState>)
    requires site.Valid() && site.world.pool == Some(state) && InPhase(site.world, m.id, Remove)
    requires OthersKept(was, site.world, m.id) && Dead(UnitOf(site.world, m.id))
    requires AttemptsIdleNow(site.log) && (ShortLists(site.log) ==> RunnerGone(site.world, m.id))
    modifies site
    ensures site.Valid() && (r.Ok? ==> OthersKept(was, site.world, m.id))
    ensures Continues(old(site.log), site.log)
    ensures r.Ok? ==> site.world.pool == Some(r.value) && m.id !in r.value.members
    ensures r.Ok? ==> !MetadataPresent(MarkersOf(site.world, m.id))
    ensures site.quiet ==> r.Ok?
    ensures site.quiet ==> Aside(old(site.world), site.world, m)
    ensures site.quiet || r.Ok? ==> Acts(site.log) == Acts(old(site.log)) + old(RemovalActs(site.world, m))
  {
    hide Inv, OthersKept, RunnerGone, RunnersDrift;
    ghost var w := site.world;
    if MetadataPresent(MarkersOf(site.world, m.id)) {
      var _ :- site.Forget(m);
    }
    if MetadataPresent(MarkersOf(site.world, m.id)) {
      return Stop(Raised);
    }
    KeptAfter(was, w, site.world, m.id);
    r := RetireAndDrop(site, state, m, was);
  }

  lemma KeptAfter(a: World, b: World, c: World, id: string)
    requires OthersKept(a, b, id) && c.pool == b.pool && FilesKeptBut(b, c, id)
    ensures OthersKept(a, c, id)
  {
  }

  lemma KeptTwice(a: World, b: World, c: World, id: string)
    requires OthersKept(a, b, id) && OthersKept(b, c, id)
    ensures OthersKept(a, c, id)
  {
  }

  lemma NotYetCalled(w: World, log: Log, id: string)
    requires Inv(w, log)
    ensures !Recorded(w, id) ==> Registrations(log, id) == 0
    ensures !InPhase(w, id, Remove) ==> Removals(log, id) == 0
  {
  }

  /** A member without a record and without a trace of an earlier registration:
      reserve durably, then run config.sh once. */
  method RegisterNew(site: Site, state: PoolState, m: Member) returns (r: Result<PoolState>)
    requires site.Valid() && site.world.pool == Some(state) && IsMember(state, m) && m.id !in state.members
    requires MarkersOf(site.world, m.id) == NO_MARKERS && (ShortLists(site.log) ==> NoneOf(site.world, m.id))
    modifies site
    ensures site.Valid() && (r.Ok? ==> OthersKept(old(site.world), site.world, m.id))
    ensures Continues(old(site.log), site.log)
    ensures r.Ok? ==> r.value == state.(members := state.members[m.id := Record(Register, None)])
    ensures r.Ok? ==> site.world.pool == Some(r.value)
    ensures site.quiet ==> JoinedOffline(old(site.world), site.world)
    ensures site.quiet ==> Aside(old(site.world), site.world, m)
    ensures site.quiet || r.Ok? ==> Acts(site.log) == Acts(old(site.log)) + [Configured(m)]
  {
    hide Inv, OthersKept, FilesKeptBut;
    OneRecordChanged(site.world, state, state, m.id);
    var token :- site.Ask(Token);
    KeptAfter(old(site.world), old(site.world), site.world, m.id);
    ghost var w := site.world;
    r := Reserve(site, state, m);
    if r.Ok? {
      KeptTwice(old(site.world), w, site.world, m.id);
    }
  }

  /** With a token: the durable reservation, then config.sh. */
  method Reserve(site: Site, state: PoolState, m: Member) returns (r: Result<PoolState>)
    requires site.Valid() && site.world.pool == Some(state) && IsMember(state, m) && m.id !in state.members
    requires MarkersOf(site.world, m.id) == NO_MARKERS && (ShortLists(site.log) ==> NoneOf(site.world, m.id))
    modifies site
    ensures site.Valid() && (r.Ok? ==> OthersKept(old(site.world), site.world, m.id))
    ensures Continues(old(site.log), site.log)
    ensures r.Ok? ==> r.value == state.(members := state.members[m.id := Record(Register, None)])
    ensures r.Ok? ==> site.world.pool == Some(r.value)
    ensures site.quiet ==> JoinedOffline(old(site.world), site.world)
    ensures site.quiet ==> Aside(old(site.world), site.world, m)
    ensures site.quiet || r.Ok? ==> Acts(site.log) == Acts(old(site.log)) + [Configured(m)]
  {
    hide Inv, OthersKept, Acts, StateOk;
    assert Knows(state.binding.members, m.id, m.name);
    NotYetCalled(site.world, site.log, m.id);
    var state' :- SetRecord(site, state, m, Record(Register, None));
    ghost var w := site.world;
    var _ :- site.Configure(m);
    KeptAfter(old(site.world), w, site.world, m.id);
    return Ok(state');
  }

  /** The runner with this id is the member's: recorded, held locally, issued to it. */
  ghost predicate Confirmed(w: World, m: Member, id: nat) {
    && Held(w, m) && w.pool.value.members[m.id].runnerId == Some(id)
    && id in w.issued && w.issued[id] == Issue(m.name, Some(m.id))
    && (id in w.runners ==> id in Named(w, m.name))
  }

  lemma ConfirmedRecord(w: World, m: Member, id: nat)
    requires Confirmed(w, m, id)
    ensures RecordIn(w.pool, m.id).Some? && RecordIn(w.pool, m.id).value.runnerId == Some(id)
  {
  }

  lemma Confirm(w: World, log: Log, m: Member, id: nat)
    requires Inv(w, log) && Recorded(w, m.id) && IsMember(w.pool.value, m)
    requires w.pool.value.members[m.id].runnerId == Some(id)
    requires RegistrationOf(MarkersOf(w, m.id), m) == Present(id)
    ensures Confirmed(w, m, id)
  {
    RecordFacts(w, log, m);
  }

  lemma StillConfirmed(w: World, w': World, log: Log, m: Member, id: nat)
    requires Inv(w', log) && Confirmed(w, m, id) && InPool(w, m) && w'.pool == w.pool && w'.markers == w.markers
    ensures Confirmed(w', m, id)
  {
    Confirm(w', log, m, id);
  }

  /** The `register` branch: the reservation's runner is taken only if the local
      files and GitHub name the same id. */
  method Adopt(site: Site, state: PoolState, m: Member, local: Option<nat>, remote: Option<Found>)
      returns (r: Result<PoolState>)
    requires site.Valid() && site.world.pool == Some(state) && IsMember(state, m)
    requires InPhase(site.world, m.id, Register)
    requires local.Some? ==> RegistrationOf(MarkersOf(site.world, m.id), m) == Present(local.value)
    modifies site
    ensures site.Valid() && (r.Ok? ==> OthersKept(old(site.world), site.world, m.id))
    ensures Continues(old(site.log), site.log)
    ensures r.Ok? ==> site.world == old(site.world).(pool := Some(r.value))
    ensures site.quiet ==> (r.Ok? <==> local.Some? && remote.Some? && remote.value.id == local.value)
    ensures r.Ok? ==> local.Some? && remote.Some? && remote.value.id == local.value
                      && r.value == state.(members := state.members[m.id := Record(Registered, local)])
    ensures Acts(site.log) == Acts(old(site.log))
    ensures site.quiet ==> Aside(old(site.world), site.world, m)
  {
    if local.None? || remote.None? || remote.value.id != local.value {
      return Stop(Raised);
    }
    RecordFacts(site.world, site.log, m);
    hide Inv, OthersKept;
    r := SetRecord(site, state, m, Record(Registered, local));
  }

  /** GitHub lists exactly this runner under the member's name, online, and its
      unit runs. */
  ghost predicate Serving(w: World, m: Member, id: nat) {
    && Named(w, m.name) == {id} && w.runners[id].online
    && UnitOf(w, m.id).active == Active && UnitOf(w, m.id).main
    && RegistrationOf(MarkersOf(w, m.id), m) == Present(id)
  }

  /** One round of `wait_ready`: three reads. */
  method ReadyRound(site: Site, m: Member, id: nat) returns (r: Result<bool>)
    requires site.Valid() && Recorded(site.world, m.id) && site.world.pool.value.members[m.id].runnerId == Some(id)
    modifies site
    ensures site.Valid() && (r.Ok? ==> Drift(old(site.world), site.world))
    ensures OnlyRead(old(site.log), site.log) && Continues(old(site.log), site.log)
    ensures r == Ok(true) ==> JustReady(site.log, m.id)
    ensures r == Ok(true) ==> RegistrationOf(MarkersOf(site.world, m.id), m) == Present(id)
    ensures site.quiet ==> site.world == old(site.world) && (r == Ok(true) <==> Serving(site.world, m, id))
    ensures Acts(site.log) == Acts(old(site.log))
  {
    hide Inv, Drift, RowStill, Covered, OnlyRead, WorldOk, Named, RegistrationOf;
    var observed := site.Observe(m);
    OneRead(old(site.log), site.log);
    if observed.Stop? {
      return Stop(observed.halt);
    }
    var remote := observed.value;
    DriftStays(old(site.world), site.world);
    ghost var w, read := site.world, site.log;
    var local :- site.LocalRegistration(m);
    DriftTransitive(old(site.world), w, site.world);
    DriftStays(w, site.world);
    if remote.None? || remote.value.id != id || local != Some(id) {
      return Stop(Raised);
    }
    w := site.world;
    var u :- site.Service(m);
    DriftTransitive(old(site.world), w, site.world);
    DriftStays(w, site.world);
    if u.active != Active || !u.main || !remote.value.runner.online {
      return Ok(false);
    }
    CallKeeps(site.world, site.log, SawReady(m, id, remote.value.runner));
    site.log := Then(site.log, SawReady(m, id, remote.value.runner), site.world);
    OneRead(read, site.log);
    ReadTwice(old(site.log), read, site.log);
    return Ok(true);
  }

  lemma DriftStays(a: World, b: World)
    requires Drift(a, b)
    ensures b.pool == a.pool && b.markers == a.markers
  {
  }

  /** `wait_ready`: reads only, within a budget. */
  method WaitReady(site: Site, m: Member, id: nat, budget: nat) returns (r: Result<()>)
    requires site.Valid() && Recorded(site.world, m.id) && site.world.pool.value.members[m.id].runnerId == Some(id)
    modifies site
    ensures site.Valid() && (r.Ok? ==> Drift(old(site.world), site.world))
    ensures OnlyRead(old(site.log), site.log) && Continues(old(site.log), site.log)
    ensures r.Ok? ==> JustReady(site.log, m.id)
    ensures r.Ok? ==> RegistrationOf(MarkersOf(site.world, m.id), m) == Present(id)
    ensures site.quiet ==> site.world == old(site.world) && (r.Ok? <==> Serving(site.world, m, id))
    ensures Acts(site.log) == Acts(old(site.log))
  {
    hide Inv;
    var remaining := budget;
    while true
      invariant site.Valid() && Drift(old(site.world), site.world)
      invariant OnlyRead(old(site.log), site.log) && Continues(old(site.log), site.log)
      invariant Acts(site.log) == Acts(old(site.log))
      invariant site.quiet ==> site.world == old(site.world)
      decreases remaining
    {
      ghost var w, log := site.world, site.log;
      var round := ReadyRound(site, m, id);
      ReadTwice(old(site.log), log, site.log);
      if round.Stop? {
        return Stop(round.halt);
      }
      DriftTransitive(old(site.world), w, site.world);
      if round.value {
        return Ok(());
      }
      if remaining == 0 {
        return Stop(Raised);
      }
      remaining := remaining - 1;
    }
  }

  predicate Settable(phase: Phase) {
    phase in {Registered, Starting, Ready, Draining}
  }

  /** Write a phase of a confirmed member. */
  method SetPhase(site: Site, state: PoolState, m: Member, id: nat, phase: Phase) returns (r: Result<PoolState>)
    requires site.Valid() && site.world.pool == Some(state) && IsMember(state, m) && Confirmed(site.world, m, id)
    requires phase != Register && PhaseStep(RecordIn(site.world.pool, m.id), Some(Record(phase, Some(id))))
    requires phase == Ready && !InReady(site.world.pool, m.id) ==> JustReady(site.log, m.id)
    requires phase == Remove && !InRemove(site.world.pool, m.id) && Clean(site.log, m.name) ==> Drained(site.world, id)
    modifies site
    ensures site.Valid() && (r.Ok? ==> OthersKept(old(site.world), site.world, m.id))
    ensures site.world == old(site.world).(pool := site.world.pool)
    ensures Continues(old(site.log), site.log)
    ensures r.Ok? ==> r.value == state.(members := state.members[m.id := Record(phase, Some(id))])
    ensures r.Ok? ==> site.world.pool == Some(r.value) && Confirmed(site.world, m, id)
    ensures r.Ok? ==> site.log == Then(old(site.log), Wrote(r.value), old(site.world))
    ensures site.quiet ==> r.Ok?
    ensures Acts(site.log) == Acts(old(site.log))
    ensures site.quiet ==> Aside(old(site.world), site.world, m)
  {
    hide Inv, OthersKept;
    r := SetRecord(site, state, m, Record(phase, Some(id)));
  }

  /** GitHub lists this runner alone under the member's name, and this is its row. */
  ghost predicate Alone(w: World, m: Member, id: nat, row: Found) {
    Named(w, m.name) == {id} && row == Found(id, w.runners[id])
  }

  /** Observe the member once more and require a row. */
  method LookAgain(site: Site, m: Member, id: nat) returns (r: Result<Found>)
    requires site.Valid() && Recorded(site.world, m.id) && InPool(site.world, m)
    requires site.world.pool.value.members[m.id].runnerId == Some(id)
    modifies site
    ensures site.Valid() && Drift(old(site.world), site.world) && ReadList(old(site.log), site.log)
    ensures r.Ok? ==> RowStill(site.world, r.value) && id in site.world.issued
    ensures r.Ok? && Clean(site.log, m.name) && id in site.world.runners ==> r.value.id == id
    ensures site.quiet ==> site.world == old(site.world)
    ensures site.quiet && Named(site.world, m.name) == {id} ==> r.Ok? && Alone(site.world, m, id, r.value)
    ensures Acts(site.log) == Acts(old(site.log))
  {
    RecordFacts(site.world, site.log, m);
    hide Inv, RecordMatches, RecordOk, RowStill, TheNamed;
    var again :- site.Observe(m);
    RecordFacts(site.world, site.log, m);
    return if again.None? then Stop(Raised) else Ok(again.value);
  }

  lemma RelabelledNames(w: World, r: nat, tags: set<string>, name: string)
    requires r in w.runners
    ensures Named(WithLabels(w, r, tags), name) == Named(w, name)
  {
  }

  /** Replace the custom labels unless the row read before has these already, then look
      again before anything is started or stopped. */
  method Relabel(site: Site, state: PoolState, m: Member, id: nat, remote: Found, tags: set<string>)
      returns (r: Result<Found>)
    requires site.Valid() && site.world.pool == Some(state) && IsMember(state, m) && Confirmed(site.world, m, id)
    requires SeenInGroup(site.log, id) && state.members[m.id].phase != Remove
    modifies site
    ensures site.Valid() && Continues(old(site.log), site.log)
    ensures r.Ok? ==> site.world.pool == old(site.world).pool && site.world.markers == old(site.world).markers
    ensures r.Ok? ==> RowStill(site.world, r.value) && id in site.world.issued
    ensures r.Ok? && Clean(site.log, m.name) && id in site.world.runners ==> r.value.id == id
    ensures site.quiet && CustomNames(remote.runner.labels) == tags ==>
              site.world == old(site.world) && OnlyRead(old(site.log), site.log)
    ensures site.quiet && old(Alone(site.world, m, id, remote)) ==>
              && r.Ok? && Alone(site.world, m, id, r.value) && CustomNames(r.value.runner.labels) == tags
              && site.world == old(site.world).(runners := site.world.runners)
              && r.value.runner == remote.runner.(labels := r.value.runner.labels)
    ensures site.quiet ==> Aside(old(site.world), site.world, m)
    ensures site.quiet || r.Ok? ==> Acts(site.log) == Acts(old(site.log)) + LabelActs(m, id, remote.runner, tags)
  {
    hide Inv, RowStill, IsMember, Drift, Continues, OnlyRead;
    SameHistory(site.log);
    if CustomNames(remote.runner.labels) != tags {
      var _ :- site.PutLabels(m, id, tags);
      if site.quiet {
        RelabelledNames(old(site.world), id, tags, m.name);
      }
    }
    ghost var w, log := site.world, site.log;
    r := LookAgain(site, m, id);
    OneRead(log, site.log);
    ContinuesTwice(old(site.log), log, site.log);
    DriftStays(w, site.world);
  }

  /** The label step of a wanted member. */
  method Label(site: Site, state: PoolState, m: Member, id: nat, remote: Found) returns (r: Result<()>)
    requires site.Valid() && site.world.pool == Some(state) && IsMember(state, m) && Confirmed(site.world, m, id)
    requires SeenInGroup(site.log, id) && state.members[m.id].phase != Remove
    modifies site
    ensures site.Valid() && Continues(old(site.log), site.log)
    ensures r.Ok? ==> site.world.pool == old(site.world).pool && site.world.markers == old(site.world).markers
    ensures r.Ok? ==> Confirmed(site.world, m, id) && (Clean(site.log, m.name) ==> RunnerTagged(site.world, m))
    ensures site.quiet && old(Tagged(site.world, state, m, id, remote)) ==>
              r.Ok? && site.world == old(site.world) && OnlyRead(old(site.log), site.log)
    ensures site.quiet && old(Alone(site.world, m, id, remote)) ==>
              && r.Ok? && site.world == old(site.world).(runners := site.world.runners)
              && Named(site.world, m.name) == {id} && site.world.runners[id].online == remote.runner.online
    ensures site.quiet ==> Aside(old(site.world), site.world, m)
    ensures site.quiet || r.Ok? ==>
              Acts(site.log) == Acts(old(site.log)) + LabelActs(m, id, remote.runner, {state.binding.tag, m.tag})
  {
    var tags := {state.binding.tag, m.tag};
    assert IsMember(site.world.pool.value, m);
    hide Inv, Continues;
    var again :- Relabel(site, state, m, id, remote, tags);
    if !(tags <= TagNames(again.runner.labels)) {
      CustomAreNames(again.runner.labels);
      return Stop(Raised);
    }
    Confirm(site.world, site.log, m, id);
    return Ok(());
  }

  lemma CustomAreNames(labels: set<PoolModel.Label>)
    ensures CustomNames(labels) <= TagNames(labels)
  {
  }

  /** What a second pass over an unchanged ready member finds. */
  ghost predicate Tagged(w: World, state: PoolState, m: Member, id: nat, remote: Found) {
    Alone(w, m, id, remote) && CustomNames(remote.runner.labels) == {state.binding.tag, m.tag}
  }

  lemma TaggedWhateverThePhase(w: World, w': World, m: Member)
    requires Recorded(w, m.id) && w' == w.(pool := w'.pool) && Recorded(w', m.id)
    requires w'.pool.value.binding == w.pool.value.binding
    requires w'.pool.value.members[m.id].runnerId == w.pool.value.members[m.id].runnerId
    ensures RunnerTagged(w, m) ==> RunnerTagged(w', m)
  {
  }

  lemma StartAside(w: World, m: Member)
    ensures Aside(w, w, m) && Aside(w, Launched(w, m.id), m)
  {
  }

  /** Record `starting`, then start the unit. */
  method Launch(site: Site, state: PoolState, m: Member, id: nat) returns (r: Result<PoolState>)
    requires site.Valid() && site.world.pool == Some(state) && IsMember(state, m) && Confirmed(site.world, m, id)
    requires state.members[m.id].phase in {Registered, Draining}
              && (Clean(site.log, m.name) ==> RunnerTagged(site.world, m))
    modifies site
    ensures site.Valid() && (r.Ok? ==> OthersKept(old(site.world), site.world, m.id))
    ensures Continues(old(site.log), site.log)
    ensures r.Ok? ==> site.world.pool == Some(r.value) && Confirmed(site.world, m, id)
    ensures r.Ok? ==> InPhase(site.world, m.id, Starting) && (Clean(site.log, m.name) ==> RunnerTagged(site.world, m))
    ensures site.quiet ==>
              && r.Ok? && site.world.runners == old(site.world).runners && site.world.markers == old(site.world).markers
              && var u := UnitOf(old(site.world), m.id);
              UnitOf(site.world, m.id) == if Terminal(u) then UpAgain(u) else u
    ensures site.quiet ==> Aside(old(site.world), site.world, m)
    ensures site.quiet || r.Ok? ==> Acts(site.log) == Acts(old(site.log)) + [Event.Started(m)]
  {
    hide Inv, OthersKept, RunnerTagged, Confirmed, IsMember, RunnersDrift, Continues, Acts, Aside;
    ConfirmedRecord(site.world, m, id);
    var state' :- SetPhase(site, state, m, id, Starting);
    CleanEarlier(old(site.log), site.log, m.name);
    TaggedWhateverThePhase(old(site.world), site.world, m);
    KeptMember(old(site.world), site.world, m, m.id);
    ghost var w, log := site.world, site.log;
    var start := site.Start(m);
    ContinuesTwice(old(site.log), log, site.log);
    if site.quiet {
      StartAside(w, m);
      AsideTwice(old(site.world), w, site.world, m);
    }
    CleanEarlier(log, site.log, m.name);
    if start.Stop? {
      return Stop(start.halt);
    }
    TaggedThroughDrift(w, site.world, m);
    StillConfirmed(w, site.world, site.log, m, id);
    KeptAfter(old(site.world), w, site.world, m.id);
    return Ok(state');
  }

  /** Await readiness, then record `ready`. */
  method Settle(site: Site, state: PoolState, m: Member, id: nat) returns (r: Result<PoolState>)
    requires site.Valid() && site.world.pool == Some(state) && IsMember(state, m) && Confirmed(site.world, m, id)
    requires state.members[m.id].phase in {Starting, Ready} && (Clean(site.log, m.name) ==> RunnerTagged(site.world, m))
    modifies site
    ensures site.Valid() && (r.Ok? ==> OthersKept(old(site.world), site.world, m.id))
    ensures Continues(old(site.log), site.log)
    ensures r.Ok? ==> site.world.pool == Some(r.value) && Confirmed(site.world, m, id)
    ensures r.Ok? && Clean(site.log, m.name) ==> RunnerTagged(site.world, m)
    ensures r.Ok? ==> r.value == state.(members := state.members[m.id := Record(Ready, Some(id))])
    ensures site.quiet ==> (r.Ok? <==> old(Serving(site.world, m, id)))
    ensures site.quiet && r.Ok? ==>
              site.world == old(site.world).(pool := Some(r.value)) && OnlyLooked(old(site.log), site.log, r.value)
    ensures Acts(site.log) == Acts(old(site.log))
    ensures site.quiet ==> Aside(old(site.world), site.world, m)
  {
    hide Inv, OthersKept, RunnerTagged, Drift, RunnersDrift, Continues, OnlyRead, OnlyLooked, Serving;
    var _ :- WaitReady(site, m, id, PATIENCE);
    DriftIsStoresDrift(old(site.world), site.world);
    TaggedThroughDrift(old(site.world), site.world, m);
    Confirm(site.world, site.log, m, id);
    KeptThroughDrift(old(site.world), site.world, m.id);
    ghost var w, seen := site.world, site.log;
    r := SetPhase(site, state, m, id, Ready);
    ContinuesTwice(old(site.log), seen, site.log);
    CleanEarlier(old(site.log), site.log, m.name);
    if r.Ok? {
      ReadingIsLooking(old(site.log), seen, r.value);
      OneLook(seen, site.log, r.value);
      LookedTwice(old(site.log), seen, site.log, r.value);
      KeptTwice(old(site.world), w, site.world, m.id);
      TaggedWhateverThePhase(w, site.world, m);
    }
  }

  lemma CleanEarlier(a: Log, b: Log, name: string)
    requires Continues(a, b)
    ensures Clean(b, name) ==> Clean(a, name)
  {
  }

  lemma LookedAfterReading(a: Log, b: Log, c: Log, state: PoolState)
    ensures OnlyRead(a, b) && OnlyLooked(b, c, state) ==> OnlyLooked(a, c, state)
  {
    if OnlyRead(a, b) && OnlyLooked(b, c, state) {
      ReadingIsLooking(a, b, state);
      LookedTwice(a, b, c, state);
    }
  }

  lemma TaggedThroughDrift(w: World, w': World, m: Member)
    requires w'.pool == w.pool && RunnersDrift(w, w')
    ensures RunnerTagged(w, m) ==> RunnerTagged(w', m)
  {
  }

  /** On a quiet site a wanted member becomes ready if its runner is online and its unit is
      up, or is down and is started by this pass. */
  ghost predicate Rises(w: World, m: Member, id: nat, phase: Phase) {
    && id in w.runners && w.runners[id].online
    && var u := UnitOf(w, m.id);
    (u.active == Active && u.main) || (phase in {Registered, Draining} && Terminal(u))
  }

  /** `starting` and the start itself, for a member that was registered or drained only. */
  method LaunchIfDown(site: Site, state: PoolState, m: Member, id: nat) returns (r: Result<PoolState>)
    requires site.Valid() && site.world.pool == Some(state) && IsMember(state, m) && Confirmed(site.world, m, id)
    requires Settable(state.members[m.id].phase) && (Clean(site.log, m.name) ==> RunnerTagged(site.world, m))
    modifies site
    ensures site.Valid() && (r.Ok? ==> OthersKept(old(site.world), site.world, m.id))
    ensures Continues(old(site.log), site.log)
    ensures r.Ok? ==> site.world.pool == Some(r.value) && Confirmed(site.world, m, id)
    ensures r.Ok? && Clean(site.log, m.name) ==> RunnerTagged(site.world, m)
    ensures r.Ok? ==> Recorded(site.world, m.id) && r.value.members[m.id].phase in {Starting, Ready}
    ensures site.quiet ==> r.Ok? && Started(old(site.world), site.world, m.id, state.members[m.id].phase)
    ensures state.members[m.id].phase == Ready ==>
              r == Ok(state) && site.world == old(site.world) && site.log == old(site.log)
    ensures site.quiet ==> Aside(old(site.world), site.world, m)
    ensures site.quiet || r.Ok? ==> Acts(site.log) == Acts(old(site.log)) + LaunchActs(m, state.members[m.id].phase)
  {
    OneRecordChanged(site.world, state, state, m.id);
    assert site.world.(pool := Some(state)) == site.world;
    if state.members[m.id].phase !in {Registered, Draining} {
      assert state == state.(members := state.members[m.id := state.members[m.id]]);
      return Ok(state);
    }
    hide Inv, OthersKept, RunnerTagged, IsMember, Confirmed, Continues;
    r := Launch(site, state, m, id);
  }

  /** What the start step leaves of the unit on a quiet site. */
  ghost predicate Started(w: World, w': World, id: string, phase: Phase) {
    && w'.runners == w.runners && w'.markers == w.markers
    && var u := UnitOf(w, id);
    UnitOf(w', id) == if phase in {Registered, Draining} && Terminal(u) then UpAgain(u) else u
  }

  /** Start the unit if it should be down, then await readiness. */
  method Rise(site: Site, state: PoolState, m: Member, id: nat) returns (r: Result<PoolState>)
    requires site.Valid() && site.world.pool == Some(state) && IsMember(state, m) && Confirmed(site.world, m, id)
    requires Settable(state.members[m.id].phase) && (Clean(site.log, m.name) ==> RunnerTagged(site.world, m))
    modifies site
    ensures site.Valid() && (r.Ok? ==> OthersKept(old(site.world), site.world, m.id))
    ensures Continues(old(site.log), site.log)
    ensures r.Ok? ==> site.world.pool == Some(r.value) && Confirmed(site.world, m, id)
    ensures r.Ok? ==> InPhase(site.world, m.id, Ready) && (Clean(site.log, m.name) ==> RunnerTagged(site.world, m))
    ensures site.quiet && old(Named(site.world, m.name)) == {id} ==>
              (r.Ok? <==> old(Rises(site.world, m, id, state.members[m.id].phase)))
    ensures site.quiet && r.Ok? && state.members[m.id].phase == Ready ==>
              && r.value == state.(members := state.members[m.id := Record(Ready, Some(id))])
              && site.world == old(site.world).(pool := Some(r.value)) && OnlyLooked(old(site.log), site.log, r.value)
    ensures site.quiet ==> Aside(old(site.world), site.world, m)
    ensures site.quiet || r.Ok? ==> Acts(site.log) == Acts(old(site.log)) + LaunchActs(m, state.members[m.id].phase)
  {
    hide Inv, OthersKept, RunnerTagged, IsMember, Serving, Rises, Started, Confirmed, Continues, OnlyLooked;
    OneRecordChanged(site.world, state, state, m.id);
    assert site.world.(pool := Some(state)) == site.world;
    ConfirmedRecord(site.world, m, id);
    var state' :- LaunchIfDown(site, state, m, id);
    KeptMember(old(site.world), site.world, m, m.id);
    ghost var w, log := site.world, site.log;
    if site.quiet {
      ServesAfterStart(old(site.world), site.world, m, id, state.members[m.id].phase);
    }
    r := Settle(site, state', m, id);
    ContinuesTwice(old(site.log), log, site.log);
    if r.Ok? {
      KeptTwice(old(site.world), w, site.world, m.id);
    }
  }

  lemma ServesAfterStart(w: World, w': World, m: Member, id: nat, phase: Phase)
    requires Confirmed(w, m, id) && Started(w, w', m.id, phase)
    ensures Named(w, m.name) == {id} ==> (Serving(w', m, id) <==> Rises(w, m, id, phase))
  {
    assert Named(w', m.name) == Named(w, m.name);
    assert MarkersOf(w', m.id) == MarkersOf(w, m.id);
  }

  /** A member within capacity. */
  method BringUp(site: Site, state: PoolState, m: Member, id: nat, remote: Found) returns (r: Result<PoolState>)
    requires site.Valid() && site.world.pool == Some(state) && IsMember(state, m) && Confirmed(site.world, m, id)
    requires Settable(state.members[m.id].phase) && SeenInGroup(site.log, id)
    modifies site
    ensures site.Valid() && (r.Ok? ==> OthersKept(old(site.world), site.world, m.id))
    ensures Continues(old(site.log), site.log)
    ensures r.Ok? ==> site.world.pool == Some(r.value) && Confirmed(site.world, m, id)
    ensures r.Ok? ==> InPhase(site.world, m.id, Ready) && (Clean(site.log, m.name) ==> RunnerTagged(site.world, m))
    ensures site.quiet && state.members[m.id].phase == Ready
              && old(Tagged(site.world, state, m, id, remote)) && old(Serving(site.world, m, id)) ==>
              r.Ok? && r.value == state.(members := state.members[m.id := Record(Ready, Some(id))])
              && site.world == old(site.world).(pool := Some(r.value))
              && OnlyLooked(old(site.log), site.log, r.value)
    ensures site.quiet && old(Alone(site.world, m, id, remote)) ==>
              (r.Ok? <==> old(Rises(site.world, m, id, state.members[m.id].phase)))
    ensures site.quiet ==> Aside(old(site.world), site.world, m)
    ensures r.Ok? ==>
              Acts(site.log) == Acts(old(site.log)) + LabelActs(m, id, remote.runner, {state.binding.tag, m.tag})
                                + LaunchActs(m, state.members[m.id].phase)
    ensures site.quiet ==> Acts(old(site.log)) <= Acts(site.log)
  {
    hide Inv, OthersKept, RunnerTagged, IsMember, Confirmed, Continues, OnlyLooked, OnlyRead;
    OneRecordChanged(site.world, state, state, m.id);
    var _ :- Label(site, state, m, id, remote);
    KeptAfter(old(site.world), old(site.world), site.world, m.id);
    ghost var w, labelled := site.world, site.log;
    r := Rise(site, state, m, id);
    ContinuesTwice(old(site.log), labelled, site.log);
    if r.Ok? {
      KeptTwice(old(site.world), w, site.world, m.id);
      LookedAfterReading(old(site.log), labelled, site.log, r.value);
    }
  }

  /** Take the scheduling labels away, then look again before anything is stopped.
      The answer says whether GitHub shows the runner busy. */
  method Unlabel(site: Site, state: PoolState, m: Member, id: nat, remote: Found) returns (r: Result<bool>)
    requires site.Valid() && site.world.pool == Some(state) && IsMember(state, m) && Confirmed(site.world, m, id)
    requires SeenInGroup(site.log, id) && state.members[m.id].phase != Remove
    modifies site
    ensures site.Valid() && Continues(old(site.log), site.log)
    ensures r.Ok? ==> site.world.pool == old(site.world).pool && site.world.markers == old(site.world).markers
    ensures r.Ok? ==> Confirmed(site.world, m, id)
    ensures r.Ok? && Clean(site.log, m.name) ==>
              RunnerUnlabelled(site.world, m.id) && (!r.value ==> RunnerDrained(site.world, m.id))
    ensures site.quiet && old(Alone(site.world, m, id, remote)) ==>
              && r == Ok(remote.runner.busy) && site.world == old(site.world).(runners := site.world.runners)
              && Named(site.world, m.name) == {id} && site.world.runners[id].busy == remote.runner.busy
    ensures site.quiet ==> Aside(old(site.world), site.world, m)
    ensures site.quiet || r.Ok? ==> Acts(site.log) == Acts(old(site.log)) + LabelActs(m, id, remote.runner, {})
  {
    assert IsMember(site.world.pool.value, m);
    hide Inv, Continues;
    var again :- Relabel(site, state, m, id, remote, {});
    NoCustomNames(again.runner.labels);
    if !Unlabelled(again.runner.labels) {
      return Stop(Raised);
    }
    Confirm(site.world, site.log, m, id);
    return Ok(again.runner.busy);
  }

  lemma NoCustomNames(labels: set<PoolModel.Label>)
    ensures CustomNames(labels) == {} <==> Unlabelled(labels)
  {
    assert forall tag <- labels :: tag.custom ==> tag.name in CustomNames(labels);
  }

  /** A drained, dead member: reserve the removal, run config.sh remove once, look,
      and only then delete what is left. */
  method RemoveDead(site: Site, state: PoolState, m: Member, id: nat) returns (r: Result<PoolState>)
    requires site.Valid() && site.world.pool == Some(state) && IsMember(state, m) && Confirmed(site.world, m, id)
    requires Dead(UnitOf(site.world, m.id)) && (Clean(site.log, m.name) ==> RunnerDrained(site.world, m.id))
    requires state.members[m.id].phase == Draining
    modifies site
    ensures site.Valid() && (r.Ok? ==> OthersKept(old(site.world), site.world, m.id))
    ensures Continues(old(site.log), site.log)
    ensures r.Ok? ==> site.world.pool == Some(r.value) && m.id !in r.value.members
    ensures r.Ok? ==> !MetadataPresent(MarkersOf(site.world, m.id))
    ensures site.quiet ==> (r.Ok? <==> Named(old(site.world), m.name) <= {id})
    ensures site.quiet ==> Aside(old(site.world), site.world, m)
    ensures r.Ok? ==> Acts(site.log) == Acts(old(site.log)) + [Unconfigured(m), Event.Retired(m)]
  {
    hide Inv, OthersKept, RunnerUnlabelled, RunnerDrained, Confirmed, Continues, Aside, Acts, IsMember, Clean;
    NotYetCalled(site.world, site.log, m.id);
    ConfirmedRecord(site.world, m, id);
    ghost var clean := Clean(site.log, m.name);
    if clean {
      DrainedRecord(site.world, m, id);
    }
    var state' :- SetPhase(site, state, m, id, Remove);
    KeptMember(old(site.world), site.world, m, m.id);
    SameNames(old(site.world), site.world, m.name);
    ghost var w, log := site.world, site.log;
    r := Dismiss(site, state', m, id);
    ContinuesTwice(old(site.log), log, site.log);
    AsideOnQuiet(site.quiet, old(site.world), w, site.world, m);
    if r.Ok? {
      KeptTwice(old(site.world), w, site.world, m.id);
    }
  }

  lemma DrainedRecord(w: World, m: Member, id: nat)
    requires Confirmed(w, m, id) && RunnerDrained(w, m.id)
    ensures Drained(w, id)
  {
  }

  lemma SameNames(w: World, w': World, name: string)
    requires w'.runners == w.runners
    ensures Named(w', name) == Named(w, name)
  {
  }

  lemma NamesLeft(w: World, id: string, r: nat, name: string)
    ensures Named(Unregistered(w, id, r), name) == Named(w, name) - {r}
    ensures Named(w, name) - {r} == {} <==> Named(w, name) <= {r}
  {
  }

  /** config.sh remove takes the member's own runner off the list. */
  lemma UnregisteredFacts(w: World, m: Member, id: nat)
    requires Confirmed(w, m, id)
    ensures MarkersOf(w, m.id).runner.Some? && MarkersOf(w, m.id).runner.value.agentId == id
    ensures Aside(w, Unregistered(w, m.id, id), m)
    ensures RegistrationOf(MarkersOf(Unregistered(w, m.id, id), m.id), m) == Absent
  {
  }

  /** A reserved removal: config.sh remove, then the look and the deletion. */
  method Dismiss(site: Site, state: PoolState, m: Member, id: nat) returns (r: Result<PoolState>)
    requires site.Valid() && site.world.pool == Some(state) && IsMember(state, m) && Confirmed(site.world, m, id)
    requires Dead(UnitOf(site.world, m.id))
    requires state.members[m.id] == Record(Remove, Some(id)) && Removals(site.log, m.id) == 0
    modifies site
    ensures site.Valid() && (r.Ok? ==> OthersKept(old(site.world), site.world, m.id))
    ensures Continues(old(site.log), site.log)
    ensures r.Ok? ==> site.world.pool == Some(r.value) && m.id !in r.value.members
    ensures r.Ok? ==> !MetadataPresent(MarkersOf(site.world, m.id))
    ensures site.quiet ==> (r.Ok? <==> Named(old(site.world), m.name) <= {id})
    ensures site.quiet ==> Aside(old(site.world), site.world, m)
    ensures r.Ok? ==> Acts(site.log) == Acts(old(site.log)) + [Unconfigured(m), Event.Retired(m)]
  {
    hide Inv, OthersKept, RunnerUnlabelled, RunnerDrained, IsMember, Confirmed, Continues, Aside, Acts, Unregistered;
    NamesLeft(site.world, m.id, id, m.name);
    OneRecordChanged(site.world, state, state, m.id);
    UnregisteredFacts(site.world, m, id);
    ConfirmedRecord(site.world, m, id);
    ghost var acts := Acts(site.log);
    var _ :- site.Unconfigure(m);
    KeptAfter(old(site.world), old(site.world), site.world, m.id);
    ghost var w, log := site.world, site.log;
    r := DeleteRemoved(site, state, m, id);
    ContinuesTwice(old(site.log), log, site.log);
    AsideOnQuiet(site.quiet, old(site.world), w, site.world, m);
    Regrouped(acts, [Unconfigured(m)], [Event.Retired(m)]);
    if r.Ok? {
      KeptTwice(old(site.world), w, site.world, m.id);
    }
  }

  /** After config.sh remove returned. */
  method DeleteRemoved(site: Site, state: PoolState, m: Member, id: nat) returns (r: Result<PoolState>)
    requires site.Valid() && site.world.pool == Some(state) && IsMember(state, m)
    requires Dead(UnitOf(site.world, m.id)) && state.members.Keys >= {m.id}
    requires state.members[m.id] == Record(Remove, Some(id))
    modifies site
    ensures site.Valid() && (r.Ok? ==> OthersKept(old(site.world), site.world, m.id))
    ensures Continues(old(site.log), site.log)
    ensures r.Ok? ==> site.world.pool == Some(r.value) && m.id !in r.value.members
    ensures r.Ok? ==> !MetadataPresent(MarkersOf(site.world, m.id))
    ensures site.quiet ==>
              (r.Ok?
               <==> RegistrationOf(MarkersOf(old(site.world), m.id), m) == Absent
                    && old(Named(site.world, m.name)) == {})
    ensures site.quiet ==> Aside(old(site.world), site.world, m)
    ensures r.Ok? ==> Acts(site.log) == Acts(old(site.log)) + [Event.Retired(m)]
  {
    hide Inv, OthersKept, TheNamed, IsMember, Covered;
    var look := Look(site, m);
    ReadContinues(old(site.log), site.log);
    if look.Stop? {
      return Stop(look.halt);
    }
    var seen := look.value;
    if seen.0.Some? || seen.1.Some? {
      return Stop(Raised);
    }
    if ShortLists(site.log) {
      UnlistedMeansNone(old(site.world), site.world, site.log, m);
      NoneMeansGone(site.world, site.log, m.id);
    }
    KeptThroughDrift(old(site.world), site.world, m.id);
    r := RetireAndDrop(site, state, m, old(site.world));
  }

  /** The last two steps of every removal. */
  method RetireAndDrop(site: Site, state: PoolState, m: Member, ghost was: World) returns (r: Result<PoolState>)
    requires site.Valid() && site.world.pool == Some(state) && InPhase(site.world, m.id, Remove)
    requires OthersKept(was, site.world, m.id) && Dead(UnitOf(site.world, m.id))
    requires !MetadataPresent(MarkersOf(site.world, m.id)) && (ShortLists(site.log) ==> RunnerGone(site.world, m.id))
    modifies site
    ensures site.Valid() && (r.Ok? ==> OthersKept(was, site.world, m.id))
    ensures Continues(old(site.log), site.log)
    ensures r.Ok? ==> site.world.pool == Some(r.value) && m.id !in r.value.members
    ensures r.Ok? ==> !MetadataPresent(MarkersOf(site.world, m.id))
    ensures site.quiet ==> r.Ok?
    ensures site.quiet ==> Aside(old(site.world), site.world, m)
    ensures site.quiet || r.Ok? ==> Acts(site.log) == Acts(old(site.log)) + [Event.Retired(m)]
  {
    hide Inv, OthersKept, RunnerGone, RunnersDrift;
    ghost var w := site.world;
    var _ :- site.Retire(m);
    KeptAfter(was, w, site.world, m.id);
    w := site.world;
    r := DropRecord(site, state, m);
    if r.Ok? {
      KeptTwice(was, w, site.world, m.id);
    }
  }

  /** A member beyond capacity. It answers whether the member was retired. */
  method DrainMember(site: Site, state: PoolState, m: Member, id: nat, remote: Found)
      returns (r: Result<(PoolState, bool)>)
    requires site.Valid() && site.world.pool == Some(state) && IsMember(state, m) && Confirmed(site.world, m, id)
    requires Settable(state.members[m.id].phase) && SeenInGroup(site.log, id)
    modifies site
    ensures site.Valid() && (r.Ok? ==> OthersKept(old(site.world), site.world, m.id))
    ensures r.Survived() ==> NothingLeftFrozen(old(site.log), site.log)
    ensures Trusts(old(site.log), site.log)
    ensures r.Ok? ==> site.world.pool == Some(r.value.0)
    ensures r.Ok? && r.value.1 ==> m.id !in r.value.0.members && !MetadataPresent(MarkersOf(site.world, m.id))
    ensures r.Ok? && !r.value.1 ==> InPhase(site.world, m.id, Draining) && Confirmed(site.world, m, id)
    ensures r.Ok? && !r.value.1 && Clean(site.log, m.name) ==> RunnerUnlabelled(site.world, m.id)
    ensures site.quiet && old(Alone(site.world, m, id, remote)) ==>
              && (r.Ok? <==> remote.runner.busy || UnitOf(old(site.world), m.id).active != Changing)
              && (r.Ok? ==> (r.value.1 <==> !remote.runner.busy && RemovalStopped(UnitOf(old(site.world), m.id))))
    ensures site.quiet ==> Aside(old(site.world), site.world, m)
    ensures site.quiet && r.Ok? && old(Alone(site.world, m, id, remote)) ==>
              && Acts(site.log) == Acts(old(site.log)) + LabelActs(m, id, remote.runner, {})
                                   + (if remote.runner.busy then [] else old(LowerActs(site.world, m)))
              && (!r.value.1 ==> UnitOf(site.world, m.id) == old(UnitAfter(site.world, m, remote.runner.busy)))
  {
    hide Inv, OthersKept, Aside, Alone, LowerActs, AfterStop, LabelActs, Confirmed, IsMember, Acts, RunnerUnlabelled;
    hide RunnerDrained;
    AloneFacts(site.world, m, id, remote);
    ConfirmedRecord(site.world, m, id);
    var state' :- SetPhase(site, state, m, id, Draining);
    KeptMember(old(site.world), site.world, m, m.id);
    SameAlone(old(site.world), site.world, m, id, remote);
    ghost var w := site.world;
    var unlabelled := Unlabel(site, state', m, id, remote);
    AsideOnQuiet(site.quiet, old(site.world), w, site.world, m);
    if unlabelled.Stop? {
      return Stop(unlabelled.halt);
    }
    var busy := unlabelled.value;
    KeptAfter(old(site.world), w, site.world, m.id);
    KeptMember(old(site.world), site.world, m, m.id);
    if busy {
      return Ok((state', false));
    }
    w := site.world;
    if site.quiet && old(Alone(site.world, m, id, remote)) {
      SameStop(old(site.world), w, m, id);
      Regrouped(old(Acts(site.log)), LabelActs(m, id, remote.runner, {}), old(LowerActs(site.world, m)));
    }
    r := RemoveIfIdle(site, state', m, id);
    AsideOnQuiet(site.quiet, old(site.world), w, site.world, m);
    if r.Ok? {
      KeptTwice(old(site.world), w, site.world, m.id);
    }
  }

  lemma AsideOnQuiet(quiet: bool, a: World, b: World, c: World, m: Member)
    ensures quiet && Aside(a, b, m) && Aside(b, c, m) ==> Aside(a, c, m)
  {
  }

  lemma AloneFacts(w: World, m: Member, id: nat, row: Found)
    ensures Alone(w, m, id, row) ==>
              Named(w, m.name) == {id} && id in w.runners && row.id == id && row.runner == w.runners[id]
  {
    if Alone(w, m, id, row) {
      assert id in Named(w, m.name);
    }
  }

  lemma SameAlone(w: World, w': World, m: Member, id: nat, row: Found)
    requires w'.runners == w.runners
    ensures Alone(w', m, id, row) == Alone(w, m, id, row)
  {
    SameNames(w, w', m.name);
  }

  /** Stopping looks at the unit, the name and the job only. */
  lemma SameStop(w: World, w': World, m: Member, id: nat)
    requires UnitOf(w', m.id) == UnitOf(w, m.id) && Named(w, m.name) == Named(w', m.name) == {id}
    requires id in w.runners && id in w'.runners && w'.runners[id].busy == w.runners[id].busy
    ensures LowerActs(w', m) == LowerActs(w, m) && FreezeAnswers(w', m) == FreezeAnswers(w, m)
    ensures UnitOf(AfterStop(w', m), m.id) == UnitOf(AfterStop(w, m), m.id)
  {
    assert forall x: nat :: {x} == {id} <==> x == id;
    hide IDLE_PROCESSES;
  }

  lemma Regrouped<T>(a: seq<T>, b: seq<T>, c: seq<T>)
    ensures a + b + c == a + (b + c) && a + [] == a && a <= a + b && a <= a + b + c
  {
  }

  /** On a quiet site the member is judged, one way or the other, unless its unit is just
      changing or GitHub's list is ambiguous where it matters. */
  ghost predicate Judged(w: World, m: Member, id: nat) {
    var u := UnitOf(w, m.id);
    if Terminal(u) then RemovalStopped(u) ==> Named(w, m.name) <= {id}
    else u.active == Active && FreezeAnswers(w, m)
  }

  method RemoveIfIdle(site: Site, state: PoolState, m: Member, id: nat) returns (r: Result<(PoolState, bool)>)
    requires site.Valid() && site.world.pool == Some(state) && IsMember(state, m) && Confirmed(site.world, m, id)
    requires state.members[m.id].phase == Draining && (Clean(site.log, m.name) ==> RunnerDrained(site.world, m.id))
    modifies site
    ensures site.Valid() && (r.Ok? ==> OthersKept(old(site.world), site.world, m.id))
    ensures r.Survived() ==> NothingLeftFrozen(old(site.log), site.log)
    ensures Trusts(old(site.log), site.log)
    ensures r.Ok? ==> site.world.pool == Some(r.value.0)
    ensures r.Ok? && r.value.1 ==> m.id !in r.value.0.members && !MetadataPresent(MarkersOf(site.world, m.id))
    ensures r.Ok? && !r.value.1 ==> InPhase(site.world, m.id, Draining) && Confirmed(site.world, m, id)
    ensures r.Ok? && !r.value.1 && Clean(site.log, m.name) ==> RunnerUnlabelled(site.world, m.id)
    ensures site.quiet ==>
              && (r.Ok? <==> old(Judged(site.world, m, id)))
              && (r.Ok? ==> (r.value.1 <==> RemovalStopped(UnitOf(old(site.world), m.id))))
    ensures site.quiet ==> Aside(old(site.world), site.world, m)
    ensures site.quiet && r.Ok? ==>
              && Acts(site.log) == Acts(old(site.log)) + old(LowerActs(site.world, m))
              && (!r.value.1 ==> UnitOf(site.world, m.id) == old(UnitOf(AfterStop(site.world, m), m.id)))
  {
    hide Inv, OthersKept, Named, StateOk, WorldOk, Aside, Acts, StopActs, AfterStop, Stoppable, FreezeAnswers, IsMember,
         Clean;
    OneRecordChanged(site.world, state, state, m.id);
    if site.quiet {
      StopAside(site.world, m);
      UnstoppedActs(site.world, m, Acts(site.log));
    }
    var idle :- site.Ask(AttemptsIdle);
    if !idle {
      Confirm(site.world, site.log, m, id);
      KeptAfter(old(site.world), old(site.world), site.world, m.id);
      return Ok((state, false));
    }
    var stopped :- site.StopIdle(m, PATIENCE);
    Confirm(site.world, site.log, m, id);
    KeptAfter(old(site.world), old(site.world), site.world, m.id);
    if !stopped {
      return Ok((state, false));
    }
    ghost var w := site.world;
    var removed := RemoveStopped(site, state, m, id);
    AsideOnQuiet(site.quiet, old(site.world), w, site.world, m);
    if removed.Stop? {
      return Stop(removed.halt);
    }
    KeptTwice(old(site.world), w, site.world, m.id);
    return Ok((removed.value, true));
  }

  lemma StopAside(w: World, m: Member)
    ensures Aside(w, AfterStop(w, m), m) && Aside(w, w, m)
    ensures AfterStop(w, m).runners == w.runners && (Terminal(UnitOf(w, m.id)) ==> AfterStop(w, m) == w)
  {
  }

  lemma UnstoppedActs(w: World, m: Member, acts: seq<Event>)
    ensures Terminal(UnitOf(w, m.id)) ==> StopActs(w, m) == [] && acts + StopActs(w, m) == acts
    ensures Terminal(UnitOf(w, m.id)) && !RemovalStopped(UnitOf(w, m.id)) ==> acts + LowerActs(w, m) == acts
    ensures !Terminal(UnitOf(w, m.id)) ==> LowerActs(w, m) == StopActs(w, m)
  {
  }

  /** The rest of the drain branch, for a unit that is down: a token, then the removal. */
  method RemoveStopped(site: Site, state: PoolState, m: Member, id: nat) returns (r: Result<PoolState>)
    requires site.Valid() && site.world.pool == Some(state) && IsMember(state, m) && Confirmed(site.world, m, id)
    requires Dead(UnitOf(site.world, m.id)) && (Clean(site.log, m.name) ==> RunnerDrained(site.world, m.id))
    requires state.members[m.id].phase == Draining
    modifies site
    ensures site.Valid() && (r.Ok? ==> OthersKept(old(site.world), site.world, m.id))
    ensures Continues(old(site.log), site.log)
    ensures r.Ok? ==> site.world.pool == Some(r.value) && m.id !in r.value.members
    ensures r.Ok? ==> !MetadataPresent(MarkersOf(site.world, m.id))
    ensures site.quiet ==> (r.Ok? <==> Named(old(site.world), m.name) <= {id})
    ensures site.quiet ==> Aside(old(site.world), site.world, m)
    ensures r.Ok? ==> Acts(site.log) == Acts(old(site.log)) + [Unconfigured(m), Event.Retired(m)]
  {
    hide Inv, OthersKept, Named, StateOk, WorldOk;
    OneRecordChanged(site.world, state, state, m.id);
    var token :- site.Ask(Token);
    Confirm(site.world, site.log, m, id);
    KeptAfter(old(site.world), old(site.world), site.world, m.id);
    ghost var w := site.world;
    r := RemoveDead(site, state, m, id);
    if r.Ok? {
      KeptTwice(old(site.world), w, site.world, m.id);
    }
  }

  /** Nobody found under the member's name: nothing this pool registered for it. */
  lemma UnlistedMeansNone(was: World, w: World, log: Log, m: Member)
    requires Inv(w, log) && InPool(w, m) && Drift(was, w) && Covered(was, w, m.name, None)
    ensures NoneOf(w, m.id)
  {
    forall r | r in w.runners && r in w.issued
      ensures w.issued[r].owner != Some(m.id)
    {
      if w.issued[r].owner == Some(m.id) {
        OwnRunnerNamed(w, log, m, r);
      }
    }
  }

  lemma NoneMeansGone(w: World, log: Log, id: string)
    requires Inv(w, log) && Recorded(w, id) && w.pool.value.members[id].runnerId.Some? && NoneOf(w, id)
    ensures RunnerGone(w, id)
  {
    assert RecordMatches(w, id, w.pool.value.members[id]);
  }

  /** `in_group`, required. */
  method RequireInGroup(site: Site, m: Member, id: nat) returns (r: Result<()>)
    requires site.Valid() && Recorded(site.world, m.id) && IsMember(site.world.pool.value, m)
    requires site.world.pool.value.members[m.id].runnerId == Some(id)
    requires RegistrationOf(MarkersOf(site.world, m.id), m) == Present(id)
    modifies site
    ensures site.Valid() && (r.Ok? ==> OthersKept(old(site.world), site.world, m.id))
    ensures Continues(old(site.log), site.log)
    ensures r.Ok? ==>
              site.world.pool == old(site.world).pool && Confirmed(site.world, m, id) && SeenInGroup(site.log, id)
    ensures site.quiet ==>
              site.world == old(site.world) && r.Ok? && OnlyLooked(old(site.log), site.log, site.world.pool.value)
    ensures Acts(site.log) == Acts(old(site.log))
  {
    hide Inv;
    var inGroup :- site.Ask(InGroup(id));
    if !inGroup {
      return Stop(Raised);
    }
    Confirm(site.world, site.log, m, id);
    return Ok(());
  }

  /** A reservation whose runner is there counts as registered. */
  function Entering(phase: Phase): Phase {
    if phase == Register then Registered else phase
  }

  /** Take over a fresh reservation, then require that the record, the local files
      and GitHub name one runner in the right group. */
  method ConfirmOrAdopt(site: Site, state: PoolState, m: Member, local: Option<nat>, remote: Option<Found>)
      returns (r: Result<(PoolState, Found)>)
    requires site.Valid() && site.world.pool == Some(state) && IsMember(state, m) && Recorded(site.world, m.id)
    requires !InPhase(site.world, m.id, Remove)
    requires local.Some? ==> RegistrationOf(MarkersOf(site.world, m.id), m) == Present(local.value)
    modifies site
    ensures site.Valid() && (r.Ok? ==> OthersKept(old(site.world), site.world, m.id))
    ensures Continues(old(site.log), site.log)
    ensures r.Ok? ==> site.world.pool == Some(r.value.0) && Confirmed(site.world, m, r.value.1.id)
    ensures r.Ok? ==> Settable(r.value.0.members[m.id].phase) && remote == Some(r.value.1)
    ensures r.Ok? ==> SeenInGroup(site.log, r.value.1.id)
    ensures site.quiet ==>
              (r.Ok?
               <==> local.Some? && remote.Some? && local == Some(remote.value.id)
                    && (state.members[m.id].phase == Register || local == state.members[m.id].runnerId))
    ensures site.quiet && r.Ok? ==>
              && site.world == old(site.world).(pool := Some(r.value.0))
              && r.value.0.members[m.id].phase == Entering(state.members[m.id].phase)
    ensures site.quiet && r.Ok? && state.members[m.id].phase != Register ==>
              && site.world == old(site.world) && OnlyLooked(old(site.log), site.log, state)
              && r == Ok((state, remote.value))
    ensures Acts(site.log) == Acts(old(site.log))
    ensures site.quiet ==> Aside(old(site.world), site.world, m)
  {
    hide Inv, OthersKept, Confirmed, RecordMatches, OnlyLooked, Continues;
    OneRecordChanged(site.world, state, state, m.id);
    RecordFacts(site.world, site.log, m);
    SameHistory(site.log);
    var state' := state;
    if state.members[m.id].phase == Register {
      state' :- Adopt(site, state, m, local, remote);
    }
    ghost var w, log := site.world, site.log;
    if local.None? || local != state'.members[m.id].runnerId || remote.None? || remote.value.id != local.value {
      return Stop(Raised);
    }
    var inGroup := RequireInGroup(site, m, local.value);
    ContinuesTwice(old(site.log), log, site.log);
    if inGroup.Stop? {
      return Stop(inGroup.halt);
    }
    KeptTwice(old(site.world), w, site.world, m.id);
    return Ok((state', remote.value));
  }

  /** The runner the local files name, if they name one. */
  function LocalId(w: World, m: Member): nat {
    var local := RegistrationOf(MarkersOf(w, m.id), m);
    if local.Present? then local.id else 0
  }

  /** The local files and GitHub name one runner, and the record the same one or none yet. */
  ghost predicate Recognised(w: World, m: Member) {
    && Recorded(w, m.id) && RegistrationOf(MarkersOf(w, m.id), m) == Present(LocalId(w, m))
    && Named(w, m.name) == {LocalId(w, m)}
    && var record := w.pool.value.members[m.id];
    record.phase == Register || record.runnerId == Some(LocalId(w, m))
  }

  /** The member is recorded ready and everything still says so. */
  ghost predicate Steady(w: World, m: Member) {
    && InPhase(w, m.id, Ready) && w.pool.value.members[m.id].runnerId.Some?
    && Serving(w, m, w.pool.value.members[m.id].runnerId.value)
  }

  /** `host.registration` and `observe`: two reads. */
  method Look(site: Site, m: Member) returns (r: Result<(Option<nat>, Option<Found>)>)
    requires site.Valid()
    modifies site
    ensures site.Valid() && (r.Ok? ==> Drift(old(site.world), site.world)) && ReadList(old(site.log), site.log)
    ensures r.Ok? ==> RegistrationOf(MarkersOf(site.world, m.id), m)
                      == (if r.value.0.Some? then Present(r.value.0.value) else Absent)
    ensures r.Ok? && ShortLists(site.log) ==> Covered(old(site.world), site.world, m.name, r.value.1)
    ensures site.quiet ==> site.world == old(site.world)
    ensures site.quiet ==>
              (r.Ok?
               <==> RegistrationOf(MarkersOf(site.world, m.id), m) != Ambiguous && |Named(site.world, m.name)| <= 1)
    ensures site.quiet && r.Ok? ==> |Named(site.world, m.name)| <= 1 && r.value.1 == TheNamed(site.world, m.name)
    ensures Acts(site.log) == Acts(old(site.log))
  {
    hide Inv;
    var local :- site.LocalRegistration(m);
    ghost var w := site.world;
    var remote :- site.Observe(m);
    DriftTransitive(old(site.world), w, site.world);
    CoveredLonger(old(site.world), w, site.world, m.name, remote);
    return Ok((local, remote));
  }

  lemma CoveredLonger(a: World, b: World, c: World, name: string, found: Option<Found>)
    requires Drift(a, b)
    ensures Covered(b, c, name, found) ==> Covered(a, c, name, found)
  {
  }

  lemma KeptThroughDrift(a: World, b: World, id: string)
    requires a.pool.Some? && Drift(a, b)
    ensures OthersKept(a, b, id)
  {
  }

  /** A member without a record: nothing of it may exist anywhere. */
  method RegisterUnseen(site: Site, state: PoolState, m: Member, local: Option<nat>, remote: Option<Found>)
      returns (r: Result<PoolState>)
    requires site.Valid() && site.world.pool == Some(state) && IsMember(state, m) && m.id !in state.members
    requires local.None? ==> RegistrationOf(MarkersOf(site.world, m.id), m) == Absent
    requires remote.None? && ShortLists(site.log) ==> NoneOf(site.world, m.id)
    modifies site
    ensures site.Valid() && (r.Ok? ==> OthersKept(old(site.world), site.world, m.id))
    ensures Continues(old(site.log), site.log)
    ensures r.Ok? ==> r.value == state.(members := state.members[m.id := Record(Register, None)])
    ensures r.Ok? ==> site.world.pool == Some(r.value) && remote.None?
    ensures site.quiet ==> JoinedOffline(old(site.world), site.world)
    ensures site.quiet ==> Aside(old(site.world), site.world, m)
    ensures site.quiet ==>
              Acts(site.log) == Acts(old(site.log)) + if local.None? && remote.None? then [Configured(m)] else []
  {
    hide Inv, OthersKept;
    if local.Some? || remote.Some? {
      return Stop(Raised);
    }
    r := RegisterNew(site, state, m);
  }

  /** A recorded member: look, then require agreement. */
  method Recognise(site: Site, state: PoolState, m: Member) returns (r: Result<(PoolState, Found)>)
    requires site.Valid() && site.world.pool == Some(state) && IsMember(state, m) && Recorded(site.world, m.id)
    requires !InPhase(site.world, m.id, Remove)
    modifies site
    ensures site.Valid() && (r.Ok? ==> OthersKept(old(site.world), site.world, m.id))
    ensures Continues(old(site.log), site.log)
    ensures r.Ok? ==> site.world.pool == Some(r.value.0) && Confirmed(site.world, m, r.value.1.id)
    ensures r.Ok? ==> Settable(r.value.0.members[m.id].phase) && SeenInGroup(site.log, r.value.1.id)
    ensures site.quiet ==> (r.Ok? <==> old(Recognised(site.world, m)))
    ensures site.quiet && r.Ok? ==>
              && site.world == old(site.world).(pool := Some(r.value.0))
              && r.value.0.members[m.id].phase == Entering(state.members[m.id].phase)
              && r.value.1.id == old(LocalId(site.world, m)) && old(Alone(site.world, m, r.value.1.id, r.value.1))
    ensures site.quiet && r.Ok? && state.members[m.id].phase != Register ==>
              site.world == old(site.world) && OnlyLooked(old(site.log), site.log, state) && r.value.0 == state
    ensures Acts(site.log) == Acts(old(site.log))
    ensures site.quiet ==> Aside(old(site.world), site.world, m)
  {
    hide Inv, OthersKept, IsMember, Covered;
    var look := Look(site, m);
    OneRead(old(site.log), site.log);
    if look.Stop? {
      return Stop(look.halt);
    }
    var seen := look.value;
    KeptThroughDrift(old(site.world), site.world, m.id);
    hide Drift, Continues;
    ghost var w, looked := site.world, site.log;
    r := ConfirmOrAdopt(site, state, m, seen.0, seen.1);
    ContinuesTwice(old(site.log), looked, site.log);
    LookedAfterReading(old(site.log), looked, site.log, state);
    if r.Ok? {
      KeptTwice(old(site.world), w, site.world, m.id);
    }
  }

  /** A member without a record is registered, if nothing of it exists anywhere. */
  method Admit(site: Site, state: PoolState, m: Member) returns (r: Result<PoolState>)
    requires site.Valid() && site.world.pool == Some(state) && IsMember(state, m) && m.id !in state.members
    modifies site
    ensures site.Valid() && (r.Ok? ==> OthersKept(old(site.world), site.world, m.id))
    ensures Continues(old(site.log), site.log)
    ensures r.Ok? ==> r.value == state.(members := state.members[m.id := Record(Register, None)])
    ensures r.Ok? ==> site.world.pool == Some(r.value)
    ensures site.quiet && r.Ok? ==> forall id :: id in Named(site.world, m.name) ==> !site.world.runners[id].online
    ensures site.quiet ==> Aside(old(site.world), site.world, m)
    ensures site.quiet ==>
              Acts(site.log) == Acts(old(site.log)) + if old(Traceless(site.world, m)) then [Configured(m)] else []
  {
    hide Inv, OthersKept, IsMember, Covered;
    var look := Look(site, m);
    OneRead(old(site.log), site.log);
    if look.Stop? {
      return Stop(look.halt);
    }
    var seen := look.value;
    if seen.1.None? && ShortLists(site.log) {
      UnlistedMeansNone(old(site.world), site.world, site.log, m);
    }
    KeptThroughDrift(old(site.world), site.world, m.id);
    hide Drift, Continues;
    ghost var w, looked := site.world, site.log;
    r := RegisterUnseen(site, state, m, seen.0, seen.1);
    ContinuesTwice(old(site.log), looked, site.log);
    if r.Ok? {
      KeptTwice(old(site.world), w, site.world, m.id);
      if site.quiet {
        NamesakesOffline(w, site.world, m.name);
      }
    }
  }

  lemma NamesakesOffline(w: World, w': World, name: string)
    requires Named(w, name) == {} && JoinedOffline(w, w')
    ensures forall id :: id in Named(w', name) ==> !w'.runners[id].online
  {
    forall id | id in Named(w', name)
      ensures !w'.runners[id].online
    {
      assert id !in Named(w, name);
    }
  }

  /** Find the member's own runner, registering one if it has no record. */
  method Identify(site: Site, state: PoolState, m: Member) returns (r: Result<(PoolState, Found)>)
    requires site.Valid() && site.world.pool == Some(state) && IsMember(state, m) && !InPhase(site.world, m.id, Remove)
    modifies site
    ensures site.Valid() && (r.Ok? ==> OthersKept(old(site.world), site.world, m.id))
    ensures Continues(old(site.log), site.log)
    ensures r.Ok? ==> site.world.pool == Some(r.value.0) && Confirmed(site.world, m, r.value.1.id)
    ensures r.Ok? ==> Settable(r.value.0.members[m.id].phase) && SeenInGroup(site.log, r.value.1.id)
    ensures site.quiet && m.id in state.members ==> (r.Ok? <==> old(Recognised(site.world, m)))
    ensures site.quiet && m.id in state.members && r.Ok? ==>
              && site.world == old(site.world).(pool := Some(r.value.0))
              && r.value.0.members[m.id].phase == Entering(state.members[m.id].phase)
              && r.value.1.id == old(LocalId(site.world, m))
    ensures site.quiet && m.id in state.members && r.Ok? && state.members[m.id].phase != Register ==>
              site.world == old(site.world) && OnlyLooked(old(site.log), site.log, state) && r.value.0 == state
    ensures site.quiet && r.Ok? ==> Alone(site.world, m, r.value.1.id, r.value.1)
    ensures site.quiet && r.Ok? && m.id !in state.members ==> !r.value.1.runner.online
    ensures site.quiet ==> Aside(old(site.world), site.world, m)
    ensures m.id in state.members ==> Acts(site.log) == Acts(old(site.log))
    ensures site.quiet && m.id !in state.members ==>
              Acts(site.log) == Acts(old(site.log)) + if old(Traceless(site.world, m)) then [Configured(m)] else []
  {
    hide Inv, OthersKept, Recognised, Continues, Aside, Alone, Confirmed, Acts, Traceless, OnlyLooked;
    if m.id in state.members {
      r := Recognise(site, state, m);
      if r.Ok? && site.quiet {
        SameAlone(old(site.world), site.world, m, r.value.1.id, r.value.1);
      }
      return;
    }
    var state' :- Admit(site, state, m);
    KeptMember(old(site.world), site.world, m, m.id);
    ghost var w, log := site.world, site.log;
    r := Recognise(site, state', m);
    ContinuesTwice(old(site.log), log, site.log);
    AsideOnQuiet(site.quiet, old(site.world), w, site.world, m);
    if r.Ok? {
      KeptTwice(old(site.world), w, site.world, m.id);
      if site.quiet {
        AloneFacts(w, m, r.value.1.id, r.value.1);
        SameAlone(w, site.world, m, r.value.1.id, r.value.1);
      }
    }
  }

  // ---- One pass ----

  /** What a fate promises about the world it left. */
  predicate FateHolds(w: World, m: Member, fate: Fate) {
    match fate
    case Skipped => !Recorded(w, m.id)
    case MadeReady => InPhase(w, m.id, Ready) && Held(w, m)
    case LeftDraining => InPhase(w, m.id, Draining) && Held(w, m)
    case Retired => !Recorded(w, m.id) && !MetadataPresent(MarkersOf(w, m.id))
  }

  /** Which fates a member can meet, from its record before the pass. */
  predicate FateAllowed(record: Option<Record>, wanted: bool, fate: Fate) {
    match fate
    case Skipped => !wanted && record.None?
    case MadeReady => wanted && (record.Some? ==> record.value.phase != Remove)
    case LeftDraining => !wanted && record.Some? && record.value.phase != Remove
    case Retired => record.Some? && (wanted ==> record.value.phase == Remove)
  }

  lemma FateKept(w: World, w': World, m: Member, fate: Fate, other: string)
    requires FateHolds(w, m, fate) && OthersKept(w, w', other) && m.id != other
    ensures FateHolds(w', m, fate)
  {
    assert RecordIn(w'.pool, m.id) == RecordIn(w.pool, m.id);
    assert MarkersOf(w', m.id) == MarkersOf(w, m.id);
  }

  /** The member is recorded ready, serves, and carries exactly its two labels. */
  ghost predicate Finished(w: World, m: Member) {
    && Steady(w, m)
    && var id := w.pool.value.members[m.id].runnerId.value;
    Tagged(w, w.pool.value, m, id, Found(id, w.runners[id]))
  }

  /** When a pass over a quiet site settles the member. A new one never is: its listener does
      not connect within the pass. */
  ghost predicate Settles(w: World, m: Member, wanted: bool) {
    if !Recorded(w, m.id) then !wanted && Named(w, m.name) == {}
    else if InPhase(w, m.id, Remove) then Removable(w, m)
    else
      && Recognised(w, m)
      && if wanted then Rises(w, m, LocalId(w, m), Entering(w.pool.value.members[m.id].phase))
         else Busy(w, LocalId(w, m)) || UnitOf(w, m.id).active != Changing
  }

  predicate Busy(w: World, r: nat) {
    r in w.runners && w.runners[r].busy
  }

  function QuietFate(w: World, m: Member, wanted: bool): Fate {
    if !Recorded(w, m.id) then Skipped
    else if InPhase(w, m.id, Remove) then Fate.Retired
    else if wanted then MadeReady
    else if !Busy(w, LocalId(w, m)) && RemovalStopped(UnitOf(w, m.id)) then Fate.Retired
    else LeftDraining
  }

  function OwnRunner(w: World, m: Member): Runner {
    if LocalId(w, m) in w.runners then w.runners[LocalId(w, m)] else Runner(m.name, {}, false, false)
  }

  /** What a pass does outside pool.json for a member it settles. */
  ghost function StepActs(w: World, m: Member, wanted: bool): seq<Event> {
    if !Recorded(w, m.id) then []
    else if InPhase(w, m.id, Remove) then RemovalActs(w, m)
    else if wanted then
      LabelActs(m, LocalId(w, m), OwnRunner(w, m), {w.pool.value.binding.tag, m.tag})
      + LaunchActs(m, Entering(w.pool.value.members[m.id].phase))
    else
      LabelActs(m, LocalId(w, m), OwnRunner(w, m), {}) + if Busy(w, LocalId(w, m)) then [] else LowerActs(w, m)
  }

  ghost function LoweredUnit(w: World, m: Member): Unit {
    UnitAfter(w, m, Busy(w, LocalId(w, m)))
  }

  method Step(site: Site, state: PoolState, m: Member, wanted: bool) returns (r: Result<(PoolState, Fate)>)
    requires site.Valid() && site.world.pool == Some(state) && IsMember(state, m)
    modifies site
    ensures site.Valid() && (r.Ok? ==> OthersKept(old(site.world), site.world, m.id))
    ensures r.Survived() ==> NothingLeftFrozen(old(site.log), site.log)
    ensures r.Ok? ==> site.world.pool == Some(r.value.0) && FateHolds(site.world, m, r.value.1)
    ensures r.Ok? ==> FateAllowed(RecordIn(Some(state), m.id), wanted, r.value.1)
    ensures r.Ok? && r.value.1 == MadeReady && Clean(site.log, m.name) ==> RunnerTagged(site.world, m)
    ensures r.Ok? && r.value.1 == LeftDraining && Clean(site.log, m.name) ==> RunnerUnlabelled(site.world, m.id)
    ensures site.quiet && wanted && old(Finished(site.world, m)) ==>
              && r == Ok((state, MadeReady)) && site.world == old(site.world)
              && OnlyLooked(old(site.log), site.log, state)
    ensures site.quiet && !wanted && m.id !in state.members && old(Named(site.world, m.name)) == {} ==>
              r == Ok((state, Skipped)) && site.world == old(site.world) && OnlyLooked(old(site.log), site.log, state)
    // On a quiet site: exactly when the member is settled, and how.
    ensures site.quiet ==> (r.Ok? <==> old(Settles(site.world, m, wanted)))
    ensures site.quiet && r.Ok? ==> r.value.1 == old(QuietFate(site.world, m, wanted))
    // And everything it does outside pool.json, and what it leaves of the unit of a member it drains.
    ensures Acts(old(site.log)) <= Acts(site.log) && (site.quiet ==> Aside(old(site.world), site.world, m))
    ensures site.quiet && r.Ok? ==> Acts(site.log) == Acts(old(site.log)) + old(StepActs(site.world, m, wanted))
    ensures site.quiet && r.Ok? && r.value.1 == LeftDraining ==>
              UnitOf(site.world, m.id) == old(LoweredUnit(site.world, m))
    ensures site.quiet && wanted && m.id !in state.members && old(Traceless(site.world, m)) ==>
              Acts(old(site.log)) + [Configured(m)] <= Acts(site.log)
  {
    hide Inv, OthersKept, Rises, Removable;
    if !wanted && m.id !in state.members {
      var remote := site.Observe(m);
      OneRead(old(site.log), site.log);
      ReadingIsLooking(old(site.log), site.log, state);
      if remote.Stop? || remote.value.Some? {
        return Stop(if remote.Stop? then remote.halt else Raised);
      }
      KeptThroughDrift(old(site.world), site.world, m.id);
      return Ok((state, Skipped));
    }
    if m.id in state.members && state.members[m.id].phase == Remove {
      var state' :- FinishRemoval(site, state, m);
      return Ok((state', Fate.Retired));
    }
    if wanted {
      var state' :- Raise(site, state, m);
      return Ok((state', MadeReady));
    }
    r := Lower(site, state, m);
  }

  lemma KeptMember(a: World, b: World, m: Member, id: string)
    requires OthersKept(a, b, id) && IsMember(a.pool.value, m)
    ensures IsMember(b.pool.value, m)
  {
  }

  lemma FinishedFacts(w: World, state: PoolState, m: Member)
    requires w.pool == Some(state)
    ensures Finished(w, m) ==>
              && Recognised(w, m) && Serving(w, m, LocalId(w, m))
              && state.members[m.id] == Record(Ready, Some(LocalId(w, m)))
              && Tagged(w, state, m, LocalId(w, m), Found(LocalId(w, m), w.runners[LocalId(w, m)]))
              && state == state.(members := state.members[m.id := state.members[m.id]])
              && w == w.(pool := Some(state))
  {
  }

  /** A wanted member that is not being removed. */
  method Raise(site: Site, state: PoolState, m: Member) returns (r: Result<PoolState>)
    requires site.Valid() && site.world.pool == Some(state) && IsMember(state, m) && !InPhase(site.world, m.id, Remove)
    modifies site
    ensures site.Valid() && (r.Ok? ==> OthersKept(old(site.world), site.world, m.id))
    ensures Continues(old(site.log), site.log)
    ensures r.Ok? ==> site.world.pool == Some(r.value) && FateHolds(site.world, m, MadeReady)
    ensures r.Ok? && Clean(site.log, m.name) ==> RunnerTagged(site.world, m)
    ensures site.quiet && old(Finished(site.world, m)) ==>
              && r == Ok(state) && site.world == old(site.world) && OnlyLooked(old(site.log), site.log, state)
    ensures site.quiet ==> (r.Ok? <==> old(Settles(site.world, m, true)))
    ensures site.quiet ==> Aside(old(site.world), site.world, m)
    ensures site.quiet && r.Ok? ==> Acts(site.log) == Acts(old(site.log)) + old(StepActs(site.world, m, true))
    // A new member without a trace anywhere is registered.
    ensures site.quiet && m.id !in state.members && old(Traceless(site.world, m)) ==>
              Acts(old(site.log)) + [Configured(m)] <= Acts(site.log)
  {
    hide Inv, OthersKept, Serving, Finished, Tagged, Recognised, RunnerTagged, Aside, LabelActs, LaunchActs, Acts;
    FinishedFacts(site.world, state, m);
    ghost var acts := Acts(site.log);
    var found :- Identify(site, state, m);
    KeptMember(old(site.world), site.world, m, m.id);
    ghost var w, log, id := site.world, site.log, found.1.id;
    if site.quiet {
      AloneFacts(w, m, id, found.1);
      KeptBinding(old(site.world), w, m.id);
      Regrouped(acts, LabelActs(m, id, found.1.runner, {state.binding.tag, m.tag}),
                LaunchActs(m, found.0.members[m.id].phase));
    }
    r := BringUp(site, found.0, m, found.1.id, found.1);
    AsideOnQuiet(site.quiet, old(site.world), w, site.world, m);
    if r.Ok? {
      KeptTwice(old(site.world), w, site.world, m.id);
      if old(Finished(site.world, m)) && site.quiet {
        LookedTwice(old(site.log), log, site.log, state);
      }
    }
  }

  lemma KeptBinding(a: World, b: World, id: string)
    requires OthersKept(a, b, id)
    ensures b.pool.value.binding == a.pool.value.binding
  {
  }

  /** A member beyond capacity that is recorded and not being removed. */
  method Lower(site: Site, state: PoolState, m: Member) returns (r: Result<(PoolState, Fate)>)
    requires site.Valid() && site.world.pool == Some(state) && IsMember(state, m) && Recorded(site.world, m.id)
    requires !InPhase(site.world, m.id, Remove)
    modifies site
    ensures site.Valid() && (r.Ok? ==> OthersKept(old(site.world), site.world, m.id))
    ensures r.Survived() ==> NothingLeftFrozen(old(site.log), site.log)
    ensures Trusts(old(site.log), site.log)
    ensures r.Ok? ==> site.world.pool == Some(r.value.0) && FateHolds(site.world, m, r.value.1)
    ensures r.Ok? ==> r.value.1 in {LeftDraining, Fate.Retired}
    ensures r.Ok? && r.value.1 == LeftDraining && Clean(site.log, m.name) ==> RunnerUnlabelled(site.world, m.id)
    ensures site.quiet ==> (r.Ok? <==> old(Settles(site.world, m, false)))
    ensures site.quiet && r.Ok? ==> r.value.1 == old(QuietFate(site.world, m, false))
    ensures site.quiet ==> Aside(old(site.world), site.world, m)
    ensures site.quiet && r.Ok? ==>
              && Acts(site.log) == Acts(old(site.log)) + old(StepActs(site.world, m, false))
              && (r.value.1 == LeftDraining ==> UnitOf(site.world, m.id) == old(LoweredUnit(site.world, m)))
  {
    hide Inv, OthersKept, Aside, Alone, Confirmed, IsMember, LowerActs, LabelActs, AfterStop, Acts, Recognised;
    hide RunnerUnlabelled;
    var found :- Identify(site, state, m);
    KeptMember(old(site.world), site.world, m, m.id);
    ghost var w, acts := site.world, Acts(site.log);
    if site.quiet {
      AloneFacts(w, m, found.1.id, found.1);
      SameNames(old(site.world), w, m.name);
      SameStop(old(site.world), w, m, found.1.id);
      Regrouped(acts, LabelActs(m, found.1.id, found.1.runner, {}), old(LowerActs(site.world, m)));
    }
    var drain := DrainMember(site, found.0, m, found.1.id, found.1);
    AsideOnQuiet(site.quiet, old(site.world), w, site.world, m);
    if drain.Stop? {
      return Stop(drain.halt);
    }
    var drained := drain.value;
    KeptTwice(old(site.world), w, site.world, m.id);
    if !drained.1 {
      ConfirmedHeld(site.world, m, found.1.id);
    }
    return Ok((drained.0, if drained.1 then Fate.Retired else LeftDraining));
  }

  lemma ConfirmedHeld(w: World, m: Member, id: nat)
    requires Confirmed(w, m, id)
    ensures Held(w, m)
  {
  }

  // ---- Admission of the request ----

  function Initial(c: Contract): PoolState {
    PoolState(c.binding, c.repository, c.desiredCapacity, map[], map[])
  }

  /** The durable state a request starts from. */
  function Base(c: Contract, pool: Option<PoolState>): PoolState {
    if pool.Some? then pool.value else Initial(c)
  }

  predicate Admissible(c: Contract, pool: Option<PoolState>) {
    var state := Base(c, pool);
    && 1 <= c.desiredCapacity <= CAPACITY
    && state.binding == c.binding
    && (state.ownerRepository == c.repository || state.desiredCapacity == c.desiredCapacity)
    && forall repository <- c.repositories :: Entry(state.consumers, repository, c.consumer) == c.consumer
  }

  /** The state with this installation's namespaces claimed. */
  function Claimed(c: Contract, pool: Option<PoolState>): PoolState {
    var state := Base(c, pool);
    state.(consumers := state.consumers + (map repository | repository in c.repositories :: c.consumer),
           desiredCapacity := c.desiredCapacity)
  }

  /** Claim each repository, or find one that another namespace holds. */
  method Claim(consumers: map<string, ConsumerBinding>, repositories: seq<string>, mine: ConsumerBinding)
      returns (r: Option<map<string, ConsumerBinding>>)
    ensures r.Some? <==> forall repository <- repositories :: Entry(consumers, repository, mine) == mine
    ensures r.Some? ==> r.value == consumers + (map repository | repository in repositories :: mine)
  {
    var claimed := consumers;
    for i := 0 to |repositories|
      invariant forall repository <- repositories[..i] :: Entry(consumers, repository, mine) == mine
      invariant claimed == consumers + (map repository | repository in repositories[..i] :: mine)
    {
      var repository := repositories[i];
      assert repositories[..i + 1] == repositories[..i] + [repository];
      if Entry(claimed, repository, mine) != mine {
        assert repository in repositories;
        return None;
      }
      claimed := claimed[repository := mine];
    }
    assert repositories[..|repositories|] == repositories;
    return Some(claimed);
  }

  /** Only the claims and the wanted capacity of the durable state change here. */
  lemma ClaimWritable(w: World, log: Log, c: Contract)
    requires Inv(w, log) && Admissible(c, w.pool) && DistinctMembers(c.binding.members)
    ensures var state := Claimed(c, w.pool);
            && WriteOk(w.pool, state) && RemovalEarned(log, w, w.pool, state) && StateOk(state)
            && (forall id :: id in state.members ==> Recorded(w, id) && RecordMatches(w, id, state.members[id]))
            && (forall id :: RecordIn(Some(state), id) == RecordIn(w.pool, id))
  {
  }

  /** At most the eligibility question was asked. */
  predicate NothingCalled(before: Log, after: Log) {
    before == after || (after.Then? && after.event.Answered? && after.before == before)
  }

  lemma BaseBinding(c: Contract, pool: Option<PoolState>)
    ensures Admissible(c, pool) && pool.Some? ==> Claimed(c, pool).binding == pool.value.binding
    ensures Admissible(c, pool) ==> Claimed(c, pool).binding == c.binding
  {
  }

  method Begin(c: Contract, site: Site) returns (r: Result<PoolState>)
    requires site.Valid() && DistinctMembers(c.binding.members)
    modifies site
    ensures site.Valid()
    ensures forall k :: LeftFrozen(site.log, k) == LeftFrozen(old(site.log), k)
    ensures r.Ok? ==> Admissible(c, old(site.world.pool)) && r.value == Claimed(c, old(site.world.pool))
    ensures r.Ok? ==> site.world.pool == Some(r.value) && site.world.markers == old(site.world.markers)
    ensures r.Ok? ==> forall id :: RecordIn(site.world.pool, id) == RecordIn(old(site.world.pool), id)
    ensures !Admissible(c, old(site.world.pool)) ==>
              site.world.pool == old(site.world.pool) && NothingCalled(old(site.log), site.log)
    ensures site.quiet && Admissible(c, old(site.world.pool)) ==>
              r.Ok? && site.world == old(site.world).(pool := Some(r.value))
                  && OnlyLooked(old(site.log), site.log, r.value)
    ensures Acts(site.log) == Acts(old(site.log))
    // It goes on only after the pool was found to qualify.
    ensures r.Ok? ==>
              && site.log.Then? && site.log.before.Then? && site.log.before.before == old(site.log)
              && site.log.before.event == Answered(Qualified, true)
  {
    hide Inv;
    if !(1 <= c.desiredCapacity <= CAPACITY) {
      return Stop(Raised);
    }
    var read :- site.Read();
    var state := Base(c, read);
    if state.binding != c.binding
       || (state.ownerRepository != c.repository && state.desiredCapacity != c.desiredCapacity) {
      return Stop(Raised);
    }
    var qualified :- site.Ask(Qualified);
    if !qualified {
      return Stop(Raised);
    }
    var consumers := Claim(state.consumers, c.repositories, c.consumer);
    if consumers.None? {
      return Stop(Raised);
    }
    state := state.(consumers := consumers.value, desiredCapacity := c.desiredCapacity);
    ClaimWritable(site.world, site.log, c);
    ghost var asked := site.log;
    var _ :- site.Write(state);
    OneLook(old(site.log), asked, state);
    OneLook(asked, site.log, state);
    LookedTwice(old(site.log), asked, site.log, state);
    return Ok(state);
  }

  // ---- The pass ----

  /** The members that met one fate, in member order. */
  function Listed(members: seq<Member>, fates: seq<Fate>, fate: Fate): (ids: seq<string>)
    requires |fates| <= |members|
    decreases |fates|
  {
    if fates == [] then []
    else
      var last := |fates| - 1;
      Listed(members, fates[..last], fate) + (if fates[last] == fate then [members[last].id] else [])
  }

  function ReportOf(members: seq<Member>, fates: seq<Fate>): Report
    requires |fates| <= |members|
  {
    Report(Listed(members, fates, MadeReady), Listed(members, fates, LeftDraining),
           Listed(members, fates, Fate.Retired))
  }

  /** The first |fates| members were handled; the others are as before the pass. */
  ghost predicate Progress(c: Contract, before: Option<PoolState>, w: World, fates: seq<Fate>) {
    && |fates| <= |c.binding.members|
    && w.pool.Some? && w.pool.value.binding == c.binding
    && (forall i :: 0 <= i < |fates| ==>
          && FateHolds(w, c.binding.members[i], fates[i])
          && FateAllowed(RecordIn(before, c.binding.members[i].id), i < c.desiredCapacity, fates[i]))
    && (forall i :: |fates| <= i < |c.binding.members| ==>
          RecordIn(w.pool, c.binding.members[i].id) == RecordIn(before, c.binding.members[i].id))
  }

  lemma ProgressKept(c: Contract, before: Option<PoolState>, w: World, w': World, fates: seq<Fate>, fate: Fate)
    requires Progress(c, before, w, fates) && |fates| < |c.binding.members| && DistinctMembers(c.binding.members)
    requires var m := c.binding.members[|fates|];
             && OthersKept(w, w', m.id) && FateHolds(w', m, fate)
             && FateAllowed(RecordIn(w.pool, m.id), |fates| < c.desiredCapacity, fate)
    ensures Progress(c, before, w', fates + [fate])
  {
    var m := c.binding.members[|fates|];
    forall i | 0 <= i < |fates|
      ensures FateHolds(w', c.binding.members[i], fates[i])
    {
      FateKept(w, w', c.binding.members[i], fates[i], m.id);
    }
  }

  /** Nothing is left to do for the first `capacity` members, and nothing exists of
      the others. */
  ghost predicate AllReady(c: Contract, w: World) {
    && Admissible(c, w.pool) && w.pool == Some(Claimed(c, w.pool))
    && forall i :: 0 <= i < |c.binding.members| ==>
         if i < c.desiredCapacity then Finished(w, c.binding.members[i])
         else !Recorded(w, c.binding.members[i].id) && Named(w, c.binding.members[i].name) == {}
  }

  lemma MemberReady(c: Contract, w: World, i: nat)
    requires AllReady(c, w) && i < |c.binding.members|
    ensures i < c.desiredCapacity ==> Finished(w, c.binding.members[i])
    ensures i >= c.desiredCapacity ==>
              !Recorded(w, c.binding.members[i].id) && Named(w, c.binding.members[i].name) == {}
  {
  }

  predicate FatesWhenAllReady(c: Contract, fates: seq<Fate>) {
    forall i :: 0 <= i < |fates| ==> fates[i] == if i < c.desiredCapacity then MadeReady else Skipped
  }

  lemma ListedNext(members: seq<Member>, fates: seq<Fate>, fate: Fate, which: Fate)
    requires |fates| < |members|
    ensures Listed(members, fates + [fate], which)
            == Listed(members, fates, which) + (if fate == which then [members[|fates|].id] else [])
  {
    assert (fates + [fate])[..|fates|] == fates;
  }

  // ---- A pass over a quiet site ----

  /** What a pass will do about a member is still the same. */
  ghost predicate SameTurn(w: World, w': World, m: Member, wanted: bool) {
    && Settles(w', m, wanted) == Settles(w, m, wanted)
    && (Settles(w, m, wanted) ==>
          && QuietFate(w', m, wanted) == QuietFate(w, m, wanted) && StepActs(w', m, wanted) == StepActs(w, m, wanted)
          && (QuietFate(w, m, wanted) == LeftDraining ==> LoweredUnit(w', m) == LoweredUnit(w, m)))
  }

  lemma SameTurnTwice(a: World, b: World, c: World, m: Member, wanted: bool)
    requires SameTurn(a, b, m, wanted) && SameTurn(b, c, m, wanted)
    ensures SameTurn(a, c, m, wanted)
  {
    hide Settles, StepActs, QuietFate, LoweredUnit;
  }

  /** Record, files, unit and GitHub's runners of one member are the same. */
  ghost predicate SameMember(w: World, w': World, m: Member) {
    && RecordIn(w'.pool, m.id) == RecordIn(w.pool, m.id) && MarkersOf(w', m.id) == MarkersOf(w, m.id)
    && UnitOf(w', m.id) == UnitOf(w, m.id) && Named(w', m.name) == Named(w, m.name)
    && (forall r :: r in Named(w, m.name) ==> w'.runners[r] == w.runners[r])
    && (Recorded(w, m.id) ==> w'.pool.value.binding == w.pool.value.binding)
  }

  /** The turn of one member leaves every other one as it was. */
  lemma OthersSame(w: World, w': World, m: Member, k: Member)
    requires OthersKept(w, w', m.id) && Aside(w, w', m) && k.id != m.id && k.name != m.name
    ensures SameMember(w, w', k)
  {
    assert forall r :: r in Named(w', k.name) <==> r in Named(w, k.name);
  }

  /** A recorded runner that GitHub lists bears the member's name. */
  lemma ListedUnderName(w: World, log: Log, m: Member)
    requires Inv(w, log) && Recorded(w, m.id) && IsMember(w.pool.value, m)
    ensures var r := w.pool.value.members[m.id].runnerId;
            r.Some? && r.value in w.runners ==> r.value in Named(w, m.name)
  {
    RecordFacts(w, log, m);
  }

  /** A pass looks at these things only. */
  lemma SameMemberSameTurn(w: World, w': World, log: Log, log': Log, m: Member, wanted: bool)
    requires SameMember(w, w', m) && Inv(w, log) && Inv(w', log')
    requires Recorded(w, m.id) ==> IsMember(w.pool.value, m)
    ensures SameTurn(w, w', m, wanted)
  {
    if !Recorded(w, m.id) {
      UnrecordedTurn(w, w', m, wanted);
    } else if InPhase(w, m.id, Remove) {
      ListedUnderName(w, log, m);
      ListedUnderName(w', log', m);
      RemovedTurn(w, w', m, wanted);
    } else {
      RecordedTurn(w, w', m, wanted);
    }
  }

  lemma UnrecordedTurn(w: World, w': World, m: Member, wanted: bool)
    requires SameMember(w, w', m) && !Recorded(w, m.id)
    ensures SameTurn(w, w', m, wanted)
  {
  }

  lemma RemovedTurn(w: World, w': World, m: Member, wanted: bool)
    requires SameMember(w, w', m) && InPhase(w, m.id, Remove)
    requires forall x :: x in {w, w'} ==>
               var r := x.pool.value.members[m.id].runnerId;
               Recorded(x, m.id) && (r.Some? && r.value in x.runners ==> r.value in Named(x, m.name))
    ensures SameTurn(w, w', m, wanted)
  {
  }

  lemma RecordedTurn(w: World, w': World, m: Member, wanted: bool)
    requires SameMember(w, w', m) && Recorded(w, m.id) && !InPhase(w, m.id, Remove)
    ensures SameTurn(w, w', m, wanted)
  {
    if wanted {
      RaisedTurn(w, w', m);
    } else {
      LoweredTurn(w, w', m);
    }
  }

  lemma RaisedTurn(w: World, w': World, m: Member)
    requires SameMember(w, w', m) && Recorded(w, m.id) && !InPhase(w, m.id, Remove)
    ensures SameTurn(w, w', m, true)
  {
  }

  lemma LoweredTurn(w: World, w': World, m: Member)
    requires SameMember(w, w', m) && Recorded(w, m.id) && !InPhase(w, m.id, Remove)
    ensures SameTurn(w, w', m, false)
  {
  }

  /** The first n members settle, with these fates. */
  ghost predicate SettledSoFar(c: Contract, w: World, fates: seq<Fate>) {
    |fates| <= |c.binding.members| && forall i :: 0 <= i < |fates| ==>
      && Settles(w, c.binding.members[i], i < c.desiredCapacity)
      && fates[i] == QuietFate(w, c.binding.members[i], i < c.desiredCapacity)
  }

  /** Everything a pass does outside pool.json for the first n members. */
  ghost function PassActs(c: Contract, w: World, n: nat): seq<Event>
    requires n <= |c.binding.members|
  {
    if n == 0 then []
    else PassActs(c, w, n - 1) + StepActs(w, c.binding.members[n - 1], n - 1 < c.desiredCapacity)
  }

  /** The units of the members a pass left draining. */
  ghost predicate UnitsLowered(c: Contract, w: World, w': World, fates: seq<Fate>) {
    |fates| <= |c.binding.members| && forall i :: 0 <= i < |fates| && fates[i] == LeftDraining ==>
      UnitOf(w', c.binding.members[i].id) == LoweredUnit(w, c.binding.members[i])
  }

  /** The members from the n-th on are as at the start. */
  ghost predicate AheadSame(c: Contract, w: World, w': World, n: nat) {
    forall i :: n <= i < |c.binding.members| ==> SameTurn(w, w', c.binding.members[i], i < c.desiredCapacity)
  }

  /** What one pass over a quiet site did for the first |fates| members: it handled every one
      of them, and stopped at the first that does not settle. */
  ghost predicate QuietPass(c: Contract, was: World, acts: seq<Event>, w: World, log: Log, fates: seq<Fate>) {
    && SettledSoFar(c, was, fates) && Acts(log) == acts + PassActs(c, was, |fates|)
    && UnitsLowered(c, was, w, fates) && AheadSame(c, was, w, |fates|)
  }

  /** One turn on a quiet site. */
  ghost predicate Turned(c: Contract, w: World, w': World, acts: seq<Event>, log: Log, i: nat, fate: Fate)
    requires i < |c.binding.members|
  {
    var m, wanted := c.binding.members[i], i < c.desiredCapacity;
    && OthersKept(w, w', m.id) && Aside(w, w', m) && fate == QuietFate(w, m, wanted)
    && Acts(log) == acts + StepActs(w, m, wanted)
    && (fate == LeftDraining ==> UnitOf(w', m.id) == LoweredUnit(w, m))
  }

  lemma PassStarts(c: Contract, w: World, log: Log)
    ensures QuietPass(c, w, Acts(log), w, log, [])
  {
    hide Settles, QuietFate, StepActs, LoweredUnit;
    assert Acts(log) + [] == Acts(log);
  }

  /** The members still to come are not disturbed by one more turn. */
  lemma AheadStays(c: Contract, was: World, w: World, w': World, log: Log, log': Log, n: nat)
    requires AheadSame(c, was, w, n) && n < |c.binding.members| && DistinctMembers(c.binding.members)
    requires Inv(w, log) && Inv(w', log') && w.pool.Some? && w.pool.value.binding == c.binding
    requires OthersKept(w, w', c.binding.members[n].id) && Aside(w, w', c.binding.members[n])
    ensures AheadSame(c, was, w', n + 1)
  {
    hide Inv, OthersKept, Aside, SameTurn, SameMember;
    forall i | n + 1 <= i < |c.binding.members|
      ensures SameTurn(was, w', c.binding.members[i], i < c.desiredCapacity)
    {
      OthersSame(w, w', c.binding.members[n], c.binding.members[i]);
      assert IsMember(w.pool.value, c.binding.members[i]);
      SameMemberSameTurn(w, w', log, log', c.binding.members[i], i < c.desiredCapacity);
      SameTurnTwice(was, w, w', c.binding.members[i], i < c.desiredCapacity);
    }
  }

  lemma LoweredStay(c: Contract, was: World, w: World, w': World, fates: seq<Fate>, fate: Fate)
    requires UnitsLowered(c, was, w, fates) && |fates| < |c.binding.members| && DistinctMembers(c.binding.members)
    requires Aside(w, w', c.binding.members[|fates|])
    requires fate == LeftDraining ==>
               UnitOf(w', c.binding.members[|fates|].id) == LoweredUnit(was, c.binding.members[|fates|])
    ensures UnitsLowered(c, was, w', fates + [fate])
  {
    hide LoweredUnit;
  }

  /** One more turn. */
  lemma PassGoesOn(c: Contract, was: World, acts: seq<Event>, w: World, w': World, log: Log, log': Log,
                   fates: seq<Fate>, fate: Fate)
    requires QuietPass(c, was, acts, w, log, fates) && |fates| < |c.binding.members|
    requires Inv(w, log) && Inv(w', log') && w.pool.Some? && w.pool.value.binding == c.binding
    requires DistinctMembers(c.binding.members)
    requires Settles(w, c.binding.members[|fates|], |fates| < c.desiredCapacity)
    requires Turned(c, w, w', Acts(log), log', |fates|, fate)
    ensures QuietPass(c, was, acts, w', log', fates + [fate])
  {
    hide Inv, OthersKept, Aside, Settles, QuietFate, StepActs, LoweredUnit, Acts;
    var n := |fates|;
    var m, wanted := c.binding.members[n], n < c.desiredCapacity;
    assert SameTurn(was, w, m, wanted);
    AheadStays(c, was, w, w', log, log', n);
    LoweredStay(c, was, w, w', fates, fate);
    Regrouped(acts, PassActs(c, was, n), StepActs(was, m, wanted));
  }

  /** The body of the loop. */
  method Next(c: Contract, site: Site, state: PoolState, report: Report, i: nat,
              ghost before: Option<PoolState>, ghost fates: seq<Fate>)
      returns (r: Result<(PoolState, Report)>, ghost fate: Fate)
    requires site.Valid() && site.world.pool == Some(state) && i == |fates| < |c.binding.members|
    requires Progress(c, before, site.world, fates) && DistinctMembers(c.binding.members)
    requires report == ReportOf(c.binding.members, fates)
    modifies site
    ensures site.Valid() && (r.Survived() ==> NothingLeftFrozen(old(site.log), site.log))
    ensures r.Ok? ==> site.world.pool == Some(r.value.0) && Progress(c, before, site.world, fates + [fate])
    ensures r.Ok? ==> r.value.1 == ReportOf(c.binding.members, fates + [fate])
    ensures site.quiet && old(AllReady(c, site.world)) ==>
              && r.Ok? && r.value.0 == state && site.world == old(site.world)
              && OnlyLooked(old(site.log), site.log, state)
              && fate == (if i < c.desiredCapacity then MadeReady else Skipped)
    // On a quiet site: exactly when the member settles, and how.
    ensures site.quiet ==>
              && (r.Ok? <==> old(Settles(site.world, c.binding.members[i], i < c.desiredCapacity)))
              && (r.Ok? ==> Turned(c, old(site.world), site.world, old(Acts(site.log)), site.log, i, fate))
    ensures Acts(old(site.log)) <= Acts(site.log)
  {
    var m, wanted := c.binding.members[i], i < c.desiredCapacity;
    assert IsMember(state, m);
    if AllReady(c, site.world) {
      MemberReady(c, site.world, i);
    }
    hide Inv, AllReady, Progress, OthersKept, ReportOf, Finished, Settles, QuietFate, StepActs, LoweredUnit, Aside;
    fate := Skipped;
    var step :- Step(site, state, m, wanted);
    fate := step.1;
    ProgressKept(c, before, old(site.world), site.world, fates, fate);
    var report' := Enter(c, report, m, step.1, fates);
    return Ok((step.0, report')), fate;
  }

  /** The report with one more member's fate. */
  method Enter(c: Contract, report: Report, m: Member, fate: Fate, ghost fates: seq<Fate>) returns (r: Report)
    requires |fates| < |c.binding.members| && m == c.binding.members[|fates|]
    requires report == ReportOf(c.binding.members, fates)
    ensures r == ReportOf(c.binding.members, fates + [fate])
  {
    ListedNext(c.binding.members, fates, fate, MadeReady);
    ListedNext(c.binding.members, fates, fate, LeftDraining);
    ListedNext(c.binding.members, fates, fate, Fate.Retired);
    match fate
    case Skipped => return report;
    case MadeReady => return report.(ready := report.ready + [m.id]);
    case LeftDraining => return report.(draining := report.draining + [m.id]);
    case Retired => return report.(retired := report.retired + [m.id]);
  }

  lemma MoreFates(c: Contract, fates: seq<Fate>)
    requires FatesWhenAllReady(c, fates)
    ensures FatesWhenAllReady(c, fates + [if |fates| < c.desiredCapacity then MadeReady else Skipped])
  {
  }

  lemma FrozenTwice(a: Log, b: Log, c: Log)
    requires NothingLeftFrozen(a, b) && NothingLeftFrozen(b, c)
    ensures NothingLeftFrozen(a, c)
  {
  }

  /** Progress depends on the records before the pass only. */
  lemma ProgressRebased(c: Contract, a: Option<PoolState>, b: Option<PoolState>, w: World, fates: seq<Fate>)
    requires Progress(c, a, w, fates) && forall id :: RecordIn(a, id) == RecordIn(b, id)
    ensures Progress(c, b, w, fates)
  {
  }

  lemma ProgressBinding(c: Contract, before: Option<PoolState>, w: World, fates: seq<Fate>)
    requires Progress(c, before, w, fates)
    ensures w.pool.Some? && w.pool.value.binding == c.binding
  {
  }

  /** What a pass over a quiet site comes to. It returns exactly when every member settles; then
      each met its fate, nothing else was done outside pool.json, and the units of the members
      left draining are as they should be. Otherwise it stops at the first that does not, after
      everything that the members before it asked for. */
  ghost predicate SweptQuietly(c: Contract, was: World, acts: seq<Event>, w: World, log: Log, r: Result<Report>,
                               fates: seq<Fate>) {
    && SettledSoFar(c, was, fates)
    && (if r.Ok? then |fates| == |c.binding.members|
        else |fates| < |c.binding.members|
             && !Settles(was, c.binding.members[|fates|], |fates| < c.desiredCapacity))
    && acts + PassActs(c, was, |fates|) <= Acts(log)
    && (r.Ok? ==> Acts(log) == acts + PassActs(c, was, |fates|) && UnitsLowered(c, was, w, fates))
  }

  lemma PassStops(c: Contract, was: World, acts: seq<Event>, w: World, log: Log, w': World, log': Log,
                  r: Result<Report>, fates: seq<Fate>)
    requires QuietPass(c, was, acts, w, log, fates) && r.Stop? && |fates| < |c.binding.members|
    requires !Settles(w, c.binding.members[|fates|], |fates| < c.desiredCapacity) && Acts(log) <= Acts(log')
    ensures SweptQuietly(c, was, acts, w', log', r, fates)
  {
    hide Settles, QuietFate, StepActs, LoweredUnit, Acts;
    assert SameTurn(was, w, c.binding.members[|fates|], |fates| < c.desiredCapacity);
  }

  lemma PassEnds(c: Contract, was: World, acts: seq<Event>, w: World, log: Log, report: Report, fates: seq<Fate>)
    requires QuietPass(c, was, acts, w, log, fates) && |fates| == |c.binding.members|
    ensures SweptQuietly(c, was, acts, w, log, Ok(report), fates)
  {
    hide Settles, QuietFate, StepActs, LoweredUnit, Acts;
  }

  method Sweep(c: Contract, site: Site, claimed: PoolState) returns (r: Result<Report>, ghost fates: seq<Fate>)
    requires site.Valid() && site.world.pool == Some(claimed) && claimed.binding == c.binding
    requires DistinctMembers(c.binding.members)
    modifies site
    ensures site.Valid() && (r.Survived() ==> NothingLeftFrozen(old(site.log), site.log))
    ensures r.Ok? ==> |fates| == |c.binding.members| && r.value == ReportOf(c.binding.members, fates)
    ensures r.Ok? ==> Progress(c, Some(claimed), site.world, fates)
    ensures site.quiet && old(AllReady(c, site.world)) ==>
              && r.Ok? && site.world == old(site.world) && OnlyLooked(old(site.log), site.log, claimed)
              && FatesWhenAllReady(c, fates)
    ensures site.quiet ==> SweptQuietly(c, old(site.world), old(Acts(site.log)), site.world, site.log, r, fates)
  {
    var state, report, members := claimed, Report([], [], []), c.binding.members;
    fates := [];
    ghost var steady := site.quiet && AllReady(c, site.world);
    assert Progress(c, Some(claimed), site.world, fates);
    assert report == ReportOf(members, fates) && OnlyLooked(site.log, site.log, claimed);
    assert FatesWhenAllReady(c, fates) && NothingLeftFrozen(site.log, site.log);
    PassStarts(c, site.world, site.log);
    ghost var acts := Acts(site.log);
    hide Inv, AllReady, Progress, ReportOf, OnlyLooked, FatesWhenAllReady, NothingLeftFrozen, QuietPass, Turned, Acts;
    hide Settles, SweptQuietly;
    for i := 0 to |members|
      invariant site.Valid() && site.world.pool == Some(state)
      invariant |fates| == i && Progress(c, Some(claimed), site.world, fates)
      invariant NothingLeftFrozen(old(site.log), site.log)
      invariant report == ReportOf(members, fates)
      invariant steady ==> site.world == old(site.world) && OnlyLooked(old(site.log), site.log, claimed)
      invariant steady ==> FatesWhenAllReady(c, fates)
      invariant site.quiet ==> QuietPass(c, old(site.world), acts, site.world, site.log, fates)
    {
      ghost var w, log := site.world, site.log;
      ProgressBinding(c, Some(claimed), site.world, fates);
      if steady {
        MoreFates(c, fates);
      }
      var next, fate := Next(c, site, state, report, i, Some(claimed), fates);
      if next.Survived() {
        FrozenTwice(old(site.log), log, site.log);
      }
      if next.Stop? {
        if site.quiet {
          PassStops(c, old(site.world), acts, w, log, site.world, site.log, Stop(next.halt), fates);
        }
        return Stop(next.halt), fates;
      }
      if site.quiet {
        PassGoesOn(c, old(site.world), acts, w, site.world, log, site.log, fates, fate);
      }
      if steady {
        LookedTwice(old(site.log), log, site.log, claimed);
      }
      state, report, fates := next.value.0, next.value.1, fates + [fate];
    }
    if site.quiet {
      PassEnds(c, old(site.world), acts, site.world, site.log, report, fates);
    }
    return Ok(report), fates;
  }

  ghost predicate AllSettle(c: Contract, w: World) {
    forall i :: 0 <= i < |c.binding.members| ==> Settles(w, c.binding.members[i], i < c.desiredCapacity)
  }

  /** Claiming changes no record. */
  lemma ClaimedTurn(w: World, w': World, m: Member, wanted: bool)
    requires w' == w.(pool := w'.pool) && RecordIn(w'.pool, m.id) == RecordIn(w.pool, m.id)
    requires w.pool.Some? ==> w'.pool.Some? && w'.pool.value.binding == w.pool.value.binding
    ensures Settles(w', m, wanted) == Settles(w, m, wanted) && QuietFate(w', m, wanted) == QuietFate(w, m, wanted)
    ensures StepActs(w', m, wanted) == StepActs(w, m, wanted) && LoweredUnit(w', m) == LoweredUnit(w, m)
  {
    assert Named(w', m.name) == Named(w, m.name);
    assert MarkersOf(w', m.id) == MarkersOf(w, m.id) && UnitOf(w', m.id) == UnitOf(w, m.id);
  }

  lemma {:induction false} SamePassActs(c: Contract, w: World, w': World, n: nat)
    requires n <= |c.binding.members|
    requires forall i :: 0 <= i < n ==>
               StepActs(w', c.binding.members[i], i < c.desiredCapacity)
               == StepActs(w, c.binding.members[i], i < c.desiredCapacity)
    ensures PassActs(c, w', n) == PassActs(c, w, n)
  {
    if n > 0 {
      SamePassActs(c, w, w', n - 1);
    }
  }

  lemma SweptFromStart(c: Contract, was: World, w0: World, acts: seq<Event>, w: World, log: Log, r: Result<Report>,
                       fates: seq<Fate>)
    requires w0 == was.(pool := w0.pool) && forall id :: RecordIn(w0.pool, id) == RecordIn(was.pool, id)
    requires was.pool.Some? ==> w0.pool.Some? && w0.pool.value.binding == was.pool.value.binding
    requires SweptQuietly(c, w0, acts, w, log, r, fates)
    ensures SweptQuietly(c, was, acts, w, log, r, fates) && (r.Ok? <==> AllSettle(c, was))
  {
    hide Settles, QuietFate, StepActs, LoweredUnit, Acts;
    forall i | 0 <= i < |c.binding.members|
      ensures var m, wanted := c.binding.members[i], i < c.desiredCapacity;
              && Settles(w0, m, wanted) == Settles(was, m, wanted)
              && QuietFate(w0, m, wanted) == QuietFate(was, m, wanted)
              && StepActs(w0, m, wanted) == StepActs(was, m, wanted) && LoweredUnit(w0, m) == LoweredUnit(was, m)
    {
      ClaimedTurn(was, w0, c.binding.members[i], i < c.desiredCapacity);
    }
    SamePassActs(c, was, w0, |fates|);
  }

  /** Idempotent bounded pass of owner Apply. */
  method Reconcile(c: Contract, site: Site) returns (r: Result<Report>, ghost fates: seq<Fate>)
    requires site.Valid() && DistinctMembers(c.binding.members)
    modifies site
    // Whatever happened, the three stores agree and the whole history is sound.
    ensures site.Valid() && Sound(site.log)
    ensures r.Survived() ==> NothingLeftFrozen(old(site.log), site.log)
    // A request that conflicts with the durable state changes nothing.
    ensures !Admissible(c, old(site.world.pool)) ==>
              r.Stop? && site.world.pool == old(site.world.pool) && NothingCalled(old(site.log), site.log)
    // A normal return: every member met a fate its record and the capacity allow,
    // and the report is that fate.
    ensures r.Ok? ==> |fates| == |c.binding.members| && r.value == ReportOf(c.binding.members, fates)
    ensures r.Ok? ==> Progress(c, old(site.world.pool), site.world, fates)
    // Nothing to do, nothing done.
    ensures site.quiet && old(AllReady(c, site.world)) ==>
              && r.Ok? && site.world == old(site.world)
              && OnlyLooked(old(site.log), site.log, Claimed(c, site.world.pool))
              && FatesWhenAllReady(c, fates)
    // On a quiet site it returns exactly when the request is admissible and every member
    // settles; each member then met the fate it had to, and nothing else was done.
    ensures site.quiet ==>
              (r.Ok? <==> Admissible(c, old(site.world.pool)) && AllSettle(c, old(site.world)))
    ensures site.quiet && Admissible(c, old(site.world.pool)) ==>
              SweptQuietly(c, old(site.world), old(Acts(site.log)), site.world, site.log, r, fates)
  {
    fates := [];
    ghost var steady := site.quiet && AllReady(c, site.world);
    assert steady ==> old(site.world).(pool := Some(Claimed(c, site.world.pool))) == old(site.world);
    ghost var was, acts := site.world, Acts(site.log);
    hide Inv, AllReady, Progress, FatesWhenAllReady, ReportOf, OnlyLooked, Sound, SweptQuietly, AllSettle, Acts;
    BaseBinding(c, site.world.pool);
    hide Admissible, Claimed;
    var claimed := Begin(c, site);
    SiteIsSound(site.world, site.log);
    if claimed.Stop? {
      return Stop(claimed.halt), fates;
    }
    ghost var w0, log := site.world, site.log;
    r, fates := Sweep(c, site, claimed.value);
    if site.quiet {
      SweptFromStart(c, was, w0, acts, site.world, site.log, r, fates);
    }
    SiteIsSound(site.world, site.log);
    if r.Ok? {
      ProgressRebased(c, Some(claimed.value), old(site.world.pool), site.world, fates);
    }
    if steady {
      LookedTwice(old(site.log), log, site.log, claimed.value);
    }
  }

  lemma SiteIsSound(w: World, log: Log)
    requires Inv(w, log)
    ensures Sound(log)
  {
    LawfulIsSound(log);
  }

  /** The report lists a member exactly when it met that fate. */
  lemma {:induction false} ListedExactly(members: seq<Member>, fates: seq<Fate>, fate: Fate, id: string)
    requires |fates| <= |members|
    ensures id in Listed(members, fates, fate)
            <==> exists i :: 0 <= i < |fates| && fates[i] == fate && members[i].id == id
    decreases |fates|
  {
    if fates != [] {
      var last := |fates| - 1;
      ListedExactly(members, fates[..last], fate, id);
      assert forall i :: 0 <= i < last ==> fates[..last][i] == fates[i];
      if fates[last] == fate && members[last].id == id {
        assert id in Listed(members, fates, fate);
      }
    }
  }

  /** No member is reported twice. */
  lemma ListsDisjoint(members: seq<Member>, fates: seq<Fate>, a: Fate, b: Fate, id: string)
    requires |fates| <= |members| && DistinctMembers(members) && a != b
    ensures !(id in Listed(members, fates, a) && id in Listed(members, fates, b))
  {
    ListedExactly(members, fates, a, id);
    ListedExactly(members, fates, b, id);
  }

  /** What a normal return promises, member by member, in terms of the report alone. */
  lemma ReportMeans(c: Contract, before: Option<PoolState>, w: World, fates: seq<Fate>, i: nat)
    requires Progress(c, before, w, fates) && i < |fates| == |c.binding.members| && DistinctMembers(c.binding.members)
    ensures var m, report, record := c.binding.members[i], ReportOf(c.binding.members, fates),
                                     RecordIn(before, c.binding.members[i].id);
            && (m.id in report.ready ==> InPhase(w, m.id, Ready) && Held(w, m))
            && (m.id in report.draining ==> InPhase(w, m.id, Draining) && Held(w, m))
            && (m.id in report.retired ==> !Recorded(w, m.id) && !MetadataPresent(MarkersOf(w, m.id)))
            && (i < c.desiredCapacity ==>
                  if record.Some? && record.value.phase == Remove then m.id in report.retired else m.id in report.ready)
            && (i >= c.desiredCapacity ==>
                  && m.id !in report.ready
                  && (Recorded(w, m.id) <==> m.id in report.draining)
                  && (m.id !in report.draining && record.Some? <==> m.id in report.retired))
  {
    var members, m := c.binding.members, c.binding.members[i];
    ListedExactly(members, fates, MadeReady, m.id);
    ListedExactly(members, fates, LeftDraining, m.id);
    ListedExactly(members, fates, Fate.Retired, m.id);
    assert FateHolds(w, m, fates[i]) && FateAllowed(RecordIn(before, m.id), i < c.desiredCapacity, fates[i]);
    assert members[i].id == m.id;
    assert forall j :: 0 <= j < |fates| && members[j].id == m.id ==> j == i;
  }

  // ---- Any number of passes ----

  /** Owner Apply run again and again, with any requests, however each run ended. */
  method Operate(site: Site, requests: seq<Contract>)
    requires site.Valid() && forall c <- requests :: DistinctMembers(c.binding.members)
    modifies site
    ensures site.Valid() && Sound(site.log)
  {
    hide Inv, Sound;
    for i := 0 to |requests|
      invariant site.Valid()
    {
      site.Interfere();
      var report, _ := Reconcile(requests[i], site);
    }
    SiteIsSound(site.world, site.log);
  }
}
