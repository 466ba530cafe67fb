/** The shared world of the managed General Runner pool, as plain values:
    GitHub's runner list, each member's local registration files, its systemd
    unit and cgroup, and the durable pool.json. */
module PoolModel {
  import opened Effects

  // ---- What owner Apply is asked for (deploy/managed_pool.py, pool_contract) ----

  /** `tag` is a GitHub label name. */
  datatype Member = Member(id: string, name: string, tag: string, root: string, state: string, service: string)

  datatype Binding = Binding(
    version: nat, name: string, runnerUser: string, organization: string, group: string,
    appId: nat, installationId: nat, tag: string, members: seq<Member>)

  datatype Contract = Contract(
    binding: Binding, desiredCapacity: int, repository: string, repositories: seq<string>,
    consumer: ConsumerBinding)

  datatype ConsumerBinding = ConsumerBinding(namespace: string, admission: string)

  // ---- Durable state ----

  datatype Phase = Register | Registered | Starting | Ready | Draining | Remove

  datatype Record = Record(phase: Phase, runnerId: Option<nat>)

  datatype PoolState = PoolState(
    binding: Binding, ownerRepository: string, desiredCapacity: int,
    consumers: map<string, ConsumerBinding>, members: map<string, Record>)

  // ---- The outside world ----

  datatype Label = Label(name: string, custom: bool)

  /** `busy`: GitHub assigned a job to the runner and has not closed it, whether or not the
      listener has accepted it. */
  datatype Runner = Runner(name: string, labels: set<Label>, busy: bool, online: bool)

  /** Every id GitHub ever issued, with its immutable name; `owner` is the pool
      member whose config.sh obtained it, if any. */
  datatype Issue = Issue(name: string, owner: Option<string>)

  /** `.runner`; `bound` stands for its url, group and work folder fields. */
  datatype MarkerFile = MarkerFile(agentId: int, agentName: string, bound: bool)

  datatype Markers = Markers(runner: Option<MarkerFile>, credentials: bool, rsa: bool)

  datatype ActiveState = Active | Inactive | Failed | Changing

  datatype Process = RunScript | RunHelper | Listener | Worker

  /** A unit and its cgroup. `stopping`: a stop was requested since the last start.
      `signalled`: SIGTERM was sent to every process since the last start.
      `job`: the listener accepted a job that has not completed; its worker process may
      not have started yet. */
  datatype Unit = Unit(active: ActiveState, main: bool, control: bool, frozen: bool,
                       stopping: bool, signalled: bool, procs: set<Process>, job: bool)

  datatype World = World(
    runners: map<nat, Runner>, issued: map<nat, Issue>, markers: map<string, Markers>,
    units: map<string, Unit>, pool: Option<PoolState>)

  const NO_MARKERS := Markers(None, false, false)
  const NO_UNIT := Unit(Inactive, false, false, false, false, false, {}, false)

  function Entry<T>(table: map<string, T>, id: string, absent: T): T {
    if id in table then table[id] else absent
  }

  function MarkersOf(w: World, id: string): Markers {
    Entry(w.markers, id, NO_MARKERS)
  }

  function UnitOf(w: World, id: string): Unit {
    Entry(w.units, id, NO_UNIT)
  }

  ghost predicate FilesKeptBut(w: World, w': World, id: string) {
    forall k :: k != id ==> Entry(w'.markers, k, NO_MARKERS) == Entry(w.markers, k, NO_MARKERS)
  }

  predicate Recorded(w: World, id: string) {
    w.pool.Some? && id in w.pool.value.members
  }

  predicate InPhase(w: World, id: string, phase: Phase) {
    Recorded(w, id) && w.pool.value.members[id].phase == phase
  }

  // ---- Pure checks of the Host class ----

  datatype Registration = Ambiguous | Absent | Present(id: nat)

  /** `Host.registration`. */
  function RegistrationOf(files: Markers, member: Member): Registration {
    if files.runner.Some? != files.credentials then Ambiguous
    else if files.runner.None? then (if files.rsa then Ambiguous else Absent)
    else
      var file := files.runner.value;
      if file.agentName == member.name && file.bound && file.agentId > 0 then Present(file.agentId)
      else Ambiguous
  }

  /** No file at all is no registration; a bound `.runner` of this member with its credentials
      is one; everything else is ambiguous. */
  lemma RegistrationMeans(files: Markers, member: Member)
    ensures RegistrationOf(files, member) == Absent <==> files == NO_MARKERS
    ensures forall id: nat :: RegistrationOf(files, member) == Present(id)
              <==> id > 0 && files == Markers(Some(MarkerFile(id, member.name, true)), true, files.rsa)
  {
  }

  /** `Host.registration_metadata_present`. */
  predicate MetadataPresent(files: Markers) {
    files.runner.Some? || files.credentials || files.rsa
  }

  predicate Terminal(u: Unit) {
    u.active == Inactive || u.active == Failed
  }

  /** `Host.removal_stopped`. */
  predicate RemovalStopped(u: Unit) {
    Terminal(u) && !u.main && !u.control && u.procs == {}
  }

  /** Processes of the unit can still act: a unit that is changing state may be one
      systemd has not signalled yet. */
  predicate Running(u: Unit) {
    !u.frozen && (u.active == Active || (u.active == Changing && !u.signalled))
  }

  const IDLE_PROCESSES := {RunScript, RunHelper, Listener}

  predicate Unlabelled(labels: set<Label>) {
    forall tag <- labels :: !tag.custom
  }

  /** Some process of the cgroup holds an accepted job. */
  predicate CanWork(procs: set<Process>) {
    Listener in procs || Worker in procs
  }

  function Named(w: World, name: string): (ids: set<nat>) {
    set id | id in w.runners && w.runners[id].name == name
  }

  // ---- Contracts ----

  ghost predicate DistinctMembers(members: seq<Member>) {
    && (forall i, j :: 0 <= i < j < |members| ==> members[i].id != members[j].id)
    && (forall i, j :: 0 <= i < j < |members| ==> members[i].name != members[j].name)
  }

  ghost predicate IsMember(s: PoolState, m: Member) {
    exists i :: 0 <= i < |s.binding.members| && s.binding.members[i] == m
  }

  ghost predicate InPool(w: World, m: Member) {
    w.pool.Some? && IsMember(w.pool.value, m)
  }

  // ---- What can happen around Apply ----

  /** An accepted job is held by a listener or a worker process of a registered member,
      and for a member of this pool only while GitHub shows its runner busy; a unit
      whose stop was requested is not active. */
  ghost predicate WorldOk(w: World) {
    && (forall id :: UnitOf(w, id).job ==>
          CanWork(UnitOf(w, id).procs) && MarkersOf(w, id).runner.Some?)
    && (forall id :: UnitOf(w, id).job && Recorded(w, id) ==>
          && MarkersOf(w, id).runner.value.agentId in w.runners
          && w.runners[MarkersOf(w, id).runner.value.agentId].busy)
    && (forall id :: UnitOf(w, id).stopping ==> UnitOf(w, id).active != Active)
    && (forall id :: id in w.runners ==> id in w.issued && w.runners[id].name == w.issued[id].name)
  }

  datatype EnvEvent =
    | Connect(runner: nat, online: bool)
    | Assign(runner: nat)                     // GitHub gives the runner a job
    | Settle(runner: nat)                     // GitHub stops showing the runner busy
    | Foreign(runner: nat, value: Runner)     // somebody else registers a runner
    | Withdraw(runner: nat)                   // an idle runner is deleted elsewhere
    | Accept(member: string)                  // the listener takes the assigned job
    | Complete(member: string)                // the job is over
    | Exit(member: string, process: Process)
    | Spawn(member: string, process: Process)
    | Shift(member: string, active: ActiveState, main: bool, control: bool)
    | Unfreeze(member: string)                // systemd thaws a unit it is stopping

  predicate Enabled(w: World, e: EnvEvent) {
    match e
    case Connect(r, _) => r in w.runners
    case Assign(r) => r in w.runners && !Unlabelled(w.runners[r].labels)
    case Settle(r) =>
      && r in w.runners
      && (forall id :: id in w.units && w.units[id].job && MarkersOf(w, id).runner.Some? ==>
            MarkersOf(w, id).runner.value.agentId != r)
    case Foreign(r, _) => r !in w.issued
    case Withdraw(r) => r in w.runners && !w.runners[r].busy
    case Accept(id) =>
      && var u := UnitOf(w, id);
      && Running(u) && Listener in u.procs
      && MarkersOf(w, id).runner.Some? && MarkersOf(w, id).runner.value.agentId in w.runners
      && w.runners[MarkersOf(w, id).runner.value.agentId].busy
    case Complete(id) => !UnitOf(w, id).frozen
    case Exit(id, _) => !UnitOf(w, id).frozen || UnitOf(w, id).stopping
    case Spawn(id, _) => Running(UnitOf(w, id))
    case Shift(id, active, _, _) =>
      && var u := UnitOf(w, id);
      && !Terminal(u) && (u.frozen ==> u.stopping) && (u.stopping ==> active != Active)
    case Unfreeze(id) => UnitOf(w, id).stopping
  }

  function Happen(w: World, e: EnvEvent): (w': World)
    requires Enabled(w, e)
  {
    match e
    case Connect(r, online) => w.(runners := w.runners[r := w.runners[r].(online := online)])
    case Assign(r) => w.(runners := w.runners[r := w.runners[r].(busy := true)])
    case Settle(r) => w.(runners := w.runners[r := w.runners[r].(busy := false)])
    case Foreign(r, value) =>
      w.(runners := w.runners[r := value], issued := w.issued[r := Issue(value.name, None)])
    case Withdraw(r) => w.(runners := w.runners - {r})
    case Accept(id) => w.(units := w.units[id := UnitOf(w, id).(job := true)])
    case Complete(id) => w.(units := w.units[id := UnitOf(w, id).(job := false)])
    case Exit(id, p) =>
      var u := UnitOf(w, id);
      w.(units := w.units[id := u.(procs := u.procs - {p}, job := u.job && CanWork(u.procs - {p}))])
    case Spawn(id, p) =>
      var u := UnitOf(w, id);
      w.(units := w.units[id := u.(procs := u.procs + {p})])
    case Shift(id, active, main, control) =>
      w.(units := w.units[id := UnitOf(w, id).(active := active, main := main, control := control)])
    case Unfreeze(id) => w.(units := w.units[id := UnitOf(w, id).(frozen := false)])
  }

  /** What one unit may have become: a frozen cgroup runs nothing; a signalled,
      stopping unit and a terminal one only lose processes and jobs. */
  ghost predicate UnitDrift(u: Unit, u': Unit) {
    && u'.stopping == u.stopping && u'.signalled == u.signalled && (u'.frozen ==> u.frozen)
    && (u.frozen && !u.stopping ==> u' == u)
    && (u.stopping && u.signalled ==> u'.procs <= u.procs && (u'.job ==> u.job))
    && (Terminal(u) ==> Terminal(u') && u'.procs <= u.procs && (u'.job ==> u.job)
                        && (RemovalStopped(u) ==> RemovalStopped(u')))
  }

  /** GitHub never reuses an id, never renames a runner, never resurrects one, and gives a
      runner without labels no new job; nobody else edits the labels of a listed runner. */
  ghost predicate RunnersDrift(w: World, w': World) {
    && (forall id :: id in w.issued ==> id in w'.issued && w'.issued[id] == w.issued[id])
    && (forall id :: id in w'.issued && id !in w.issued ==> w'.issued[id].owner == None)
    && (forall id :: id in w'.runners && id in w.issued ==>
          && id in w.runners && w'.runners[id].labels == w.runners[id].labels
          && (Unlabelled(w.runners[id].labels) && !w.runners[id].busy ==> !w'.runners[id].busy))
  }

  /** Any number of environment events. */
  ghost predicate Drift(w: World, w': World) {
    && w'.pool == w.pool
    && w'.markers == w.markers
    && RunnersDrift(w, w')
    && (forall id :: UnitDrift(UnitOf(w, id), UnitOf(w', id)))
  }

  function Outcome(w: World, events: seq<EnvEvent>): World
    decreases |events|
  {
    if events == [] then w
    else if Enabled(w, events[0]) then Outcome(Happen(w, events[0]), events[1..])
    else Outcome(w, events[1..])
  }

  /** An event of one unit that leaves GitHub alone. */
  lemma UnitEventDrifts(w: World, id: string, u: Unit)
    requires WorldOk(w) && UnitDrift(UnitOf(w, id), u)
    requires u.job ==> UnitOf(w, id).job && CanWork(u.procs)
    requires u.stopping ==> u.active != Active
    ensures WorldOk(w.(units := w.units[id := u])) && Drift(w, w.(units := w.units[id := u]))
  {
    var w' := w.(units := w.units[id := u]);
    forall k
      ensures UnitDrift(UnitOf(w, k), UnitOf(w', k)) && MarkersOf(w', k) == MarkersOf(w, k)
      ensures UnitOf(w', k) == if k == id then u else UnitOf(w, k)
    {
    }
  }

  /** An event of GitHub's list that keeps every runner with a running job busy. */
  lemma RunnerEventDrifts(w: World, w': World)
    requires WorldOk(w) && w' == w.(runners := w'.runners, issued := w'.issued) && RunnersDrift(w, w')
    requires forall r :: r in w'.runners ==> r in w'.issued && w'.runners[r].name == w'.issued[r].name
    requires forall id :: UnitOf(w, id).job && Recorded(w, id) ==>
               && MarkersOf(w, id).runner.value.agentId in w'.runners
               && w'.runners[MarkersOf(w, id).runner.value.agentId].busy
    ensures WorldOk(w') && Drift(w, w')
  {
    forall k
      ensures UnitOf(w', k) == UnitOf(w, k) && MarkersOf(w', k) == MarkersOf(w, k)
    {
    }
  }

  lemma AcceptDrifts(w: World, id: string)
    requires WorldOk(w) && Enabled(w, Accept(id))
    ensures WorldOk(Happen(w, Accept(id))) && Drift(w, Happen(w, Accept(id)))
  {
    var w' := Happen(w, Accept(id));
    forall k
      ensures UnitDrift(UnitOf(w, k), UnitOf(w', k)) && MarkersOf(w', k) == MarkersOf(w, k)
      ensures k != id ==> UnitOf(w', k) == UnitOf(w, k)
      ensures UnitOf(w', k).stopping ==> UnitOf(w', k).active != Active
    {
    }
  }

  lemma SettleDrifts(w: World, r: nat)
    requires WorldOk(w) && Enabled(w, Settle(r))
    ensures WorldOk(Happen(w, Settle(r))) && Drift(w, Happen(w, Settle(r)))
  {
    forall id | UnitOf(w, id).job
      ensures MarkersOf(w, id).runner.value.agentId != r
    {
      assert id in w.units;
    }
    RunnerEventDrifts(w, Happen(w, Settle(r)));
  }

  predicate OfUnit(e: EnvEvent) {
    e.Complete? || e.Exit? || e.Spawn? || e.Shift? || e.Unfreeze?
  }

  lemma UnitHappenDrifts(w: World, e: EnvEvent)
    requires WorldOk(w) && Enabled(w, e) && OfUnit(e)
    ensures WorldOk(Happen(w, e)) && Drift(w, Happen(w, e))
  {
    UnitEventDrifts(w, e.member, Happen(w, e).units[e.member]);
  }

  /** A runner of GitHub's list connects, is assigned a job, joins or leaves. */
  lemma ListHappenDrifts(w: World, e: EnvEvent)
    requires WorldOk(w) && Enabled(w, e) && (e.Connect? || e.Assign? || e.Foreign? || e.Withdraw?)
    ensures WorldOk(Happen(w, e)) && Drift(w, Happen(w, e))
  {
    hide UnitDrift, Drift;
    RunnerEventDrifts(w, Happen(w, e));
  }

  lemma HappenDrifts(w: World, e: EnvEvent)
    requires WorldOk(w) && Enabled(w, e)
    ensures WorldOk(Happen(w, e)) && Drift(w, Happen(w, e))
  {
    hide WorldOk, Drift;
    match e
    case Settle(r) => SettleDrifts(w, r);
    case Accept(id) => AcceptDrifts(w, id);
    case _ =>
      if OfUnit(e) {
        UnitHappenDrifts(w, e);
      } else {
        ListHappenDrifts(w, e);
      }
  }

  lemma DriftTransitive(a: World, b: World, c: World)
    requires Drift(a, b) && Drift(b, c)
    ensures Drift(a, c)
  {
    forall id
      ensures UnitDrift(UnitOf(a, id), UnitOf(c, id))
    {
      assert UnitDrift(UnitOf(a, id), UnitOf(b, id)) && UnitDrift(UnitOf(b, id), UnitOf(c, id));
    }
  }

  /** Every run of the environment, of any length, stays within `Drift`. */
  lemma {:induction false} EveryRunDrifts(w: World, events: seq<EnvEvent>)
    requires WorldOk(w)
    ensures WorldOk(Outcome(w, events)) && Drift(w, Outcome(w, events))
    decreases |events|
  {
    if events != [] {
      if Enabled(w, events[0]) {
        HappenDrifts(w, events[0]);
        var next := Happen(w, events[0]);
        EveryRunDrifts(next, events[1..]);
        DriftTransitive(w, next, Outcome(next, events[1..]));
      } else {
        EveryRunDrifts(w, events[1..]);
      }
    }
  }

  /** Whatever happens around Apply, the runner gets no job. */
  ghost predicate StaysIdle(w: World, r: nat) {
    forall events: seq<EnvEvent> :: var w' := Outcome(w, events); r in w'.runners ==> !w'.runners[r].busy
  }

  /** A listed runner is safe from new jobs exactly when its labels are gone and it is not
      busy: why draining removes the labels before it looks. */
  lemma SafeExactlyWhenDrained(w: World, r: nat)
    requires WorldOk(w) && r in w.runners
    ensures StaysIdle(w, r) <==> Unlabelled(w.runners[r].labels) && !w.runners[r].busy
  {
    if Unlabelled(w.runners[r].labels) && !w.runners[r].busy {
      forall events: seq<EnvEvent>
        ensures var w' := Outcome(w, events); r in w'.runners ==> !w'.runners[r].busy
      {
        EveryRunDrifts(w, events);
      }
    } else {
      var events := if w.runners[r].busy then [] else [Assign(r)];
      assert !w.runners[r].busy ==> Outcome(Happen(w, Assign(r)), []) == Happen(w, Assign(r));
      assert r in Outcome(w, events).runners && Outcome(w, events).runners[r].busy;
    }
  }
}
