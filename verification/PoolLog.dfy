/** The history of what owner Apply did to the pool, and what every history obeys.

    An entry keeps the world as it was when the call was issued, so a law about a
    call is a law about the state it hit. The history spans every Apply ever run,
    however each of them ended. */
module PoolLog {
  import opened Effects
  import opened PoolModel
  import PoolPages

  /** What reconcile asks code and services that are not part of this model. */
  datatype Question = Qualified | Token | InGroup(runner: nat) | AttemptsIdle

  datatype Event =
    | Answered(question: Question, yes: bool)
    // one request for GitHub's list: its page, how many are listed, and how many were at page 1
    | ListRead(page: nat, rows: nat, first: nat)
    | SawReady(member: Member, id: nat, seen: Runner)   // wait_ready is satisfied
    | Wrote(state: PoolState)                     // pool.json replaced
    | Configured(member: Member)                  // config.sh, registering
    | Unconfigured(member: Member)                // config.sh remove
    | Forgot(member: Member)                      // config.sh remove --local
    | Retired(member: Member)
    | Labelled(member: Member, runner: nat, tags: set<string>)
    | Started(member: Member)
    | Freezing(member: Member)
    | Froze(member: Member)                       // the freeze command succeeded
    | SawIdle(member: Member, idle: bool)         // remote_idle
    | Terminated(member: Member)                  // SIGTERM to the whole cgroup
    | StopRequested(member: Member)
    | Thawing(member: Member)

  datatype Log = Empty | Then(before: Log, event: Event, world: World)

  function Durable(log: Log): Option<PoolState> {
    match log
    case Empty => None
    case Then(before, event, _) => if event.Wrote? then Some(event.state) else Durable(before)
  }

  /** Registering config.sh calls in the current lifetime of the member's record. */
  function Registrations(log: Log, id: string): nat {
    match log
    case Empty => 0
    case Then(before, event, _) =>
      if event.Wrote? && id !in event.state.members then 0
      else (if event.Configured? && event.member.id == id then 1 else 0) + Registrations(before, id)
  }

  /** Removing config.sh calls in the current lifetime of the member's record. */
  function Removals(log: Log, id: string): nat {
    match log
    case Empty => 0
    case Then(before, event, _) =>
      if event.Wrote? && id !in event.state.members then 0
      else (if event.Unconfigured? && event.member.id == id then 1 else 0) + Removals(before, id)
  }

  /** The last remote read since the member was last frozen found it idle. */
  predicate IdleSinceFreeze(log: Log, id: string) {
    match log
    case Empty => false
    case Then(before, event, _) =>
      if (event.Freezing? || event.Thawing?) && event.member.id == id then false
      else if event.SawIdle? && event.member.id == id then event.idle
      else IdleSinceFreeze(before, id)
  }

  /** A freeze of the member succeeded and no thaw was attempted since. */
  predicate LeftFrozen(log: Log, id: string) {
    match log
    case Empty => false
    case Then(before, event, _) =>
      if event.Froze? && event.member.id == id then true
      else if event.Thawing? && event.member.id == id then false
      else LeftFrozen(before, id)
  }

  /** Since the last durable write every registered repository had no active attempt. */
  predicate AttemptsIdleNow(log: Log) {
    log.Then? && !log.event.Wrote?
    && if log.event.Answered? && log.event.question == AttemptsIdle then log.event.yes else AttemptsIdleNow(log.before)
  }

  /** The runner was seen in the runner group. */
  predicate SeenInGroup(log: Log, r: nat) {
    log.Then? && (log.event == Answered(InGroup(r), true) || SeenInGroup(log.before, r))
  }

  /** Whenever the pass that is under way began to read GitHub's list, at most one page of
      runners was listed. A pass begins with the question whether the pool qualifies. */
  predicate ShortLists(log: Log) {
    log.Then? ==>
      if log.event.Answered? && log.event.question == Qualified then true
      else (log.event.ListRead? ==> log.event.first <= PoolPages.PAGE) && ShortLists(log.before)
  }

  /** In the pass that is under way, every request for GitHub's list belonged to a reading that
      began with at most one page of runners, or found no two runners of this name listed. */
  ghost predicate Clean(log: Log, name: string) {
    log.Then? ==>
      if log.event.Answered? && log.event.question == Qualified then true
      else (log.event.ListRead? ==> log.event.first <= PoolPages.PAGE || |Named(log.world, name)| <= 1)
           && Clean(log.before, name)
  }

  /** The entry belongs to the pass that is under way. */
  ghost predicate InThisPass(entry: Log, log: Log) {
    && entry.Then? && log.Then? && !(log.event.Answered? && log.event.question == Qualified)
    && (entry == log || InThisPass(entry, log.before))
  }

  /** Both conditions speak of every request of the pass under way, and of nothing else. */
  lemma {:induction false} ConditionsMean(log: Log, name: string)
    ensures ShortLists(log)
            <==> forall entry: Log :: InThisPass(entry, log) && entry.event.ListRead? ==>
                   entry.event.first <= PoolPages.PAGE
    ensures Clean(log, name)
            <==> forall entry: Log :: InThisPass(entry, log) && entry.event.ListRead? ==>
                   entry.event.first <= PoolPages.PAGE || |Named(entry.world, name)| <= 1
  {
    if log.Then? && !(log.event.Answered? && log.event.question == Qualified) {
      ConditionsMean(log.before, name);
      assert InThisPass(log, log);
      assert forall entry: Log :: InThisPass(entry, log) <==> entry == log || InThisPass(entry, log.before);
    } else {
      assert forall entry: Log :: !InThisPass(entry, log);
    }
  }

  lemma {:induction false} ShortIsClean(log: Log, name: string)
    requires ShortLists(log)
    ensures Clean(log, name)
  {
    if log.Then? && !(log.event.Answered? && log.event.question == Qualified) {
      ShortIsClean(log.before, name);
    }
  }

  /** The history only grew, and if the lists still are short, or the name clean, they were before. */
  ghost predicate Trusts(before: Log, after: Log) {
    && Acts(before) <= Acts(after) && (ShortLists(after) ==> ShortLists(before))
    && forall name :: Clean(after, name) ==> Clean(before, name)
  }

  /** What a call leaves as it was: what is frozen, and whether a list could mislead. */
  ghost predicate Continues(before: Log, after: Log) {
    (forall k :: LeftFrozen(after, k) == LeftFrozen(before, k)) && Trusts(before, after)
  }

  lemma SameHistory(log: Log)
    ensures Continues(log, log)
  {
  }

  lemma ContinuesTwice(a: Log, b: Log, c: Log)
    requires Continues(a, b) && Continues(b, c)
    ensures Continues(a, c)
  {
  }

  /** Only requests for GitHub's list. */
  predicate ReadList(before: Log, after: Log) {
    after == before || (after.Then? && after.event.ListRead? && ReadList(before, after.before))
  }

  lemma {:induction false} ReadContinues(before: Log, after: Log)
    requires ReadList(before, after)
    ensures Continues(before, after) && (AttemptsIdleNow(before) ==> AttemptsIdleNow(after))
    decreases after
  {
    if after != before {
      ReadContinues(before, after.before);
    }
  }

  /** Everything that was called to change something outside pool.json, oldest first. */
  function Acts(log: Log): seq<Event> {
    match log
    case Empty => []
    case Then(before, event, _) =>
      Acts(before) + if Look(event) || event.SawIdle? || event.Wrote? then [] else [event]
  }

  lemma {:induction false} ReadActs(before: Log, after: Log)
    requires ReadList(before, after)
    ensures Acts(after) == Acts(before)
    decreases after
  {
    if after != before {
      ReadActs(before, after.before);
    }
  }

  /** The last thing that happened is that the member was seen ready. */
  predicate JustReady(log: Log, id: string) {
    log.Then? && log.event.SawReady? && log.event.member.id == id
  }

  predicate Look(event: Event) {
    event.Answered? || event.ListRead? || event.SawReady?
  }

  /** Nothing was called between the two points: reconcile only looked, and replaced
      pool.json by what it already held. */
  ghost predicate OnlyLooked(before: Log, after: Log, state: PoolState) {
    || before == after
    || (&& after.Then? && (after.event == Wrote(state) || Look(after.event))
        && OnlyLooked(before, after.before, state))
  }

  lemma OneLook(before: Log, after: Log, state: PoolState)
    requires after.Then? && after.before == before
    requires after.event == Wrote(state) || Look(after.event)
    ensures OnlyLooked(before, after, state)
  {
    assert OnlyLooked(before, before, state);
  }

  lemma {:induction false} LookedTwice(a: Log, b: Log, c: Log, state: PoolState)
    requires OnlyLooked(a, b, state) && OnlyLooked(b, c, state)
    ensures OnlyLooked(a, c, state)
    decreases c
  {
    if b != c {
      LookedTwice(a, b, c.before, state);
    }
  }

  /** Nothing was even written. */
  ghost predicate OnlyRead(before: Log, after: Log) {
    before == after || (after.Then? && Look(after.event) && OnlyRead(before, after.before))
  }

  lemma {:induction false} ReadIsRead(before: Log, after: Log)
    requires ReadList(before, after)
    ensures OnlyRead(before, after)
    decreases after
  {
    if after != before {
      ReadIsRead(before, after.before);
    }
  }

  lemma OneRead(before: Log, after: Log)
    requires ReadList(before, after) || (after.Then? && after.before == before && after.event.SawReady?)
    ensures OnlyRead(before, after) && Continues(before, after) && Acts(after) == Acts(before)
  {
    if ReadList(before, after) {
      ReadActs(before, after);
      ReadIsRead(before, after);
      ReadContinues(before, after);
    } else {
      assert OnlyRead(before, before);
    }
  }

  lemma {:induction false} ReadTwice(a: Log, b: Log, c: Log)
    requires OnlyRead(a, b) && OnlyRead(b, c)
    ensures OnlyRead(a, c)
    decreases c
  {
    if b != c {
      ReadTwice(a, b, c.before);
    }
  }

  lemma {:induction false} ReadingIsLooking(before: Log, after: Log, state: PoolState)
    requires OnlyRead(before, after)
    ensures OnlyLooked(before, after, state)
    decreases after
  {
    if before != after {
      ReadingIsLooking(before, after.before, state);
    }
  }

  // ---- The durable state machine ----

  predicate RecordOk(record: Record) {
    record.runnerId.None? <==> record.phase == Register
  }

  /** The coded phase graph; None is an absent record. */
  predicate PhaseStep(old_: Option<Record>, new_: Option<Record>) {
    || old_ == new_
    || (old_.None? && new_ == Some(Record(Register, None)))
    || (old_.Some? && old_.value.phase == Remove && new_.None?)
    || (old_.Some? && new_.Some? && old_.value.phase == Register && new_.value.phase == Registered)
    || (old_.Some? && new_.Some? && old_.value.runnerId == new_.value.runnerId &&
        match old_.value.phase
        case Register => false
        case Registered => new_.value.phase in {Starting, Draining}
        case Starting => new_.value.phase in {Ready, Draining}
        case Ready => new_.value.phase == Draining
        case Draining => new_.value.phase in {Starting, Remove}
        case Remove => false)
  }

  function RecordIn(state: Option<PoolState>, id: string): Option<Record> {
    if state.Some? && id in state.value.members then Some(state.value.members[id]) else None
  }

  ghost predicate WriteOk(old_: Option<PoolState>, state: PoolState) {
    && (forall id :: PhaseStep(RecordIn(old_, id), RecordIn(Some(state), id)))
    && (old_.Some? ==> state.binding == old_.value.binding)
  }

  /** A record becomes `ready` only right after the member was seen ready. */
  ghost predicate ReadyEarned(before: Log, old_: Option<PoolState>, state: PoolState) {
    forall id :: InReady(Some(state), id) && !InReady(old_, id) ==> JustReady(before, id)
  }

  predicate InRemove(state: Option<PoolState>, id: string) {
    RecordIn(state, id).Some? && RecordIn(state, id).value.phase == Remove
  }

  predicate InReady(state: Option<PoolState>, id: string) {
    RecordIn(state, id).Some? && RecordIn(state, id).value.phase == Ready
  }

  // ---- Laws of single calls ----

  ghost predicate RunnerUnlabelled(w: World, id: string) {
    Recorded(w, id) && var r := w.pool.value.members[id].runnerId;
    r.Some? && r.value in w.issued && (r.value in w.runners ==> Unlabelled(w.runners[r.value].labels))
  }

  /** No job is assigned to this runner, and none will be. */
  ghost predicate Drained(w: World, r: nat) {
    r in w.issued && (r in w.runners ==> Unlabelled(w.runners[r].labels) && !w.runners[r].busy)
  }

  /** No job is assigned to the member's runner, and none will be. */
  ghost predicate RunnerDrained(w: World, id: string) {
    Recorded(w, id) && var r := w.pool.value.members[id].runnerId;
    r.Some? && Drained(w, r.value)
  }

  ghost predicate RunnerGone(w: World, id: string) {
    Recorded(w, id) && var r := w.pool.value.members[id].runnerId;
    r.Some? && r.value in w.issued && r.value !in w.runners
  }

  function TagNames(labels: set<Label>): set<string> {
    set tag | tag in labels :: tag.name
  }

  function CustomNames(labels: set<Label>): set<string> {
    set tag | tag in labels && tag.custom :: tag.name
  }

  ghost predicate RunnerTagged(w: World, m: Member) {
    Recorded(w, m.id) && var r := w.pool.value.members[m.id].runnerId;
    r.Some? && r.value in w.issued && (r.value in w.runners ==>
                  {w.pool.value.binding.tag, m.tag} <= TagNames(w.runners[r.value].labels))
  }

  /** No runner that this pool registered for the member is on GitHub. */
  ghost predicate NoneOf(w: World, id: string) {
    forall r :: r in w.runners && r in w.issued ==> w.issued[r].owner != Some(id)
  }

  /** No live job, and nothing left that could take one. */
  predicate Dead(u: Unit) {
    RemovalStopped(u) && !u.job
  }

  /** The removal of the member was reserved at a moment when its name was clean. */
  ghost predicate ReservedCleanly(log: Log, id: string, name: string) {
    log.Then? &&
    if log.event.Wrote? && InRemove(Some(log.event.state), id) && !InRemove(Durable(log.before), id)
    then Clean(log.before, name)
    else ReservedCleanly(log.before, id, name)
  }

  /** The same, for the name its recorded runner was issued under. */
  ghost predicate CleanRemoval(log: Log, w: World, id: string) {
    Recorded(w, id) && var r := w.pool.value.members[id].runnerId;
    r.Some? && r.value in w.issued && ReservedCleanly(log, id, w.issued[r.value].name)
  }

  /** A removal is reserved only once the runner has no job and can get none, as long as its
      name is clean. */
  ghost predicate RemovalEarned(before: Log, w: World, old_: Option<PoolState>, state: PoolState) {
    forall id :: InRemove(Some(state), id) && !InRemove(old_, id) ==>
      var r := state.members[id].runnerId;
      r.Some? && r.value in w.issued && (Clean(before, w.issued[r.value].name) ==> Drained(w, r.value))
  }

  ghost predicate Lawful1(before: Log, event: Event, w: World) {
    match event
    case ListRead(page, rows, first) =>
      && rows == |w.runners|
      && if page <= 1 then page == 1 && first == rows
         else before.Then? && before.event.ListRead? && before.event.page == page - 1 && before.event.first == first
    case Wrote(state) =>
      && WriteOk(Durable(before), state) && ReadyEarned(before, Durable(before), state)
      && RemovalEarned(before, w, Durable(before), state)
    case SawReady(m, id, runner) =>
      && Recorded(w, m.id) && w.pool.value.members[m.id].runnerId == Some(id) && runner.online && runner.name == m.name
      && UnitOf(w, m.id).active == Active && UnitOf(w, m.id).main
      && RegistrationOf(MarkersOf(w, m.id), m) == Present(id)
    case Configured(m) =>
      InPhase(w, m.id, Register) && !MetadataPresent(MarkersOf(w, m.id)) && Registrations(before, m.id) == 0
      && (ShortLists(before) ==> NoneOf(w, m.id))
    case Unconfigured(m) =>
      InPhase(w, m.id, Remove) && Dead(UnitOf(w, m.id)) && Removals(before, m.id) == 0
      && (CleanRemoval(before, w, m.id) ==> RunnerDrained(w, m.id))
    case Forgot(m) =>
      InPhase(w, m.id, Remove) && Dead(UnitOf(w, m.id)) && AttemptsIdleNow(before)
      && (CleanRemoval(before, w, m.id) ==> RunnerDrained(w, m.id)) && (ShortLists(before) ==> RunnerGone(w, m.id))
    case Retired(m) =>
      InPhase(w, m.id, Remove) && Dead(UnitOf(w, m.id)) && !MetadataPresent(MarkersOf(w, m.id))
      && (CleanRemoval(before, w, m.id) ==> RunnerDrained(w, m.id)) && (ShortLists(before) ==> RunnerGone(w, m.id))
    case Labelled(m, r, _) =>
      Recorded(w, m.id) && w.pool.value.members[m.id].runnerId == Some(r) && !InPhase(w, m.id, Remove)
      && (r in w.issued && w.issued[r] == Issue(m.name, Some(m.id))) && SeenInGroup(before, r)
    case Started(m) => InPhase(w, m.id, Starting) && (Clean(before, m.name) ==> RunnerTagged(w, m))
    case Terminated(m) =>
      InPhase(w, m.id, Draining) && IdleSinceFreeze(before, m.id) && AttemptsIdleNow(before)
      && var u := UnitOf(w, m.id);
      u.frozen && u.procs <= IDLE_PROCESSES && (Clean(before, m.name) ==> RunnerDrained(w, m.id) && !u.job)
    case _ => true
  }

  ghost predicate Lawful(log: Log) {
    match log
    case Empty => true
    case Then(before, event, world) => Lawful(before) && Lawful1(before, event, world)
  }

  // ---- The invariant of every reachable state ----

  ghost predicate Knows(members: seq<Member>, id: string, name: string) {
    exists i :: 0 <= i < |members| && members[i].id == id && members[i].name == name
  }

  ghost predicate KnowsId(members: seq<Member>, id: string) {
    exists i :: 0 <= i < |members| && members[i].id == id
  }

  ghost predicate StateOk(s: PoolState) {
    && DistinctMembers(s.binding.members)
    && (forall id :: id in s.members ==> RecordOk(s.members[id]) && KnowsId(s.binding.members, id))
  }

  /** What the record, the local files and GitHub say about one member agrees. */
  ghost predicate RecordMatches(w: World, id: string, record: Record) {
    && (record.runnerId.Some? ==>
          record.runnerId.value in w.issued && w.issued[record.runnerId.value].owner == Some(id))
    && (MarkersOf(w, id).runner.Some? ==>
          && var local := MarkersOf(w, id).runner.value.agentId;
          && local in w.issued && w.issued[local].owner == Some(id)
          && (record.runnerId.Some? ==> local == record.runnerId.value))
  }

  ghost predicate Owned(w: World) {
    && (forall r :: r in w.issued && w.issued[r].owner.Some? ==>
          w.pool.Some? && Knows(w.pool.value.binding.members, w.issued[r].owner.value, w.issued[r].name))
    && (w.pool.Some? ==>
          && StateOk(w.pool.value)
          && forall id :: id in w.pool.value.members ==> RecordMatches(w, id, w.pool.value.members[id]))
  }

  ghost predicate Counted(w: World, log: Log) {
    forall id ::
      && (!Recorded(w, id) ==> Registrations(log, id) == 0)
      && (!InPhase(w, id, Remove) ==> Removals(log, id) == 0)
  }

  /** A member whose removal was reserved while its name was clean has no job and gets none. */
  ghost predicate Reserved(w: World, log: Log) {
    forall id :: InPhase(w, id, Remove) && CleanRemoval(log, w, id) ==> RunnerDrained(w, id)
  }

  ghost predicate Inv(w: World, log: Log) {
    WorldOk(w) && w.pool == Durable(log) && Lawful(log) && Owned(w) && Counted(w, log) && Reserved(w, log)
  }

  /** Listed runners that were issued before keep their labels, and without labels get no job. */
  ghost predicate Onward(w: World, w': World) {
    && (forall r :: r in w.issued ==> r in w'.issued && w'.issued[r] == w.issued[r])
    && (forall r :: r in w'.runners && r in w.issued ==>
          && r in w.runners && w'.runners[r].labels == w.runners[r].labels
          && (Unlabelled(w.runners[r].labels) && !w.runners[r].busy ==> !w'.runners[r].busy))
  }

  lemma ReservedStays(w: World, w': World, log: Log)
    requires Reserved(w, log) && Owned(w) && w'.pool == w.pool && Onward(w, w')
    ensures Reserved(w', log)
  {
    forall id | InPhase(w', id, Remove) && CleanRemoval(log, w', id)
      ensures RunnerDrained(w', id)
    {
      assert RecordMatches(w, id, w.pool.value.members[id]);
      assert CleanRemoval(log, w, id);
    }
  }

  /** Only runners nobody of this pool registered joined the issue history. */
  ghost predicate Grown(w: World, w': World) {
    && (forall r :: r in w.issued ==> r in w'.issued && w'.issued[r] == w.issued[r])
    && (forall r :: r in w'.issued && r !in w.issued ==> w'.issued[r].owner == None)
  }

  /** The rest of the invariant speaks about the records, the files and the issue history only. */
  lemma SameStores(w: World, w': World, log: Log)
    requires Inv(w, log) && WorldOk(w') && Reserved(w', log)
    requires w'.pool == w.pool && w'.markers == w.markers && Grown(w, w')
    ensures Inv(w', log)
  {
    hide WorldOk, Reserved, Lawful, StateOk;
    forall id
      ensures MarkersOf(w', id) == MarkersOf(w, id)
    {
    }
  }

  lemma DriftKeeps(w: World, w': World, log: Log)
    requires Inv(w, log) && WorldOk(w') && Drift(w, w')
    ensures Inv(w', log)
  {
    hide WorldOk, Reserved, Lawful, Counted;
    ReservedStays(w, w', log);
    SameStores(w, w', log);
  }

  /** Issuing a lawful call keeps the invariant of the world it is about to hit. */
  lemma CallKeeps(w: World, log: Log, event: Event)
    requires Inv(w, log) && Lawful1(log, event, w) && !event.Wrote?
    ensures Inv(w, Then(log, event, w))
  {
  }

  lemma ReservedWritten(w: World, log: Log, state: PoolState)
    requires Reserved(w, log) && w.pool == Durable(log) && WriteOk(w.pool, state)
    requires RemovalEarned(log, w, w.pool, state)
    ensures Reserved(w.(pool := Some(state)), Then(log, Wrote(state), w))
  {
    var w', log' := w.(pool := Some(state)), Then(log, Wrote(state), w);
    forall id | InPhase(w', id, Remove) && CleanRemoval(log', w', id)
      ensures RunnerDrained(w', id)
    {
      assert PhaseStep(RecordIn(w.pool, id), RecordIn(Some(state), id));
      assert InRemove(Some(state), id);
      if InRemove(w.pool, id) {
        assert InPhase(w, id, Remove) && CleanRemoval(log, w, id);
      }
    }
  }

  lemma WriteKeeps(w: World, log: Log, state: PoolState)
    requires Inv(w, log) && WriteOk(w.pool, state) && ReadyEarned(log, w.pool, state) && StateOk(state)
    requires RemovalEarned(log, w, w.pool, state)
    requires forall id :: id in state.members ==> RecordMatches(w, id, state.members[id])
    requires forall id :: id in state.members && !Recorded(w, id) ==> MarkersOf(w, id).runner.None?
    ensures Inv(w.(pool := Some(state)), Then(log, Wrote(state), w))
  {
    hide Reserved, RemovalEarned, ReadyEarned, StateOk, Clean;
    var w', log' := w.(pool := Some(state)), Then(log, Wrote(state), w);
    ReservedWritten(w, log, state);
    forall id
      ensures MarkersOf(w', id) == MarkersOf(w, id) && UnitOf(w', id) == UnitOf(w, id)
      ensures !InPhase(w', id, Remove) ==> Removals(log', id) == 0
    {
      assert PhaseStep(RecordIn(w.pool, id), RecordIn(Some(state), id));
    }
  }

  lemma UnitWorldOk(w: World, id: string, u: Unit)
    requires WorldOk(w) && u.job == UnitOf(w, id).job && UnitOf(w, id).procs <= u.procs
    requires u.stopping ==> u.active != Active
    ensures WorldOk(w.(units := w.units[id := u]))
  {
    var w' := w.(units := w.units[id := u]);
    forall k
      ensures MarkersOf(w', k) == MarkersOf(w, k)
      ensures UnitOf(w', k) == if k == id then u else UnitOf(w, k)
    {
    }
  }

  lemma UnitKeeps(w: World, log: Log, id: string, u: Unit)
    requires Inv(w, log) && u.job == UnitOf(w, id).job && UnitOf(w, id).procs <= u.procs
    requires u.stopping ==> u.active != Active
    ensures Inv(w.(units := w.units[id := u]), log)
  {
    hide WorldOk, Reserved, Lawful, Counted;
    UnitWorldOk(w, id, u);
    ReservedStays(w, w.(units := w.units[id := u]), log);
    SameStores(w, w.(units := w.units[id := u]), log);
  }

  lemma FilesWorldOk(w: World, id: string, files: Markers)
    requires WorldOk(w) && !UnitOf(w, id).job
    ensures WorldOk(w.(markers := w.markers[id := files]))
    ensures forall k ::
              MarkersOf(w.(markers := w.markers[id := files]), k) == if k == id then files else MarkersOf(w, k)
  {
    var w' := w.(markers := w.markers[id := files]);
    forall k
      ensures UnitOf(w', k) == UnitOf(w, k)
      ensures MarkersOf(w', k) == if k == id then files else MarkersOf(w, k)
    {
    }
  }

  lemma FilesKeep(w: World, log: Log, id: string, files: Markers)
    requires Inv(w, log) && !UnitOf(w, id).job
    requires files.runner.Some? ==> files.runner == MarkersOf(w, id).runner
    ensures Inv(w.(markers := w.markers[id := files]), log)
  {
    var w' := w.(markers := w.markers[id := files]);
    hide WorldOk, Reserved;
    FilesWorldOk(w, id, files);
    ReservedStays(w, w', log);
    assert w.pool.Some? ==> forall k :: k in w.pool.value.members ==> RecordMatches(w, k, w.pool.value.members[k]);
  }

  lemma OthersReserved(w: World, w': World, log: Log, r: nat)
    requires Reserved(w, log) && Owned(w) && r in w.issued && w' == w.(runners := w'.runners)
    requires forall id :: InPhase(w, id, Remove) ==> w.issued[r].owner != Some(id)
    requires forall k :: k != r && k in w'.runners ==> k in w.runners && w'.runners[k] == w.runners[k]
    ensures Reserved(w', log)
  {
    forall id | InPhase(w', id, Remove) && CleanRemoval(log, w', id)
      ensures RunnerDrained(w', id)
    {
      assert RecordMatches(w, id, w.pool.value.members[id]);
      assert CleanRemoval(log, w, id);
    }
  }

  lemma LabelsKeep(w: World, log: Log, r: nat, labels: set<Label>)
    requires Inv(w, log) && r in w.runners && r in w.issued
    requires forall id :: InPhase(w, id, Remove) ==> w.issued[r].owner != Some(id)
    ensures Inv(w.(runners := w.runners[r := w.runners[r].(labels := labels)]), log)
  {
    hide WorldOk, Reserved, Lawful, Counted, Owned;
    var w' := w.(runners := w.runners[r := w.runners[r].(labels := labels)]);
    LabelsWorldOk(w, r, labels);
    OthersReserved(w, w', log, r);
    SameStores(w, w', log);
  }

  lemma LabelsWorldOk(w: World, r: nat, labels: set<Label>)
    requires WorldOk(w) && r in w.runners
    ensures WorldOk(w.(runners := w.runners[r := w.runners[r].(labels := labels)]))
  {
    var w' := w.(runners := w.runners[r := w.runners[r].(labels := labels)]);
    forall k
      ensures UnitOf(w', k) == UnitOf(w, k) && MarkersOf(w', k) == MarkersOf(w, k)
    {
    }
  }

  lemma UnlistKeeps(w: World, log: Log, id: string)
    requires Inv(w, log) && Recorded(w, id) && !UnitOf(w, id).job && MarkersOf(w, id).runner.Some?
    ensures Inv(w.(runners := w.runners - {MarkersOf(w, id).runner.value.agentId}), log)
  {
    hide WorldOk, Reserved, Lawful, Counted, Owned;
    var w' := w.(runners := w.runners - {MarkersOf(w, id).runner.value.agentId});
    ReservedStays(w, w', log);
    UnlistWorldOk(w, id);
    SameStores(w, w', log);
  }

  lemma UnlistWorldOk(w: World, id: string)
    requires WorldOk(w) && Owned(w) && Recorded(w, id) && !UnitOf(w, id).job && MarkersOf(w, id).runner.Some?
    ensures WorldOk(w.(runners := w.runners - {MarkersOf(w, id).runner.value.agentId}))
  {
    var a := MarkersOf(w, id).runner.value.agentId;
    var w' := w.(runners := w.runners - {a});
    assert RecordMatches(w, id, w.pool.value.members[id]);
    forall k
      ensures UnitOf(w', k) == UnitOf(w, k) && MarkersOf(w', k) == MarkersOf(w, k)
      ensures UnitOf(w, k).job && Recorded(w, k) ==> MarkersOf(w, k).runner.value.agentId != a
    {
      if UnitOf(w, k).job && Recorded(w, k) {
        assert RecordMatches(w, k, w.pool.value.members[k]);
      }
    }
  }

  /** What config.sh may leave behind when it registers the member. */
  ghost predicate Registering(w: World, w': World, m: Member, r: nat, runner: Runner, files: Markers) {
    && w' == w.(runners := w'.runners, issued := w'.issued, markers := w.markers[m.id := files])
    && (|| (w'.runners == w.runners && w'.issued == w.issued && files.runner.None?)
        || (&& r !in w.issued && runner.name == m.name
            && w'.runners == w.runners[r := runner] && w'.issued == w.issued[r := Issue(m.name, Some(m.id))]
            && (files.runner.Some? ==> files.runner.value.agentId == r)))
  }

  lemma RegisteringWorldOk(w: World, w': World, m: Member, r: nat, runner: Runner, files: Markers)
    requires WorldOk(w) && MarkersOf(w, m.id).runner.None? && Registering(w, w', m, r, runner, files)
    ensures WorldOk(w')
    ensures forall k :: MarkersOf(w', k) == if k == m.id then files else MarkersOf(w, k)
  {
    forall k
      ensures UnitOf(w', k) == UnitOf(w, k)
      ensures MarkersOf(w', k) == if k == m.id then files else MarkersOf(w, k)
    {
    }
  }

  lemma RegisteringKeeps(w: World, w': World, log: Log, m: Member, r: nat, runner: Runner, files: Markers)
    requires Inv(w, log) && InPhase(w, m.id, PoolModel.Register) && MarkersOf(w, m.id).runner.None?
    requires Knows(w.pool.value.binding.members, m.id, m.name) && Registering(w, w', m, r, runner, files)
    ensures Inv(w', log)
  {
    hide WorldOk, Owned, Reserved, Onward;
    RegisteringWorldOk(w, w', m, r, runner, files);
    RegisteringOwned(w, w', m, r, runner, files);
    RegisteringOnward(w, w', m, r, runner, files);
    ReservedStays(w, w', log);
  }

  lemma RegisteringOnward(w: World, w': World, m: Member, r: nat, runner: Runner, files: Markers)
    requires WorldOk(w) && Registering(w, w', m, r, runner, files)
    ensures Onward(w, w')
  {
  }

  lemma RegisteringOwned(w: World, w': World, m: Member, r: nat, runner: Runner, files: Markers)
    requires Owned(w) && InPhase(w, m.id, PoolModel.Register) && Registering(w, w', m, r, runner, files)
    requires Knows(w.pool.value.binding.members, m.id, m.name)
    requires forall k :: MarkersOf(w', k) == if k == m.id then files else MarkersOf(w, k)
    ensures Owned(w')
  {
    forall k | k in w.pool.value.members
      ensures RecordMatches(w', k, w.pool.value.members[k])
    {
      assert RecordMatches(w, k, w.pool.value.members[k]);
      assert RecordOk(w.pool.value.members[k]);
    }
    hide RecordMatches;
    forall i | i in w'.issued && w'.issued[i].owner.Some?
      ensures Knows(w.pool.value.binding.members, w'.issued[i].owner.value, w'.issued[i].name)
    {
      if i in w.issued {
        assert w'.issued[i] == w.issued[i];
      }
    }
  }

  // ---- What the law of single calls means for whole histories ----

  ghost predicate Prefix(a: Log, b: Log) {
    a == b || (b.Then? && Prefix(a, b.before))
  }

  /** config.sh registers at most once and removes at most once per lifetime of a record. */
  lemma {:induction false} AtMostOnce(log: Log, id: string)
    requires Lawful(log)
    ensures Registrations(log, id) <= 1 && Removals(log, id) <= 1
  {
    if log.Then? {
      AtMostOnce(log.before, id);
    }
  }

  /** Between any two durable states the binding is the same; a record's runner id,
      once set, changes only with the record's life. */
  lemma {:induction false} BindingNeverChanges(a: Log, b: Log)
    requires Lawful(b) && Prefix(a, b) && Durable(a).Some?
    ensures Durable(b).Some? && Durable(b).value.binding == Durable(a).value.binding
  {
    if a != b {
      BindingNeverChanges(a, b.before);
    }
  }

  /** The record `id` was in the durable state throughout the history from `a` to `b`. */
  ghost predicate LivesThroughout(a: Log, b: Log, id: string) {
    RecordIn(Durable(b), id).Some? && (a == b || (b.Then? && LivesThroughout(a, b.before, id)))
  }

  /** What a living record may become in the long run. */
  predicate Evolved(old_: Option<Record>, new_: Option<Record>) {
    && old_.Some? && new_.Some?
    && (old_.value.phase != Register ==> new_.value.phase != Register && new_.value.runnerId == old_.value.runnerId)
    && (old_.value.phase == Remove ==> new_ == old_)
  }

  /** While a record lives its runner id never changes once it is set, a record
      leaves `register` only as `registered`, and never leaves `remove`. */
  lemma {:induction false} RecordLife(a: Log, b: Log, id: string)
    requires Lawful(b) && LivesThroughout(a, b, id)
    ensures Evolved(RecordIn(Durable(a), id), RecordIn(Durable(b), id))
  {
    if a != b {
      RecordLife(a, b.before, id);
      if b.event.Wrote? {
        assert PhaseStep(RecordIn(Durable(b.before), id), RecordIn(Some(b.event.state), id));
      }
    }
  }

  /** Two members never share a runner id. */
  lemma RunnerIdsDistinct(w: World, log: Log, a: string, b: string)
    requires Inv(w, log) && Recorded(w, a) && Recorded(w, b) && a != b
    requires w.pool.value.members[a].runnerId.Some?
    ensures w.pool.value.members[a].runnerId != w.pool.value.members[b].runnerId
  {
    assert RecordMatches(w, a, w.pool.value.members[a]);
    assert RecordMatches(w, b, w.pool.value.members[b]);
  }

  /** Every call ever made was lawful when it was made. */
  lemma {:induction false} EveryCallLawful(entry: Log, log: Log)
    requires Lawful(log) && Prefix(entry, log) && entry.Then?
    ensures Lawful(entry.before) && Lawful1(entry.before, entry.event, entry.world)
  {
    if entry != log {
      EveryCallLawful(entry, log.before);
    }
  }

  // ---- What every call of a history was, when it was made ----

  /** The calls that can hurt a job. */
  predicate Strikes(event: Event) {
    event.Terminated? || event.Unconfigured? || event.Forgot? || event.Retired?
  }

  /** No live job was harmed: the signal hit a frozen cgroup of idle listener processes, after a
      remote read that found the member idle since it was frozen; the other calls hit a unit of
      which nothing is left. Unless a long list of GitHub showed a namesake, no job was
      accepted by the member or assigned to it, or could be. */
  ghost predicate NoJobHarmed(entry: Log) {
    entry.Then? && Strikes(entry.event) ==>
      var m := entry.event.member;
      var u := UnitOf(entry.world, m.id);
      if entry.event.Terminated? then
        && u.frozen && u.procs <= IDLE_PROCESSES && InPhase(entry.world, m.id, Draining)
        && AttemptsIdleNow(entry.before) && ReadIdleSinceFreeze(entry.before, m.id)
        && (Clean(entry.before, m.name) ==> !u.job && RunnerDrained(entry.world, m.id))
      else
        && Dead(u) && InPhase(entry.world, m.id, Remove)
        && (CleanRemoval(entry.before, entry.world, m.id) ==> RunnerDrained(entry.world, m.id))
  }

  /** A remote read found the member idle, and nothing froze or thawed it since. */
  ghost predicate ReadIdleSinceFreeze(log: Log, id: string) {
    exists read: Log :: Prefix(read, log) && FoundIdle(read, id) && StillFrozen(read, log, id)
  }

  predicate FoundIdle(read: Log, id: string) {
    read.Then? && read.event.SawIdle? && read.event.member.id == id && read.event.idle
  }

  /** Nothing in the history after `a` up to `b` froze or thawed the member. */
  ghost predicate StillFrozen(a: Log, b: Log, id: string) {
    a == b || (b.Then? && StillFrozen(a, b.before, id)
               && !((b.event.Freezing? || b.event.Thawing?) && b.event.member.id == id))
  }

  lemma {:induction false} LastIdleRead(log: Log, id: string) returns (read: Log)
    requires IdleSinceFreeze(log, id)
    ensures Prefix(read, log) && FoundIdle(read, id) && StillFrozen(read, log, id)
  {
    if log.event.SawIdle? && log.event.member.id == id {
      read := log;
    } else {
      read := LastIdleRead(log.before, id);
    }
  }

  /** Behind every signal of every lawful history there is such a read, made before it. */
  lemma IdleReadFound(entry: Log, log: Log) returns (read: Log)
    requires Lawful(log) && Prefix(entry, log) && entry.Then? && entry.event.Terminated?
    ensures var id := entry.event.member.id;
            Prefix(read, entry.before) && FoundIdle(read, id) && StillFrozen(read, entry.before, id)
  {
    EveryCallLawful(entry, log);
    read := LastIdleRead(entry.before, entry.event.member.id);
  }

  /** A new registration starts only with a fresh durable reservation, without local markers,
      after no other in the record's life; and as long as GitHub's list was at most one page
      long, when nothing this pool registered for the member is on GitHub. */
  ghost predicate RegisteredOnce(entry: Log) {
    entry.Then? && entry.event.Configured? ==>
      var m := entry.event.member;
      && InPhase(entry.world, m.id, Register) && !MetadataPresent(MarkersOf(entry.world, m.id))
      && Registrations(entry.before, m.id) == 0
      && (ShortLists(entry.before) ==> NoneOf(entry.world, m.id))
  }

  lemma {:induction false} NoLiveJobHarmed(entry: Log, log: Log)
    requires Lawful(log) && Prefix(entry, log)
    ensures NoJobHarmed(entry)
  {
    if entry.Then? && Strikes(entry.event) {
      EveryCallLawful(entry, log);
      if entry.event.Terminated? {
        var read := IdleReadFound(entry, log);
      }
    }
  }

  lemma {:induction false} RegistersOnlyOnce(entry: Log, log: Log)
    requires Lawful(log) && Prefix(entry, log)
    ensures RegisteredOnce(entry)
  {
    if entry.Then? {
      EveryCallLawful(entry, log);
    }
  }

  /** A record became `ready` only when the very last thing seen was the member's runner
      online and its own unit running with the recorded registration. */
  ghost predicate ReadyWasEarned(entry: Log) {
    entry.Then? && entry.event.Wrote? ==>
      forall id :: InReady(Some(entry.event.state), id) && !InReady(Durable(entry.before), id) ==>
        JustReady(entry.before, id) && WasReady(entry.before.event, entry.before.world)
  }

  ghost predicate WasReady(seen: Event, w: World)
    requires seen.SawReady?
  {
    var id := seen.member.id;
    && seen.seen.online && UnitOf(w, id).active == Active && UnitOf(w, id).main
    && MarkersOf(w, id).runner.Some? && MarkersOf(w, id).runner.value.agentId == seen.id
    && Recorded(w, id) && w.pool.value.members[id].runnerId == Some(seen.id)
  }

  lemma {:induction false} ReadyIsEarned(entry: Log, log: Log)
    requires Lawful(log) && Prefix(entry, log)
    ensures ReadyWasEarned(entry)
  {
    if entry.Then? && entry.event.Wrote? {
      EveryCallLawful(entry, log);
      forall id | InReady(Some(entry.event.state), id) && !InReady(Durable(entry.before), id)
        ensures JustReady(entry.before, id) && WasReady(entry.before.event, entry.before.world)
      {
        EveryCallLawful(entry.before, entry.before);
      }
    }
  }

  // ---- What holds of every history there can be ----

  /** Every call of the history was harmless when it was made. */
  ghost predicate Harmless(log: Log) {
    forall entry: Log :: Prefix(entry, log) ==> NoJobHarmed(entry) && RegisteredOnce(entry) && ReadyWasEarned(entry)
  }

  /** From the point `a` of a history to its point `b` the binding stayed, and every record
      that was there throughout kept its runner id and went on along the phases only. */
  ghost predicate Faithful(a: Log, b: Log) {
    && (Durable(a).Some? ==> Durable(b).Some? && Durable(b).value.binding == Durable(a).value.binding)
    && (forall id :: LivesThroughout(a, b, id) ==> Evolved(RecordIn(Durable(a), id), RecordIn(Durable(b), id)))
  }

  /** The history of owner Apply as a whole. */
  ghost predicate Sound(log: Log) {
    && Harmless(log)
    && (forall id :: Registrations(log, id) <= 1 && Removals(log, id) <= 1)
    && (forall a, b :: Prefix(a, b) && Prefix(b, log) ==> Faithful(a, b))
  }

  lemma LawfulIsHarmless(log: Log)
    requires Lawful(log)
    ensures Harmless(log)
  {
    hide NoJobHarmed, RegisteredOnce, ReadyWasEarned;
    forall entry: Log | Prefix(entry, log)
      ensures NoJobHarmed(entry) && RegisteredOnce(entry) && ReadyWasEarned(entry)
    {
      NoLiveJobHarmed(entry, log);
      RegistersOnlyOnce(entry, log);
      ReadyIsEarned(entry, log);
    }
  }

  lemma {:induction false} PrefixLawful(b: Log, log: Log)
    requires Lawful(log) && Prefix(b, log)
    ensures Lawful(b)
  {
    if b != log {
      PrefixLawful(b, log.before);
    }
  }

  lemma LawfulIsFaithful(a: Log, b: Log)
    requires Lawful(b) && Prefix(a, b)
    ensures Faithful(a, b)
  {
    hide Lawful;
    if Durable(a).Some? {
      BindingNeverChanges(a, b);
    }
    forall id | LivesThroughout(a, b, id)
      ensures Evolved(RecordIn(Durable(a), id), RecordIn(Durable(b), id))
    {
      RecordLife(a, b, id);
    }
  }

  /** Every history of lawful calls is sound. */
  lemma LawfulIsSound(log: Log)
    requires Lawful(log)
    ensures Sound(log)
  {
    LawfulIsHarmless(log);
    hide Harmless, Faithful, Lawful;
    forall id
      ensures Registrations(log, id) <= 1 && Removals(log, id) <= 1
    {
      AtMostOnce(log, id);
    }
    forall a, b | Prefix(a, b) && Prefix(b, log)
      ensures Faithful(a, b)
    {
      PrefixLawful(b, log);
      LawfulIsFaithful(a, b);
    }
  }
}
