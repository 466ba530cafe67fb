/** `_legacy_workers_quiescent` (deploy/clean_reinstall.py): from one look at the
    process table, conclude that the only protected processes are idle runner
    chains, one per runner unit: run.sh, its child run-helper.sh, its child
    Runner.Listener. */
module ProcessTree {
  import opened Effects

  type Pid = string

  datatype Role = RunScript | RunHelper | Listening

  /** One line of /proc/PID/cgroup. */
  datatype Group = Group(hierarchy: string, controllers: string, path: string)

  /** How far a process could be read before it disappeared. */
  datatype Seen = Unreadable | Nothing | Owner | Groups | Everything

  /** `uids` are the four ids of the status file; `alive` excludes zombies; `steady`:
      birth time and owner were the same before and after the other reads. */
  datatype Proc = Proc(
    seen: Seen, uid: nat, groups: seq<Group>, uids: seq<nat>, parent: Pid,
    alive: bool, steady: bool, argv: seq<string>, exe: string, cwd: string)

  /** A runner unit: its cgroup, account, install root and MainPID. */
  datatype Listener = Listener(cgroup: string, user: string, root: string, pid: Pid)

  datatype Seat = Seat(parent: Pid, main: Pid, role: Role)

  type Ids = map<string, nat>
  type Listeners = map<string, Listener>
  type Table = map<Pid, Proc>

  const SHELLS := {"/usr/bin/bash", "/bin/bash"}
  const SHELL_NAMES := {"/usr/bin/bash", "/bin/bash", "bash"}

  // ---- Facts of one process ----

  predicate Under(path: string, cgroup: string) {
    path == cgroup || cgroup + "/" <= path
  }

  predicate InTree(p: Proc, cgroup: string) {
    exists g <- p.groups :: Under(g.path, cgroup)
  }

  /** The process's own systemd cgroup is exactly this one. */
  predicate InUnit(p: Proc, cgroup: string) {
    exists g <- p.groups ::
      (g == Group("0", "", cgroup)) || (g.controllers == "name=systemd" && g.path == cgroup)
  }

  predicate InSomeTree(p: Proc, listeners: Listeners) {
    exists name <- listeners :: InTree(p, listeners[name].cgroup)
  }

  predicate Protected(p: Proc, ids: Ids, listeners: Listeners) {
    p.uid in ids.Values || InSomeTree(p, listeners) || exists uid <- p.uids :: uid in ids.Values
  }

  /** A process that was not read to the end must not be known to be protected. */
  predicate Clear(p: Proc, ids: Ids, listeners: Listeners) {
    match p.seen
    case Unreadable => false
    case Nothing => true
    case Owner => p.uid !in ids.Values
    case Groups => p.uid !in ids.Values && !InSomeTree(p, listeners)
    case Everything => true
  }

  function Resolved(word: string, base: string): string {
    if "/" <= word then word
    else if "./" <= word then base + "/" + word[2..]
    else base + "/" + word
  }

  /** The command line is that role's, and nothing else. */
  predicate Runs(p: Proc, base: string, role: Role) {
    match role
    case Listening =>
      && p.exe !in SHELLS && p.exe == base + "/bin/Runner.Listener"
      && |p.argv| == 2 && Resolved(p.argv[0], base) == p.exe && p.argv[1] == "run"
    case RunScript => IsShell(p) && Resolved(p.argv[1], base) == base + "/run.sh"
    case RunHelper => IsShell(p) && Resolved(p.argv[1], base) == base + "/run-helper.sh"
  }

  predicate IsShell(p: Proc) {
    p.exe in SHELLS && |p.argv| == 2 && p.argv[0] in SHELL_NAMES
  }

  function Matches(p: Proc, ids: Ids, listeners: Listeners): set<string> {
    set name | name in listeners && listeners[name].user in ids && ids[listeners[name].user] == p.uid
               && InUnit(p, listeners[name].cgroup)
  }

  predicate UsersKnown(ids: Ids, listeners: Listeners) {
    forall name <- listeners :: listeners[name].user in ids
  }

  /** The process sits in one unit only, this one, and in this role. */
  ghost predicate Seated(p: Proc, ids: Ids, listeners: Listeners, name: string, role: Role)
    requires name in listeners
  {
    && p.alive && p.steady && p.uids == [p.uid, p.uid, p.uid, p.uid]
    && Matches(p, ids, listeners) == {name} && p.cwd == listeners[name].root && Runs(p, listeners[name].root, role)
  }

  function RoleOf(p: Proc, base: string): (role: Option<Role>)
    ensures forall r :: role == Some(r) <==> Runs(p, base, r)
  {
    if p.exe in SHELLS then
      if !IsShell(p) then None
      else
        var script := Resolved(p.argv[1], base);
        assert |base + "/run.sh"| != |base + "/run-helper.sh"|;
        if script == base + "/run.sh" then Some(RunScript)
        else if script == base + "/run-helper.sh" then Some(RunHelper)
        else None
    else if |p.argv| > 0 && p.exe == base + "/bin/Runner.Listener" && Resolved(p.argv[0], base) == p.exe
            && p.argv[1..] == ["run"] then Some(Listening)
    else None
  }

  datatype Verdict = Reject | Skip | Take(seat: Seat)

  predicate Stopped(p: Proc, stopped: set<string>) {
    exists unit <- stopped :: InTree(p, "/system.slice/" + unit)
  }

  predicate Concerns(p: Proc, ids: Ids, listeners: Listeners) {
    p.seen == Everything && Protected(p, ids, listeners)
  }

  /** One turn of the loop over /proc. */
  function Classify(p: Proc, ids: Ids, listeners: Listeners, stopped: set<string>): (v: Verdict)
    ensures v == Skip <==>
              Clear(p, ids, listeners)
                  && (p.seen == Everything ==> !Stopped(p, stopped) && !Protected(p, ids, listeners))
    ensures v.Take? <==>
              && Concerns(p, ids, listeners) && !Stopped(p, stopped) && UsersKnown(ids, listeners)
              && exists name, role :: name in listeners && Seated(p, ids, listeners, name, role)
    ensures v.Take? ==> v.seat.parent == p.parent
    ensures forall name, role :: name in listeners && v.Take? && Seated(p, ids, listeners, name, role) ==>
              v.seat.main == listeners[name].pid && v.seat.role == role
  {
    if !Clear(p, ids, listeners) then Reject
    else if p.seen != Everything then Skip
    else if Stopped(p, stopped) then Reject
    else if !Protected(p, ids, listeners) then Skip
    else if listeners == map[] || !UsersKnown(ids, listeners) then Reject
    else if !p.alive || !p.steady || p.uids != [p.uid, p.uid, p.uid, p.uid] then Reject
    else
      var matches := Matches(p, ids, listeners);
      if |matches| != 1 then Reject
      else
        Singleton(matches);
        var name :| matches == {name};
        var role := RoleOf(p, listeners[name].root);
        if p.cwd != listeners[name].root || role.None? then Reject
        else
          assert Seated(p, ids, listeners, name, role.value);
          Take(Seat(p.parent, listeners[name].pid, role.value))
  }

  lemma Singleton<T>(s: set<T>)
    requires |s| == 1
    ensures exists x :: s == {x}
  {
    var x :| x in s;
    assert |s - {x}| == 0;
    assert s == {x};
  }

  // ---- The shape ----

  function Within(table: Table, cgroup: string, among: set<Pid>): set<Pid> {
    set pid | pid in among && pid in table && table[pid].seen == Everything && InTree(table[pid], cgroup)
  }

  function Tree(table: Table, cgroup: string): (members: set<Pid>)
    ensures members <= table.Keys
  {
    Within(table, cgroup, table.Keys)
  }

  /** The whole cgroup subtree of this unit is one idle chain. */
  ghost predicate Chain(table: Table, ids: Ids, listeners: Listeners, name: string, helper: Pid, listener: Pid)
    requires name in listeners
  {
    var main := listeners[name].pid;
    && Tree(table, listeners[name].cgroup) == {main, helper, listener}
    && main != helper && main != listener && helper != listener
    && Seated(table[main], ids, listeners, name, RunScript)
    && Seated(table[helper], ids, listeners, name, RunHelper) && table[helper].parent == main
    && Seated(table[listener], ids, listeners, name, Listening) && table[listener].parent == helper
  }

  /** Every protected process belongs to the chain of some unit, every unit has its
      chain, nothing of a stopped unit is left and nothing protected was unreadable. */
  ghost predicate Quiet(ids: Ids, table: Table, listeners: Listeners, stopped: set<string>) {
    && 0 !in ids.Values && UsersKnown(ids, listeners)
    && (forall pid <- table :: Clear(table[pid], ids, listeners))
    && (forall pid <- table :: table[pid].seen == Everything ==> !Stopped(table[pid], stopped))
    && (forall pid <- table :: Concerns(table[pid], ids, listeners) ==> InSomeTree(table[pid], listeners))
    && (forall name <- listeners :: exists helper, listener :: Chain(table, ids, listeners, name, helper, listener))
  }

  /** No two units have one main process. */
  ghost predicate DistinctMains(listeners: Listeners) {
    forall a, b :: a in listeners && b in listeners && a != b ==> listeners[a].pid != listeners[b].pid
  }

  // ---- The local checks ----

  type Seats = map<Pid, Seat>

  predicate ParentFits(seats: Seats, seat: Seat) {
    && seat.parent in seats
    && (|| (seat.role == RunHelper && seats[seat.parent].role == RunScript)
        || (seat.role == Listening && seats[seat.parent].role == RunHelper))
  }

  /** The walk towards the main process, with what it visited. */
  predicate Walk(seats: Seats, pid: Pid, main: Pid, visited: set<Pid>)
    decreases seats.Keys - visited
  {
    pid == main || (pid in seats && pid !in visited && seats[pid].main == main
                    && Walk(seats, seats[pid].parent, main, visited + {pid}))
  }

  predicate Rooted(seats: Seats, pid: Pid)
    requires pid in seats
  {
    var seat := seats[pid];
    (pid != seat.main ==> ParentFits(seats, seat)) && Walk(seats, pid, seat.main, {})
  }

  predicate ThreeRoles(seats: Seats, members: set<Pid>, main: Pid) {
    && main in seats && seats[main].role == RunScript
    && |members| == 3 && (forall pid <- members :: pid in seats && seats[pid].main == main)
    && (set pid | pid in members && pid in seats :: seats[pid].role) == {RunScript, RunHelper, Listening}
  }

  function SeatsOf(table: Table, ids: Ids, listeners: Listeners, stopped: set<string>, of_: set<Pid>): Seats {
    map pid | pid in of_ && pid in table && Classify(table[pid], ids, listeners, stopped).Take?
      :: Classify(table[pid], ids, listeners, stopped).seat
  }

  ghost predicate LocalChecks(ids: Ids, table: Table, listeners: Listeners, stopped: set<string>) {
    var seats := SeatsOf(table, ids, listeners, stopped, table.Keys);
    && 0 !in ids.Values
    && (forall pid <- table :: Classify(table[pid], ids, listeners, stopped) != Reject)
    && (forall name <- listeners ::
          ThreeRoles(seats, Tree(table, listeners[name].cgroup), listeners[name].pid))
    && (forall pid <- seats :: Rooted(seats, pid))
  }

  // ---- Seats alone: the local checks force the shape of a tree ----

  /** Every seat lies in the unit of its main process, and units do not share one. */
  ghost predicate Housed(seats: Seats, members: map<string, set<Pid>>, mains: map<string, Pid>) {
    && members.Keys == mains.Keys
    && (forall pid <- seats :: exists name :: name in mains && pid in members[name] && seats[pid].main == mains[name])
    && (forall a, b :: a in mains && b in mains && a != b ==> mains[a] != mains[b])
  }

  /** main is run.sh, its child helper is run-helper.sh, its child listener is
      Runner.Listener, and nothing else is a member. */
  predicate Line(seats: Seats, members: set<Pid>, main: Pid, helper: Pid, listener: Pid) {
    && members == {main, helper, listener} && main != helper && main != listener && helper != listener
    && members <= seats.Keys && (forall pid <- members :: seats[pid].main == main)
    && seats[main].role == RunScript
    && seats[helper].role == RunHelper && seats[helper].parent == main
    && seats[listener].role == Listening && seats[listener].parent == helper
  }

  /** In a rooted table run.sh is a main process, a helper's parent is its main
      process, and a listener's parent is a helper with the same main process. */
  lemma RootedMeans(seats: Seats, pid: Pid)
    requires forall pid <- seats :: Rooted(seats, pid)
    requires pid in seats && seats[pid].main in seats && seats[seats[pid].main].role == RunScript
    ensures seats[pid].role == RunScript ==> pid == seats[pid].main
    ensures seats[pid].role == RunHelper ==> seats[pid].parent == seats[pid].main
    ensures seats[pid].role == Listening ==>
              var q := seats[pid].parent;
              q in seats && seats[q].role == RunHelper && seats[q].main == seats[pid].main
  {
    assert Rooted(seats, pid);
    var main := seats[pid].main;
    if pid != main {
      var q := seats[pid].parent;
      assert {} + {pid} == {pid};
      assert Walk(seats, q, main, {pid});
      assert Rooted(seats, q);
    }
  }

  lemma ChecksForceLine(seats: Seats, members: map<string, set<Pid>>, mains: map<string, Pid>, name: string)
      returns (helper: Pid, listener: Pid)
    requires Housed(seats, members, mains) && name in mains && ThreeRoles(seats, members[name], mains[name])
    requires forall pid <- seats :: Rooted(seats, pid)
    ensures Line(seats, members[name], mains[name], helper, listener)
  {
    hide Rooted, Walk, ParentFits;
    var main, inside := mains[name], members[name];
    var roles := set pid | pid in inside && pid in seats :: seats[pid].role;
    assert RunHelper in roles && Listening in roles && RunScript in roles;
    var script: Pid :| script in inside && seats[script].role == RunScript;
    helper :| helper in inside && seats[helper].role == RunHelper;
    listener :| listener in inside && seats[listener].role == Listening;
    RootedMeans(seats, script);
    RootedMeans(seats, helper);
    RootedMeans(seats, listener);
    var q := seats[listener].parent;
    assert q in inside;
    OnlyThree(inside, main, helper, listener);
    assert q in {main, helper, listener};
  }

  lemma OnlyThree(inside: set<Pid>, a: Pid, b: Pid, c: Pid)
    requires |inside| == 3 && a in inside && b in inside && c in inside && a != b && a != c && b != c
    ensures inside == {a, b, c}
  {
    assert |inside - {a, b, c}| == |inside| - |{a, b, c}|;
  }

  lemma LineIsRooted(seats: Seats, inside: set<Pid>, main: Pid, helper: Pid, listener: Pid)
    requires Line(seats, inside, main, helper, listener)
    ensures ThreeRoles(seats, inside, main) && forall pid <- inside :: Rooted(seats, pid)
  {
    assert |{main, helper, listener}| == 3;
    var roles := set pid | pid in inside && pid in seats :: seats[pid].role;
    assert seats[main].role in roles && seats[helper].role in roles && seats[listener].role in roles;
    assert Walk(seats, main, main, {} + {helper});
    assert Walk(seats, helper, main, {} + {listener});
  }

  // ---- The table ----

  function Members(table: Table, listeners: Listeners): map<string, set<Pid>> {
    map name | name in listeners :: Tree(table, listeners[name].cgroup)
  }

  function Mains(listeners: Listeners): map<string, Pid> {
    map name | name in listeners :: listeners[name].pid
  }

  /** The unit a taken process belongs to. */
  lemma UnitOfSeat(table: Table, ids: Ids, listeners: Listeners, stopped: set<string>, pid: Pid) returns (name: string)
    requires pid in SeatsOf(table, ids, listeners, stopped, table.Keys)
    ensures name in listeners
    ensures var seat := SeatsOf(table, ids, listeners, stopped, table.Keys)[pid];
            && seat.main == listeners[name].pid && seat.parent == table[pid].parent
            && Seated(table[pid], ids, listeners, name, seat.role)
    ensures pid in Tree(table, listeners[name].cgroup) && InSomeTree(table[pid], listeners)
  {
    var role: Role;
    name, role :| name in listeners && Seated(table[pid], ids, listeners, name, role);
    assert name in Matches(table[pid], ids, listeners);
  }

  lemma SeatsHoused(table: Table, ids: Ids, listeners: Listeners, stopped: set<string>)
    requires DistinctMains(listeners)
    ensures Housed(SeatsOf(table, ids, listeners, stopped, table.Keys), Members(table, listeners), Mains(listeners))
  {
    var seats := SeatsOf(table, ids, listeners, stopped, table.Keys);
    forall pid <- seats
      ensures exists name :: name in listeners && pid in Members(table, listeners)[name]
                && seats[pid].main == Mains(listeners)[name]
    {
      hide Classify, Seated;
      var name := UnitOfSeat(table, ids, listeners, stopped, pid);
      assert pid in Members(table, listeners)[name];
    }
  }

  /** A line of seats inside one unit is a chain of its processes. */
  lemma LineIsChain(table: Table, ids: Ids, listeners: Listeners, stopped: set<string>,
                    name: string, helper: Pid, listener: Pid)
    requires DistinctMains(listeners) && name in listeners
    requires Line(SeatsOf(table, ids, listeners, stopped, table.Keys), Tree(table, listeners[name].cgroup),
                  listeners[name].pid, helper, listener)
    ensures Chain(table, ids, listeners, name, helper, listener)
  {
    hide Classify, Seated, Tree;
    var seats, main := SeatsOf(table, ids, listeners, stopped, table.Keys), listeners[name].pid;
    forall pid <- {main, helper, listener}
      ensures Seated(table[pid], ids, listeners, name, seats[pid].role) && seats[pid].parent == table[pid].parent
    {
      var other := UnitOfSeat(table, ids, listeners, stopped, pid);
      assert other == name;
    }
  }

  lemma ChainIsLine(table: Table, ids: Ids, listeners: Listeners, stopped: set<string>,
                    name: string, helper: Pid, listener: Pid)
    requires Quiet(ids, table, listeners, stopped) && name in listeners
    requires Chain(table, ids, listeners, name, helper, listener)
    ensures Line(SeatsOf(table, ids, listeners, stopped, table.Keys), Tree(table, listeners[name].cgroup),
                 listeners[name].pid, helper, listener)
  {
    hide Quiet, Classify, Seated, Tree;
    var main := listeners[name].pid;
    SeatedIsTaken(table, ids, listeners, stopped, name, main, RunScript);
    SeatedIsTaken(table, ids, listeners, stopped, name, helper, RunHelper);
    SeatedIsTaken(table, ids, listeners, stopped, name, listener, Listening);
  }

  lemma SeatedIsTaken(table: Table, ids: Ids, listeners: Listeners, stopped: set<string>,
                      name: string, pid: Pid, role: Role)
    requires Quiet(ids, table, listeners, stopped) && name in listeners
    requires pid in Tree(table, listeners[name].cgroup) && Seated(table[pid], ids, listeners, name, role)
    ensures var seats := SeatsOf(table, ids, listeners, stopped, table.Keys);
            pid in seats && seats[pid] == Seat(table[pid].parent, listeners[name].pid, role)
  {
    hide Chain;
    assert Concerns(table[pid], ids, listeners) && !Stopped(table[pid], stopped);
  }

  lemma LocalMeansChains(ids: Ids, table: Table, listeners: Listeners, stopped: set<string>, name: string)
    requires LocalChecks(ids, table, listeners, stopped) && DistinctMains(listeners) && name in listeners
    ensures exists helper, listener :: Chain(table, ids, listeners, name, helper, listener)
  {
    var seats := SeatsOf(table, ids, listeners, stopped, table.Keys);
    SeatsHoused(table, ids, listeners, stopped);
    hide Classify, Seated, Rooted, Tree, ThreeRoles, Chain, Housed;
    var helper, listener := ChecksForceLine(seats, Members(table, listeners), Mains(listeners), name);
    LineIsChain(table, ids, listeners, stopped, name, helper, listener);
  }

  lemma LocalMeansQuiet(ids: Ids, table: Table, listeners: Listeners, stopped: set<string>)
    requires LocalChecks(ids, table, listeners, stopped) && DistinctMains(listeners)
    ensures Quiet(ids, table, listeners, stopped)
  {
    hide Classify, Rooted, Tree, ThreeRoles, Chain, Clear, Stopped, Concerns, InSomeTree;
    forall name <- listeners
      ensures exists helper, listener :: Chain(table, ids, listeners, name, helper, listener)
    {
      LocalMeansChains(ids, table, listeners, stopped, name);
    }
    forall pid <- table
      ensures Clear(table[pid], ids, listeners)
      ensures table[pid].seen == Everything ==> !Stopped(table[pid], stopped)
      ensures Concerns(table[pid], ids, listeners) ==> InSomeTree(table[pid], listeners)
    {
      ProcessQuiet(table, ids, listeners, stopped, pid);
    }
    UsersOfChecked(ids, table, listeners, stopped);
  }

  lemma ProcessQuiet(table: Table, ids: Ids, listeners: Listeners, stopped: set<string>, pid: Pid)
    requires pid in table && Classify(table[pid], ids, listeners, stopped) != Reject
    ensures Clear(table[pid], ids, listeners)
    ensures table[pid].seen == Everything ==> !Stopped(table[pid], stopped)
    ensures Concerns(table[pid], ids, listeners) ==> InSomeTree(table[pid], listeners)
  {
    if Classify(table[pid], ids, listeners, stopped).Take? {
      var name := UnitOfSeat(table, ids, listeners, stopped, pid);
    }
  }

  lemma UsersOfChecked(ids: Ids, table: Table, listeners: Listeners, stopped: set<string>)
    requires LocalChecks(ids, table, listeners, stopped)
    ensures UsersKnown(ids, listeners)
  {
    hide Rooted, Tree, Clear, Stopped, Protected, Seated;
    if name :| name in listeners {
      var pid := listeners[name].pid;
      assert ThreeRoles(SeatsOf(table, ids, listeners, stopped, table.Keys), Tree(table, listeners[name].cgroup), pid);
      assert Classify(table[pid], ids, listeners, stopped).Take?;
    }
  }

  lemma QuietMeansLines(ids: Ids, table: Table, listeners: Listeners, stopped: set<string>, name: string)
    requires Quiet(ids, table, listeners, stopped) && name in listeners
    ensures var seats := SeatsOf(table, ids, listeners, stopped, table.Keys);
            && ThreeRoles(seats, Tree(table, listeners[name].cgroup), listeners[name].pid)
            && forall pid <- Tree(table, listeners[name].cgroup) :: pid in seats && Rooted(seats, pid)
  {
    hide Classify, Seated, Tree, Clear, Stopped, Concerns, InTree, Line;
    var helper, listener :| Chain(table, ids, listeners, name, helper, listener);
    hide Chain;
    ChainIsLine(table, ids, listeners, stopped, name, helper, listener);
    LineIsRooted(SeatsOf(table, ids, listeners, stopped, table.Keys), Tree(table, listeners[name].cgroup),
                 listeners[name].pid, helper, listener);
  }

  lemma QuietMeansLocal(ids: Ids, table: Table, listeners: Listeners, stopped: set<string>)
    requires Quiet(ids, table, listeners, stopped)
    ensures LocalChecks(ids, table, listeners, stopped)
  {
    var seats := SeatsOf(table, ids, listeners, stopped, table.Keys);
    hide Rooted, ThreeRoles, Chain, Seated;
    forall name <- listeners
      ensures ThreeRoles(seats, Tree(table, listeners[name].cgroup), listeners[name].pid)
    {
      QuietMeansLines(ids, table, listeners, stopped, name);
    }
    forall pid <- table
      ensures Classify(table[pid], ids, listeners, stopped) != Reject
      ensures pid in seats ==> Rooted(seats, pid)
    {
      ProcessLocal(ids, table, listeners, stopped, pid);
    }
    hide Quiet, Classify;
  }

  lemma ProcessLocal(ids: Ids, table: Table, listeners: Listeners, stopped: set<string>, pid: Pid)
    requires Quiet(ids, table, listeners, stopped) && pid in table
    ensures Classify(table[pid], ids, listeners, stopped) != Reject
    ensures var seats := SeatsOf(table, ids, listeners, stopped, table.Keys);
            pid in seats ==> Rooted(seats, pid)
  {
    hide Rooted, ThreeRoles, Chain, Seated;
    if Concerns(table[pid], ids, listeners) {
      var name :| name in listeners && InTree(table[pid], listeners[name].cgroup);
      QuietMeansLines(ids, table, listeners, stopped, name);
      assert pid in Tree(table, listeners[name].cgroup);
    }
  }

  // ---- The program ----

  /** The walk of one observed process. */
  method CheckRooted(seats: Seats, start: Pid) returns (ok: bool)
    requires start in seats
    ensures ok == Rooted(seats, start)
  {
    var seat := seats[start];
    if start != seat.main && !ParentFits(seats, seat) {
      return false;
    }
    var pid, visited: set<Pid> := start, {};
    while pid != seat.main
      invariant Walk(seats, start, seat.main, {}) == Walk(seats, pid, seat.main, visited)
      decreases seats.Keys - visited
    {
      if pid !in seats || pid in visited || seats[pid].main != seat.main {
        return false;
      }
      visited, pid := visited + {pid}, seats[pid].parent;
    }
    return true;
  }

  lemma OneMoreMember(table: Table, cgroup: string, done: set<Pid>, pid: Pid)
    requires pid in table
    ensures Within(table, cgroup, done + {pid})
            == Within(table, cgroup, done)
                + (if table[pid].seen == Everything && InTree(table[pid], cgroup) then {pid} else {})
  {
  }

  /** Account for one process in every unit whose subtree it is in. */
  method Account(table: Table, listeners: Listeners, before: map<string, set<Pid>>, ghost done: set<Pid>, pid: Pid)
      returns (members: map<string, set<Pid>>)
    requires pid in table && before.Keys == listeners.Keys
    requires forall name <- listeners :: before[name] == Within(table, listeners[name].cgroup, done)
    ensures members.Keys == listeners.Keys
    ensures forall name <- listeners :: members[name] == Within(table, listeners[name].cgroup, done + {pid})
  {
    hide InTree, Within;
    members := map name | name in listeners ::
      if table[pid].seen == Everything && InTree(table[pid], listeners[name].cgroup)
      then before[name] + {pid} else before[name];
    forall name <- listeners
      ensures members[name] == Within(table, listeners[name].cgroup, done + {pid})
    {
      OneMoreMember(table, listeners[name].cgroup, done, pid);
    }
  }

  lemma OneMoreSeat(table: Table, ids: Ids, listeners: Listeners, stopped: set<string>, done: set<Pid>, pid: Pid)
    requires pid in table && pid !in done
    ensures var v, seats := Classify(table[pid], ids, listeners, stopped),
              SeatsOf(table, ids, listeners, stopped, done);
            SeatsOf(table, ids, listeners, stopped, done + {pid}) == if v.Take? then seats[pid := v.seat] else seats
  {
    hide Classify;
  }

  lemma NothingYet(ids: Ids, table: Table, listeners: Listeners, stopped: set<string>)
    ensures SeatsOf(table, ids, listeners, stopped, {}) == map[]
    ensures forall name <- listeners :: Within(table, listeners[name].cgroup, {}) == {}
  {
  }

  /** Collect the seats and the members of every unit. */
  method Collect(ids: Ids, table: Table, listeners: Listeners, stopped: set<string>)
      returns (ok: bool, seats: Seats, members: map<string, set<Pid>>)
    ensures ok <==> forall pid <- table :: Classify(table[pid], ids, listeners, stopped) != Reject
    ensures ok ==> seats == SeatsOf(table, ids, listeners, stopped, table.Keys) && members == Members(table, listeners)
  {
    hide Classify, InTree, SeatsOf, Within;
    NothingYet(ids, table, listeners, stopped);
    seats, members := map[], map name | name in listeners :: {};
    var todo := table.Keys;
    assert table.Keys - todo == {};
    while todo != {}
      invariant todo <= table.Keys
      invariant forall pid <- table.Keys - todo :: Classify(table[pid], ids, listeners, stopped) != Reject
      invariant seats == SeatsOf(table, ids, listeners, stopped, table.Keys - todo)
      invariant members.Keys == listeners.Keys
      invariant forall name <- listeners :: members[name] == Within(table, listeners[name].cgroup, table.Keys - todo)
    {
      var pid :| pid in todo;
      ghost var done := table.Keys - todo;
      todo := todo - {pid};
      assert table.Keys - todo == done + {pid};
      var v := Classify(table[pid], ids, listeners, stopped);
      if v == Reject {
        return false, seats, members;
      }
      members := Account(table, listeners, members, done, pid);
      OneMoreSeat(table, ids, listeners, stopped, done, pid);
      if v.Take? {
        seats := seats[pid := v.seat];
      }
    }
    assert table.Keys - todo == table.Keys;
    return true, seats, members;
  }

  method CheckAllRooted(seats: Seats) returns (ok: bool)
    ensures ok <==> forall pid <- seats :: Rooted(seats, pid)
  {
    hide Rooted;
    var todo := seats.Keys;
    while todo != {}
      invariant todo <= seats.Keys && forall pid <- seats.Keys - todo :: Rooted(seats, pid)
    {
      var pid :| pid in todo;
      todo := todo - {pid};
      var rooted := CheckRooted(seats, pid);
      if !rooted {
        return false;
      }
    }
    return true;
  }

  method Check(ids: Ids, table: Table, listeners: Listeners, stopped: set<string>) returns (ok: bool)
    ensures ok <==> LocalChecks(ids, table, listeners, stopped)
  {
    hide Classify, Rooted, ThreeRoles, Tree;
    if 0 in ids.Values {
      return false;
    }
    var clean, seats, members := Collect(ids, table, listeners, stopped);
    if !clean || exists name <- listeners :: !ThreeRoles(seats, members[name], listeners[name].pid) {
      return false;
    }
    ok := CheckAllRooted(seats);
  }

  function IdsOf(names: seq<string>, accounts: Ids): Ids {
    map name | name in names && name in accounts :: accounts[name]
  }

  /** Every process is in one cgroup, whatever hierarchy it is asked for. */
  ghost predicate OneGroupEach(table: Table) {
    forall pid, g, h :: pid in table && g in table[pid].groups && h in table[pid].groups ==> g.path == h.path
  }

  /** The cgroups the units are required to have. */
  predicate Slices(listeners: Listeners) {
    forall name <- listeners :: '/' !in name && listeners[name].cgroup == "/system.slice/" + name
  }

  /** `_legacy_workers_quiescent`, for the accounts of the named users. */
  method WorkersQuiescent(names: seq<string>, accounts: Ids, table: Table, listeners: Listeners, stopped: set<string>)
      returns (ok: bool)
    ensures ok ==> forall name <- names :: name in accounts
    ensures ok && DistinctMains(listeners) <==>
              (forall name <- names :: name in accounts) && Quiet(IdsOf(names, accounts), table, listeners, stopped)
    ensures OneGroupEach(table) && Slices(listeners) && ok ==> DistinctMains(listeners)
  {
    hide Quiet, LocalChecks;
    if exists name <- names :: name !in accounts {
      return false;
    }
    ok := Check(IdsOf(names, accounts), table, listeners, stopped);
    Exact(IdsOf(names, accounts), table, listeners, stopped);
    if ok && OneGroupEach(table) && Slices(listeners) {
      OneGroupMeansDistinct(IdsOf(names, accounts), table, listeners, stopped);
    }
  }

  /** A table has the wanted shape exactly when the local checks hold and the units have
      different main processes. */
  lemma Exact(ids: Ids, table: Table, listeners: Listeners, stopped: set<string>)
    ensures Quiet(ids, table, listeners, stopped) <==>
              LocalChecks(ids, table, listeners, stopped) && DistinctMains(listeners)
  {
    if LocalChecks(ids, table, listeners, stopped) && DistinctMains(listeners) {
      LocalMeansQuiet(ids, table, listeners, stopped);
    }
    if Quiet(ids, table, listeners, stopped) {
      QuietMeansLocal(ids, table, listeners, stopped);
      QuietMeansDistinct(ids, table, listeners, stopped);
    }
  }

  lemma QuietMeansDistinct(ids: Ids, table: Table, listeners: Listeners, stopped: set<string>)
    requires Quiet(ids, table, listeners, stopped)
    ensures DistinctMains(listeners)
  {
    hide Runs, Clear, Stopped, Concerns, Matches, InSomeTree, Tree;
    forall name <- listeners
      ensures listeners[name].pid in table && Matches(table[listeners[name].pid], ids, listeners) == {name}
    {
      var helper, listener :| Chain(table, ids, listeners, name, helper, listener);
    }
  }

  /** Where every process is in one cgroup, the checks themselves tell the main processes
      apart. */
  lemma OneGroupMeansDistinct(ids: Ids, table: Table, listeners: Listeners, stopped: set<string>)
    requires LocalChecks(ids, table, listeners, stopped) && OneGroupEach(table) && Slices(listeners)
    ensures DistinctMains(listeners)
  {
    forall a, b | a in listeners && b in listeners && listeners[a].pid == listeners[b].pid
      ensures a == b
    {
      MainIsMember(ids, table, listeners, stopped, a);
      MainIsMember(ids, table, listeners, stopped, b);
      var p := table[listeners[a].pid];
      var g :| g in p.groups && Under(g.path, listeners[a].cgroup);
      var h :| h in p.groups && Under(h.path, listeners[b].cgroup);
      SlicesApart(a, b, g.path);
    }
  }

  lemma MainIsMember(ids: Ids, table: Table, listeners: Listeners, stopped: set<string>, name: string)
    requires LocalChecks(ids, table, listeners, stopped) && name in listeners
    ensures listeners[name].pid in Tree(table, listeners[name].cgroup)
  {
    var seats := SeatsOf(table, ids, listeners, stopped, table.Keys);
    var members, main := Tree(table, listeners[name].cgroup), listeners[name].pid;
    hide SeatsOf, Tree, Classify, Rooted;
    assert ThreeRoles(seats, members, main);
    assert RunScript in (set pid | pid in members && pid in seats :: seats[pid].role);
    var script :| script in members && script in seats && seats[script].role == RunScript;
    RootedMeans(seats, script);
  }

  /** A path up to its first slash. */
  function Top(path: string): string {
    if path == "" || path[0] == '/' then "" else [path[0]] + Top(path[1..])
  }

  lemma {:induction false} TopOfUnder(path: string, name: string)
    requires '/' !in name && Under(path, name)
    ensures Top(path) == name
  {
    if name != "" {
      assert path[0] == name[0] && name[0] in name;
      assert path[1..] == name[1..] || name[1..] + "/" <= path[1..];
      TopOfUnder(path[1..], name[1..]);
    }
  }

  lemma UnderSlice(path: string, base: string, name: string)
    requires Under(path, base + name)
    ensures |base| <= |path| && Under(path[|base|..], name)
  {
    assert path[|base|..] == name || name + "/" <= path[|base|..];
  }

  lemma SlicesApart(a: string, b: string, path: string)
    requires '/' !in a && '/' !in b
    requires Under(path, "/system.slice/" + a) && Under(path, "/system.slice/" + b)
    ensures a == b
  {
    var base := "/system.slice/";
    UnderSlice(path, base, a);
    UnderSlice(path, base, b);
    TopOfUnder(path[|base|..], a);
    TopOfUnder(path[|base|..], b);
  }

  /** In a quiet table the chains are disjoint and hold every protected process. */
  lemma DisjointUnion(ids: Ids, table: Table, listeners: Listeners, stopped: set<string>)
    requires Quiet(ids, table, listeners, stopped)
    ensures forall a, b :: a in listeners && b in listeners && a != b ==>
              Tree(table, listeners[a].cgroup) !! Tree(table, listeners[b].cgroup)
    ensures (set pid | pid in table && Concerns(table[pid], ids, listeners))
            == (set name, pid | name in listeners && pid in Tree(table, listeners[name].cgroup) :: pid)
    ensures forall name <- listeners :: |Tree(table, listeners[name].cgroup)| == 3
  {
    hide Quiet, Tree, Matches;
    forall name <- listeners
      ensures |Tree(table, listeners[name].cgroup)| == 3
      ensures forall pid <- Tree(table, listeners[name].cgroup) :: Matches(table[pid], ids, listeners) == {name}
    {
      ThreeOfOneUnit(ids, table, listeners, stopped, name);
    }
    forall a, b, pid | a in listeners && b in listeners && a != b && pid in Tree(table, listeners[a].cgroup)
      ensures pid !in Tree(table, listeners[b].cgroup)
    {
      assert Matches(table[pid], ids, listeners) == {a} != {b};
    }
    ProtectedAreMembers(ids, table, listeners, stopped);
  }

  lemma ThreeOfOneUnit(ids: Ids, table: Table, listeners: Listeners, stopped: set<string>, name: string)
    requires Quiet(ids, table, listeners, stopped) && name in listeners
    ensures |Tree(table, listeners[name].cgroup)| == 3
    ensures forall pid <- Tree(table, listeners[name].cgroup) :: Matches(table[pid], ids, listeners) == {name}
  {
    hide Runs, Clear, Stopped, Concerns, Matches;
    var helper, listener :| Chain(table, ids, listeners, name, helper, listener);
    assert |{listeners[name].pid, helper, listener}| == 3;
  }

  lemma ProtectedAreMembers(ids: Ids, table: Table, listeners: Listeners, stopped: set<string>)
    requires Quiet(ids, table, listeners, stopped)
    ensures (set pid | pid in table && Concerns(table[pid], ids, listeners))
            == (set name, pid | name in listeners && pid in Tree(table, listeners[name].cgroup) :: pid)
  {
    hide Chain;
    forall pid | pid in table && Concerns(table[pid], ids, listeners)
      ensures exists name :: name in listeners && pid in Tree(table, listeners[name].cgroup)
    {
      var name :| name in listeners && InTree(table[pid], listeners[name].cgroup);
      assert pid in Tree(table, listeners[name].cgroup);
    }
  }

  // ---- Strangers ----

  /** At or below this cgroup. */
  ghost predicate Inside(p: Proc, cgroup: string) {
    exists g <- p.groups :: g.path == cgroup || cgroup + "/" <= g.path
  }

  /** As far as it could be read, the process has nobody's protected id, is in no unit's cgroup
      and in none of a stopped unit; its owner was readable or it was gone before. */
  ghost predicate Stranger(p: Proc, ids: Ids, listeners: Listeners, stopped: set<string>) {
    && p.seen != Unreadable
    && (p.seen in {Owner, Groups, Everything} ==> forall name <- ids :: ids[name] != p.uid)
    && (p.seen in {Groups, Everything} ==> forall name <- listeners :: !Inside(p, listeners[name].cgroup))
    && (p.seen == Everything ==>
          && (forall uid, name :: uid in p.uids && name in ids ==> ids[name] != uid)
          && (forall unit <- stopped :: !Inside(p, "/system.slice/" + unit)))
  }

  lemma StrangerMeans(p: Proc, ids: Ids, listeners: Listeners, stopped: set<string>)
    ensures Stranger(p, ids, listeners, stopped)
            <==> Clear(p, ids, listeners)
                 && (p.seen == Everything ==> !Protected(p, ids, listeners) && !Stopped(p, stopped))
  {
    assert forall cgroup :: Inside(p, cgroup) <==> InTree(p, cgroup);
    assert forall uid :: uid in ids.Values <==> exists name :: name in ids && ids[name] == uid;
    hide Inside, InTree;
  }

  /** In an accepted table every process is a stranger or part of an idle chain. */
  lemma StrangerOrIdle(ids: Ids, table: Table, listeners: Listeners, stopped: set<string>, pid: Pid)
    requires Quiet(ids, table, listeners, stopped) && pid in table
    ensures Stranger(table[pid], ids, listeners, stopped)
            || exists name, helper, listener ::
                 && name in listeners && Chain(table, ids, listeners, name, helper, listener)
                 && pid in {listeners[name].pid, helper, listener}
  {
    hide Protected, Stopped, Clear, Stranger, Seated;
    StrangerMeans(table[pid], ids, listeners, stopped);
    if !Stranger(table[pid], ids, listeners, stopped) {
      assert Concerns(table[pid], ids, listeners);
      var name :| name in listeners && InTree(table[pid], listeners[name].cgroup);
      var helper, listener :| Chain(table, ids, listeners, name, helper, listener);
      assert pid in Tree(table, listeners[name].cgroup);
    }
  }

  /** And strangers play no part: with or without one more of them the answer is the same. */
  lemma StrangersIgnored(ids: Ids, table: Table, listeners: Listeners, stopped: set<string>, pid: Pid, p: Proc)
    requires pid !in table && Stranger(p, ids, listeners, stopped)
    ensures Quiet(ids, table[pid := p], listeners, stopped) <==> Quiet(ids, table, listeners, stopped)
  {
    var more := table[pid := p];
    hide Protected, Stopped, Clear, Stranger, Seated;
    StrangerMeans(p, ids, listeners, stopped);
    forall name <- listeners
      ensures Tree(more, listeners[name].cgroup) == Tree(table, listeners[name].cgroup)
    {
      if p.seen == Everything {
        NotInside(p, ids, listeners, stopped, name);
      }
    }
    forall name, helper, listener | name in listeners
      ensures Chain(more, ids, listeners, name, helper, listener)
              <==> Chain(table, ids, listeners, name, helper, listener)
    {
      SameChain(table, more, ids, listeners, name, helper, listener);
    }
    hide Chain, Tree;
    assert forall other <- table :: more[other] == table[other];
  }

  lemma NotInside(p: Proc, ids: Ids, listeners: Listeners, stopped: set<string>, name: string)
    requires Stranger(p, ids, listeners, stopped) && name in listeners && p.seen == Everything
    ensures !InTree(p, listeners[name].cgroup)
  {
    assert !Inside(p, listeners[name].cgroup);
  }

  lemma SameChain(table: Table, more: Table, ids: Ids, listeners: Listeners, name: string, helper: Pid, listener: Pid)
    requires name in listeners && Tree(more, listeners[name].cgroup) == Tree(table, listeners[name].cgroup)
    requires forall pid <- table :: pid in more && more[pid] == table[pid]
    ensures Chain(more, ids, listeners, name, helper, listener)
            <==> Chain(table, ids, listeners, name, helper, listener)
  {
    assert Tree(table, listeners[name].cgroup) <= table.Keys;
    hide Seated, Tree;
  }

  /** The command lines of an idle chain: a shell with one of the two scripts, or the listener
      with its one word; each may be written from the root or relative to it. */
  lemma CommandLines(p: Proc, base: string, role: Role)
    requires "/" <= base
    ensures Runs(p, base, role)
            <==> match role
                 case Listening =>
                   && p.exe == base + "/bin/Runner.Listener"
                   && |p.argv| == 2 && Names(p.argv[0], base, "bin/Runner.Listener") && p.argv[1] == "run"
                 case RunScript => ShellOn(p, base, "run.sh")
                 case RunHelper => ShellOn(p, base, "run-helper.sh")
  {
    hide Resolved, Names;
    ResolvedMeans(p, base, "bin/Runner.Listener");
    ResolvedMeans(p, base, "run.sh");
    ResolvedMeans(p, base, "run-helper.sh");
    NoShell(base);
  }

  ghost predicate Names(word: string, base: string, file: string) {
    word in {base + "/" + file, "./" + file, file}
  }

  ghost predicate ShellOn(p: Proc, base: string, file: string) {
    && p.exe in {"/usr/bin/bash", "/bin/bash"} && |p.argv| == 2
    && p.argv[0] in {"/usr/bin/bash", "/bin/bash", "bash"} && Names(p.argv[1], base, file)
  }

  lemma NoShell(base: string)
    ensures base + "/bin/Runner.Listener" !in SHELLS
  {
    assert (base + "/bin/Runner.Listener")[|base| + 19] == 'r' && "/usr/bin/bash"[12] == 'h' && "/bin/bash"[8] == 'h';
  }

  lemma ResolvedMeans(p: Proc, base: string, file: string)
    requires "/" <= base && file in {"bin/Runner.Listener", "run.sh", "run-helper.sh"}
    ensures forall word <- p.argv :: Resolved(word, base) == base + "/" + file <==> Names(word, base, file)
  {
    forall word <- p.argv
      ensures Resolved(word, base) == base + "/" + file <==> Names(word, base, file)
    {
      ResolvedWord(word, base, file);
    }
  }

  lemma ResolvedWord(word: string, base: string, file: string)
    requires "/" <= base && file != "" && file[0] != '/' && file[0] != '.'
    ensures Resolved(word, base) == base + "/" + file <==> Names(word, base, file)
  {
    assert (base + "/" + file)[0] == '/' && ("./" + file)[0] == '.' && ("./" + file)[2..] == file;
    if "/" <= word {
      assert word[0] == '/';
    } else if "./" <= word {
      assert word[0] == '.';
      Tails(base + "/", word[2..], file);
      assert word == "./" + word[2..];
    } else {
      assert "./" <= "./" + file;
      Tails(base + "/", word, file);
    }
  }

  lemma Tails(head: string, a: string, b: string)
    ensures head + a == head + b <==> a == b
  {
    if head + a == head + b {
      assert a == (head + a)[|head|..] == (head + b)[|head|..] == b;
    }
  }

  // ---- Two units with one main process ----

  /** Process p is the main process of the units a and b and in both of their cgroups; each
      unit has its own helper and listener below it. */
  ghost predicate Shared(ids: Ids, table: Table, listeners: Listeners, a: string, b: string, p: Pid) {
    && a in listeners && b in listeners && a != b && listeners[a].pid == listeners[b].pid == p
    && (forall name <- listeners :: name == a || name == b)
    && 0 !in ids.Values && UsersKnown(ids, listeners)
    && p in table && Seated(table[p], ids, listeners, a, RunScript)
    && (exists helper, listener :: Below(table, ids, listeners, a, p, helper, listener))
    && (exists helper, listener :: Below(table, ids, listeners, b, p, helper, listener))
    && (forall pid <- table :: pid in Tree(table, listeners[a].cgroup) || pid in Tree(table, listeners[b].cgroup))
  }

  ghost predicate Below(table: Table, ids: Ids, listeners: Listeners, name: string, p: Pid, helper: Pid, listener: Pid)
    requires name in listeners
  {
    && Tree(table, listeners[name].cgroup) == {p, helper, listener}
    && p != helper && p != listener && helper != listener
    && Seated(table[helper], ids, listeners, name, RunHelper) && table[helper].parent == p
    && Seated(table[listener], ids, listeners, name, Listening) && table[listener].parent == helper
  }

  lemma TakenAnyway(table: Table, ids: Ids, listeners: Listeners, name: string, pid: Pid, role: Role)
    requires name in listeners && UsersKnown(ids, listeners)
    requires pid in Tree(table, listeners[name].cgroup) && Seated(table[pid], ids, listeners, name, role)
    ensures Classify(table[pid], ids, listeners, {}) == Take(Seat(table[pid].parent, listeners[name].pid, role))
  {
    assert Concerns(table[pid], ids, listeners) && !Stopped(table[pid], {});
  }

  lemma SharedLine(ids: Ids, table: Table, listeners: Listeners, name: string, p: Pid)
    requires name in listeners && UsersKnown(ids, listeners) && listeners[name].pid == p && p in table
    requires Classify(table[p], ids, listeners, {}) == Take(Seat(table[p].parent, p, RunScript))
    requires exists helper, listener :: Below(table, ids, listeners, name, p, helper, listener)
    ensures var seats, members := SeatsOf(table, ids, listeners, {}, table.Keys), Tree(table, listeners[name].cgroup);
            && ThreeRoles(seats, members, p)
            && forall pid <- members :: pid in seats && Rooted(seats, pid)
  {
    hide Classify, Seated, Tree, UsersKnown, Rooted, ThreeRoles;
    var helper, listener :| Below(table, ids, listeners, name, p, helper, listener);
    TakenAnyway(table, ids, listeners, name, helper, RunHelper);
    TakenAnyway(table, ids, listeners, name, listener, Listening);
    var seats := SeatsOf(table, ids, listeners, {}, table.Keys);
    assert Line(seats, {p, helper, listener}, p, helper, listener);
    LineIsRooted(seats, {p, helper, listener}, p, helper, listener);
  }

  lemma SharedMain(ids: Ids, table: Table, listeners: Listeners, a: string, b: string, p: Pid)
    requires Shared(ids, table, listeners, a, b, p)
    ensures p in Tree(table, listeners[a].cgroup) && !DistinctMains(listeners)
  {
    hide Seated, Tree;
  }

  lemma SharedLines(ids: Ids, table: Table, listeners: Listeners, a: string, b: string, p: Pid)
    requires Shared(ids, table, listeners, a, b, p)
    ensures forall pid <- table ::
              pid in SeatsOf(table, ids, listeners, {}, table.Keys)
                  && Rooted(SeatsOf(table, ids, listeners, {}, table.Keys), pid)
    ensures forall name <- listeners ::
              ThreeRoles(SeatsOf(table, ids, listeners, {}, table.Keys), Tree(table, listeners[name].cgroup),
                  listeners[name].pid)
  {
    hide Seated, Below, UsersKnown, Classify, Tree, SeatsOf, Rooted, ThreeRoles;
    SharedMain(ids, table, listeners, a, b, p);
    TakenAnyway(table, ids, listeners, a, p, RunScript);
    SharedLine(ids, table, listeners, a, p);
    SharedLine(ids, table, listeners, b, p);
  }

  /** The condition on main processes is needed: the checks accept every such table, and it
      does not have the wanted shape. */
  lemma SharedIsAccepted(ids: Ids, table: Table, listeners: Listeners, a: string, b: string, p: Pid)
    requires Shared(ids, table, listeners, a, b, p)
    ensures LocalChecks(ids, table, listeners, {}) && !Quiet(ids, table, listeners, {})
  {
    hide Seated, Below, UsersKnown, Quiet, Classify, Tree, SeatsOf, Rooted, ThreeRoles, DistinctMains, LocalChecks;
    SharedMain(ids, table, listeners, a, b, p);
    SharedLines(ids, table, listeners, a, b, p);
    AllTaken(ids, table, listeners);
    Accepted(ids, table, listeners, SeatsOf(table, ids, listeners, {}, table.Keys));
    Exact(ids, table, listeners, {});
  }

  lemma Accepted(ids: Ids, table: Table, listeners: Listeners, seats: Seats)
    requires seats == SeatsOf(table, ids, listeners, {}, table.Keys) && 0 !in ids.Values
    requires forall pid <- table :: Classify(table[pid], ids, listeners, {}) != Reject
    requires forall name <- listeners :: ThreeRoles(seats, Tree(table, listeners[name].cgroup), listeners[name].pid)
    requires forall pid <- table :: pid in seats && Rooted(seats, pid)
    ensures LocalChecks(ids, table, listeners, {})
  {
    hide Classify, ThreeRoles, Rooted, Tree;
    assert seats.Keys <= table.Keys;
  }

  lemma AllTaken(ids: Ids, table: Table, listeners: Listeners)
    requires forall pid <- table :: pid in SeatsOf(table, ids, listeners, {}, table.Keys)
    ensures forall pid <- table :: Classify(table[pid], ids, listeners, {}) != Reject
  {
    hide Classify;
  }

  // ---- Such a table ----

  /** What the unit inspection hands on for an active runner unit. */
  predicate Supplied(listeners: Listeners, namespace: string) {
    && Slices(listeners)
    && forall name <- listeners :: listeners[name].pid != "0" && "/opt/" + namespace + "/" <= listeners[name].root
  }

  function Idle(role: Role, root: string, uid: nat, groups: seq<Group>, parent: Pid): (p: Proc)
    ensures p.seen == Everything && p.groups == groups && p.parent == parent && p.cwd == root && p.uid == uid
  {
    var argv := match role
      case RunScript => ["bash", root + "/run.sh"]
      case RunHelper => ["bash", root + "/run-helper.sh"]
      case Listening => [root + "/bin/Runner.Listener", "run"];
    var exe := if role == Listening then argv[0] else "/bin/bash";
    Proc(Everything, uid, groups, [uid, uid, uid, uid], parent, true, true, argv, exe, root)
  }

  lemma IdleRuns(role: Role, root: string, uid: nat, groups: seq<Group>, parent: Pid)
    requires "/" <= root
    ensures Runs(Idle(role, root, uid, groups, parent), root, role)
  {
  }

  const RUNNER := "relay-runner.service"
  const GENERAL := "relay-general-runner.service"
  const NAMESPACE := "relay"

  function GroupOf(name: string): string {
    "/system.slice/" + name
  }

  function RootOf(relative: string): string {
    "/opt/" + NAMESPACE + "/" + relative
  }

  function TwoAccounts(): Ids {
    map["relay-runner" := 7, "relay-general" := 8]
  }

  function RunnerUnit(): Listener {
    Listener(GroupOf(RUNNER), "relay-runner", RootOf("runner"), "11")
  }

  function GeneralUnit(): Listener {
    Listener(GroupOf(GENERAL), "relay-general", RootOf("general-runner"), "11")
  }

  function TwoUnits(): Listeners {
    map[RUNNER := RunnerUnit(), GENERAL := GeneralUnit()]
  }

  /** Process 11 is in the cgroup of the runner's unit, and for the memory controller in that
      of the general runner's. */
  function TwoTrees(): Table {
    var a, b := Group("0", "", GroupOf(RUNNER)), Group("0", "", GroupOf(GENERAL));
    var rootA, rootB := RunnerUnit().root, GeneralUnit().root;
    map["11" := Idle(RunScript, rootA, 7, [a, Group("5", "memory", GroupOf(GENERAL))], "1"),
        "12" := Idle(RunHelper, rootA, 7, [a], "11"), "13" := Idle(Listening, rootA, 7, [a], "12"),
        "14" := Idle(RunHelper, rootB, 8, [b], "11"), "15" := Idle(Listening, rootB, 8, [b], "14")]
  }

  /** An idle process of one of the two units sits in that unit only. */
  lemma TwoUnitsSeated(p: Proc, name: string, role: Role)
    requires name in TwoUnits()
    requires var unit := TwoUnits()[name];
             && p == Idle(role, unit.root, TwoAccounts()[unit.user], p.groups, p.parent)
             && InUnit(p, unit.cgroup)
    ensures Seated(p, TwoAccounts(), TwoUnits(), name, role)
  {
    hide GroupOf;
    var unit := TwoUnits()[name];
    RootUnder(if name == RUNNER then "runner" else "general-runner");
    IdleRuns(role, unit.root, p.uid, p.groups, p.parent);
    hide Runs, InUnit;
    assert Matches(p, TwoAccounts(), TwoUnits()) == {name};
  }

  lemma GroupsApart()
    ensures !Under(GroupOf(RUNNER), GroupOf(GENERAL)) && !Under(GroupOf(GENERAL), GroupOf(RUNNER))
  {
    assert |"/system.slice/"| == 14;
    assert GroupOf(RUNNER)[20] == RUNNER[6] == 'r' && GroupOf(GENERAL)[20] == GENERAL[6] == 'g';
  }

  lemma TwoUnitsTrees()
    ensures Tree(TwoTrees(), GroupOf(RUNNER)) == {"11", "12", "13"}
    ensures Tree(TwoTrees(), GroupOf(GENERAL)) == {"11", "14", "15"}
  {
    hide Idle, Under, GroupOf, RootOf;
    GroupsApart();
    var table, a, b := TwoTrees(), GroupOf(RUNNER), GroupOf(GENERAL);
    assert Under(a, a) && Under(b, b) by {
      InItself(a);
      InItself(b);
    }
    assert !InTree(table["12"], b) && !InTree(table["13"], b) && !InTree(table["14"], a) && !InTree(table["15"], a);
    assert InTree(table["11"], a) && InTree(table["11"], b);
  }

  lemma InItself(cgroup: string)
    ensures Under(cgroup, cgroup)
  {
  }

  lemma NoSlash()
    ensures '/' !in RUNNER && '/' !in GENERAL
  {
    assert forall c <- RUNNER :: c != '/';
    assert forall c <- GENERAL :: c != '/';
  }

  lemma RootUnder(relative: string)
    ensures "/opt/" + NAMESPACE + "/" <= RootOf(relative)
  {
  }

  lemma TwoUnitsSupplied()
    ensures Supplied(TwoUnits(), NAMESPACE)
  {
    hide RootOf, GroupOf;
    NoSlash();
    RootUnder("runner");
    RootUnder("general-runner");
    SliceOf(RUNNER);
    SliceOf(GENERAL);
  }

  lemma SliceOf(name: string)
    ensures GroupOf(name) == "/system.slice/" + name
  {
  }

  /** There is such a table, with units as the inspection hands them on. */
  lemma TwoUnitsOneMain()
    ensures Supplied(TwoUnits(), NAMESPACE) && Shared(TwoAccounts(), TwoTrees(), TwoUnits(), RUNNER, GENERAL, "11")
  {
    hide Seated, Idle, Tree, Runs, Supplied, GroupOf, RootOf;
    var table, units, ids := TwoTrees(), TwoUnits(), TwoAccounts();
    TwoUnitsSupplied();
    TwoUnitsTrees();
    TwoUnitsSeated(table["11"], RUNNER, RunScript);
    TwoUnitsSeated(table["12"], RUNNER, RunHelper);
    TwoUnitsSeated(table["13"], RUNNER, Listening);
    TwoUnitsSeated(table["14"], GENERAL, RunHelper);
    TwoUnitsSeated(table["15"], GENERAL, Listening);
    assert Below(table, ids, units, RUNNER, "11", "12", "13");
    assert Below(table, ids, units, GENERAL, "11", "14", "15");
  }
}
