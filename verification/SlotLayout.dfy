/** The derived slot layout (deploy/config.py): the same 32 slots for every capacity,
    one member table computed in several places, and roots that never overlap. */
module SlotLayout {
  import opened Effects
  import opened Text
  import FileTree
  import opened PoolModel

  datatype Paths = Paths(
    workRoot: string, attemptRoot: string, dispatch: string, launcher: string,
    diagnosticsConfig: string, diagnosticsStore: string, diagnosticsRoot: string)

  datatype Slot = Slot(
    id: string, runnerName: string, runnerUser: string, runtimeUser: string, workGroup: string, paths: Paths)

  /** The parts of the configuration of a managed pool that slots and member tables come
      from. `supplied` is the slot list already in it; `anchor` and `home` are the
      repositories named by the environment and the consumer. */
  datatype Config = Config(
    namespace: string, poolName: string, poolUser: string, runtimeUser: string, workGroup: string,
    primary: Paths, capacity: nat, supplied: Option<seq<Slot>>,
    anchor: Option<string>, home: Option<string>, repositories: Option<seq<string>>,
    group: string, appId: nat, installationId: nat)

  const SLOTS := 32

  // ---- derive_managed_pool_slots ----

  function SlotId(number: nat): string {
    if number == 1 then "primary" else "pool-" + Decimal(number)
  }

  function Child(dir: string, name: string): string {
    dir + "/" + name
  }

  /** `execution_slot_paths`. */
  function SlotPaths(namespace: string, id: string): Paths {
    var install, config, state := "/opt/" + namespace + "/slots/" + id, "/etc/" + namespace + "/slots/" + id,
                                  "/var/lib/" + namespace + "/slots/" + id;
    Paths(Child(state, "work"), Child(Child(state, "dispatch"), "attempts-v2"), Child(install, "relay-codex-dispatch"),
          Child(install, "relay-codex"), Child(config, "runtime-diagnostics.json"),
          Child(install, "relay-diagnostics-store"), Child(state, "debug"))
  }

  function RunnerName(pool: string, number: nat): string {
    if number == 1 then pool else pool + "-" + Decimal(number)
  }

  function SlotOf(c: Config, number: nat): Slot {
    Slot(SlotId(number), RunnerName(c.poolName, number), c.poolUser, c.runtimeUser,
         c.workGroup, if number == 1 then c.primary else SlotPaths(c.namespace, SlotId(number)))
  }

  function Derived(c: Config): (slots: seq<Slot>)
    ensures |slots| == SLOTS && forall i :: 0 <= i < SLOTS ==> slots[i] == SlotOf(c, i + 1)
  {
    seq(SLOTS, i requires 0 <= i < SLOTS => SlotOf(c, i + 1))
  }

  /** `derive_managed_pool_slots`: it fills in the slots, and refuses any other ones. */
  method DeriveSlots(c: Config) returns (r: Result<Config>)
    ensures r.Ok? <==> c.supplied in {None, Some(Derived(c))}
    ensures r.Ok? ==> r.value == c.(supplied := Some(Derived(c)))
  {
    var slots: seq<Slot> := [];
    for number := 1 to 33
      invariant |slots| == number - 1 && forall i :: 0 <= i < |slots| ==> slots[i] == SlotOf(c, i + 1)
    {
      slots := slots + [SlotOf(c, number)];
    }
    assert slots == Derived(c);
    return if c.supplied in {None, Some(slots)} then Ok(c.(supplied := Some(slots))) else Stop(Raised);
  }

  /** Deriving twice changes nothing, and the wanted capacity plays no part. */
  lemma DerivedIsStable(c: Config, capacity: nat)
    ensures Derived(c.(supplied := Some(Derived(c)))) == Derived(c)
    ensures Derived(c.(capacity := capacity)) == Derived(c)
  {
    var filled, other := c.(supplied := Some(Derived(c))), c.(capacity := capacity);
    assert forall n: nat :: SlotOf(filled, n) == SlotOf(c, n) && SlotOf(other, n) == SlotOf(c, n);
  }

  // ---- One member table, computed in several places ----

  /** SHA-256 as hexadecimal digits. */
  type Sha = string -> string

  /** The first 24 digits. */
  function Short(digits: string): (r: string)
    ensures r <= digits && |r| == if |digits| < 24 then |digits| else 24
  {
    if |digits| <= 24 then digits else digits[..24]
  }

  // deploy/config.py

  /** `execution_slot_label` of a configuration with a managed pool. */
  function ExecutionSlotLabel(c: Config, slot: Slot, sha: Sha): string {
    var identity := c.poolName + ":" + slot.id;
    "relay-slot-" + Short(sha(identity))
  }

  /** `general_pool_label`. */
  function GeneralPoolLabel(c: Config, sha: Sha): string {
    "relay-pool-" + Short(sha(c.poolName))
  }

  /** `deployment_repository`; None where it raises. */
  function DeploymentRepository(c: Config): Option<string> {
    var configured := if c.repositories.Some? then c.repositories.value
                      else if c.home.Some? then [c.home.value] else [];
    var selected := if c.anchor.Some? then c.anchor else c.home;
    if selected.Some? && selected.value in configured then selected else None
  }

  /** `int(slot_id.removeprefix('pool-'))` in `execution_slot_inputs`. */
  function NumberOf(id: string): nat {
    if id == "primary" then 1 else Value(if "pool-" <= id then id[5..] else id)
  }

  /** `relay_runner_service_name` of `execution_slot_inputs`, read back out of the slot id. */
  function ServiceInput(c: Config, id: string): string {
    c.poolName + "-pool-" + Decimal(NumberOf(id)) + ".service"
  }

  // deploy/managed_pool.py

  function ContractMember(c: Config, slots: seq<Slot>, i: nat, sha: Sha): Member
    requires i < |slots|
  {
    var name, slot := c.poolName, slots[i];
    Member(slot.id, slot.runnerName, ExecutionSlotLabel(c, slot, sha),
           "/opt/codex-relay-pools/" + name + "/runners/" + slot.id,
           "/var/lib/codex-relay-pools/" + name + "/runners/" + slot.id,
           name + "-pool-" + Decimal(i + 1) + ".service")
  }

  /** `binding(pool_contract(config))`; None where `pool_contract` raises. */
  function ContractBinding(c: Config, slots: seq<Slot>, sha: Sha): Option<Binding> {
    var repository := DeploymentRepository(c);
    if repository.None? then None
    else
      Some(Binding(1, c.poolName, c.poolUser, Split(repository.value, '/')[0], c.group, c.appId, c.installationId,
                   GeneralPoolLabel(c, sha),
                   seq(|slots|, i requires 0 <= i < |slots| => ContractMember(c, slots, i, sha))))
  }

  // deploy/inventory.py

  function InventoryMember(c: Config, slots: seq<Slot>, number: nat, sha: Sha): Member
    requires 1 <= number <= |slots|
  {
    var slot := slots[number - 1];
    Member(slot.id, slot.runnerName, "relay-slot-" + Short(sha(c.poolName + ":" + slot.id)),
           "/opt/codex-relay-pools/" + c.poolName + "/runners/" + slot.id,
           "/var/lib/codex-relay-pools/" + c.poolName + "/runners/" + slot.id,
           c.poolName + "-pool-" + Decimal(number) + ".service")
  }

  function InventoryMembers(c: Config, slots: seq<Slot>, sha: Sha): (members: seq<Member>)
    ensures |members| == |slots| && forall i :: 0 <= i < |slots| ==> members[i] == InventoryMember(c, slots, i + 1, sha)
  {
    seq(|slots|, i requires 0 <= i < |slots| => InventoryMember(c, slots, i + 1, sha))
  }

  /** What `_managed_pool` expects of the recorded binding; None where it raises. */
  function InventoryBinding(c: Config, slots: seq<Slot>, sha: Sha): Option<Binding> {
    var repository := if c.anchor.Some? then c.anchor else c.home;
    if repository.None? then None
    else
      Some(Binding(1, c.poolName, c.poolUser, Split(repository.value, '/')[0], c.group, c.appId, c.installationId,
                   "relay-pool-" + Short(sha(c.poolName)), InventoryMembers(c, slots, sha)))
  }

  /** The install root and work folder at which `_runner` looks for a pool member. */
  function ObservedRoot(c: Config, slot: Slot): string {
    "/opt/codex-relay-pools/" + (c.poolName + "/runners/" + slot.id)
  }

  function ObservedWork(c: Config, slot: Slot): string {
    "/var/lib/codex-relay-pools/" + (c.poolName + "/runners/" + slot.id) + "/work"
  }

  lemma NumberRoundTrip(number: nat)
    requires number >= 1
    ensures NumberOf(SlotId(number)) == number
  {
    if number > 1 {
      var id := SlotId(number);
      assert id[0] == 'p' && id[1] == 'o' && "primary"[1] == 'r';
      assert id[..5] == "pool-" && id[5..] == Decimal(number);
      DecimalRoundTrip(number);
    }
  }

  /** For every configuration with a contract, all computations agree on every slot: the
      recorded binding is what inventory expects, the files inventory looks at are the
      member's, and the service `execution_slot_inputs` names is the member's. */
  lemma TablesAgree(c: Config, sha: Sha)
    requires ContractBinding(c, Derived(c), sha).Some?
    ensures InventoryBinding(c, Derived(c), sha) == ContractBinding(c, Derived(c), sha)
    ensures forall i: nat :: i < SLOTS ==>
              var m, slot := InventoryMembers(c, Derived(c), sha)[i], Derived(c)[i];
              && m.root == ObservedRoot(c, slot) && m.state + "/work" == ObservedWork(c, slot)
              && m.service == ServiceInput(c, m.id)
  {
    var slots := Derived(c);
    forall i: nat | i < SLOTS
      ensures ContractMember(c, slots, i, sha) == InventoryMember(c, slots, i + 1, sha)
      ensures var m, slot := InventoryMembers(c, slots, sha)[i], slots[i];
              && m.root == ObservedRoot(c, slot) && m.state + "/work" == ObservedWork(c, slot)
              && m.service == ServiceInput(c, m.id)
    {
      NumberRoundTrip(i + 1);
      Regroup("/opt/codex-relay-pools/", c.poolName, "/runners/", slots[i].id);
      Regroup("/var/lib/codex-relay-pools/", c.poolName, "/runners/", slots[i].id);
    }
    assert ContractBinding(c, slots, sha).value.members == InventoryMembers(c, slots, sha);
  }

  /** A repository the consumer is configured for: one of a list, or the only one. */
  predicate Configured(c: Config, repository: string) {
    if c.repositories.Some? then repository in c.repositories.value else c.home == Some(repository)
  }

  /** There is a contract exactly when the anchor, or without one the home repository, is one the
      consumer is configured for. */
  lemma ContractExactlyWhen(c: Config, slots: seq<Slot>, sha: Sha)
    ensures ContractBinding(c, slots, sha).Some?
            <==> exists r :: (c.anchor == Some(r) || (c.anchor == None && c.home == Some(r))) && Configured(c, r)
    ensures forall r :: DeploymentRepository(c) == Some(r) ==>
              c.anchor in {Some(r), None} && (c.anchor == None ==> c.home == Some(r)) && Configured(c, r)
  {
    var selected := if c.anchor.Some? then c.anchor else c.home;
    if selected.Some? && Configured(c, selected.value) {
      assert DeploymentRepository(c) == selected;
    }
  }

  lemma Regroup(a: string, b: string, c: string, d: string)
    ensures a + b + c + d == a + (b + c + d)
  {
  }

  lemma DecimalInjective(a: nat, b: nat)
    requires Decimal(a) == Decimal(b)
    ensures a == b
  {
    DecimalRoundTrip(a);
    DecimalRoundTrip(b);
  }

  /** Slot ids, runner names and services are pairwise distinct. */
  lemma SlotsDistinct(c: Config, i: nat, j: nat)
    requires i < j < SLOTS
    ensures Derived(c)[i].id != Derived(c)[j].id
    ensures Derived(c)[i].runnerName != Derived(c)[j].runnerName
    ensures ServiceInput(c, Derived(c)[i].id) != ServiceInput(c, Derived(c)[j].id)
  {
    NumberRoundTrip(i + 1);
    NumberRoundTrip(j + 1);
    NamesDiffer(c.poolName, i + 1, j + 1);
    hide SlotId, NumberOf;
  }

  lemma NamesDiffer(pool: string, i: nat, j: nat)
    requires 1 <= i < j
    ensures RunnerName(pool, i) != RunnerName(pool, j)
    ensures pool + "-pool-" + Decimal(i) + ".service" != pool + "-pool-" + Decimal(j) + ".service"
  {
    var a, b := Decimal(i), Decimal(j);
    if a == b {
      DecimalInjective(i, j);
    }
    hide Decimal;
    if i == 1 {
      assert |RunnerName(pool, i)| < |RunnerName(pool, j)|;
    } else {
      Tail(pool + "-", a, b);
    }
    SameEnd(pool + "-pool-" + a, pool + "-pool-" + b, ".service");
    Tail(pool + "-pool-", a, b);
  }

  lemma Tail(base: string, x: string, y: string)
    ensures base + x == base + y ==> x == y
  {
    assert (base + x)[|base|..] == x && (base + y)[|base|..] == y;
  }

  lemma SameEnd(x: string, y: string, end: string)
    ensures x + end == y + end ==> x == y
  {
    if x + end == y + end {
      assert |x| == |y| && x == (x + end)[..|x|] && y == (y + end)[..|x|];
    }
  }

  /** The members `reconcile` is given have distinct ids and names. */
  lemma MembersDistinct(c: Config, sha: Sha)
    requires ContractBinding(c, Derived(c), sha).Some?
    ensures DistinctMembers(ContractBinding(c, Derived(c), sha).value.members)
  {
    var members := ContractBinding(c, Derived(c), sha).value.members;
    forall i, j | 0 <= i < j < SLOTS
      ensures members[i].id != members[j].id && members[i].name != members[j].name
    {
      SlotsDistinct(c, i, j);
    }
  }

  // ---- Paths that overlap ----

  /** The test of `validate`: equal, or one is the other's prefix up to a slash. */
  predicate Overlap(a: string, b: string) {
    a == b || b + "/" <= a || a + "/" <= b
  }

  function Components(path: string): FileTree.Path {
    Split(path, '/')[1..]
  }

  lemma RootFirst(path: string)
    requires "/" <= path
    ensures Split(path, '/') == [""] + Components(path)
  {
    assert Until(path, '/') == 0;
  }

  /** Among absolute paths the string test is the component test. */
  lemma OverlapIsNesting(a: string, b: string)
    requires "/" <= a && "/" <= b
    ensures Overlap(a, b) <==>
              FileTree.Under(Components(a), Components(b)) || FileTree.Under(Components(b), Components(a))
  {
    PrefixIsUnder(a, b);
    PrefixIsUnder(b, a);
  }

  lemma PrefixIsUnder(a: string, b: string)
    requires "/" <= a && "/" <= b
    ensures (a == b || b + "/" <= a) <==> FileTree.Under(Components(a), Components(b))
  {
    if b + "/" <= a {
      assert a == b + "/" + a[|b| + 1..];
      ComponentsBelow(b, a[|b| + 1..]);
    }
    if FileTree.Under(Components(a), Components(b)) {
      UnderIsPrefix(a, b);
    }
  }

  lemma UnderIsPrefix(a: string, b: string)
    requires "/" <= a && "/" <= b && FileTree.Under(Components(a), Components(b))
    ensures a == b || b + "/" <= a
  {
    RootFirst(a);
    RootFirst(b);
    JoinSplit(a, '/');
    JoinSplit(b, '/');
    hide Split, Join;
    var rest := Components(a)[|Components(b)|..];
    assert Split(a, '/') == Split(b, '/') + rest;
    if rest == [] {
      assert Split(a, '/') == Split(b, '/');
    } else {
      JoinBoth(Split(b, '/'), rest, '/');
    }
  }

  /** Some path lies below both. */
  ghost predicate Meet(a: string, b: string) {
    exists p: FileTree.Path :: FileTree.Under(p, Components(a)) && FileTree.Under(p, Components(b))
  }

  /** Two paths that pass the test share no descendant; two that fail it do. */
  lemma NoCommonDescendant(a: string, b: string)
    requires "/" <= a && "/" <= b
    ensures !Overlap(a, b) <==> !Meet(a, b)
  {
    OverlapIsNesting(a, b);
    var x, y := Components(a), Components(b);
    assert FileTree.Under(x, x) && FileTree.Under(y, y);
    if p: FileTree.Path :| FileTree.Under(p, x) && FileTree.Under(p, y) {
      FileTree.Nested(x, y, p);
    }
  }

  /** For absolute paths the checks mean that nothing lies below an owned and a protected one. */
  lemma OverlapsMeet(owned: seq<string>, protected: seq<string>)
    requires (forall a <- owned :: "/" <= a) && forall b <- protected :: "/" <= b
    ensures (forall a, b :: a in owned && b in protected ==> !Overlap(a, b))
            <==> forall a, b :: a in owned && b in protected ==> !Meet(a, b)
  {
    hide Overlap, Meet;
    forall a, b | a in owned && b in protected
      ensures !Overlap(a, b) <==> !Meet(a, b)
    {
      NoCommonDescendant(a, b);
    }
  }

  /** The path checks of `validate`. */
  method CheckPaths(owned: seq<string>, protected: seq<string>) returns (ok: bool)
    ensures ok <==> forall a, b :: a in owned && b in protected ==> !Overlap(a, b)
    ensures (forall a <- owned :: "/" <= a) && (forall b <- protected :: "/" <= b) ==>
              (ok <==> forall a, b :: a in owned && b in protected ==> !Meet(a, b))
  {
    hide Overlap, Meet;
    if (forall a <- owned :: "/" <= a) && forall b <- protected :: "/" <= b {
      OverlapsMeet(owned, protected);
    }
    for i := 0 to |owned|
      invariant forall a, b :: a in owned[..i] && b in protected ==> !Overlap(a, b)
    {
      for k := 0 to |protected|
        invariant forall b :: b in protected[..k] ==> !Overlap(owned[i], b)
      {
        assert protected[..k + 1] == protected[..k] + [protected[k]];
        if Overlap(owned[i], protected[k]) {
          assert owned[i] in owned && protected[k] in protected;
          return false;
        }
      }
      assert protected[..|protected|] == protected && owned[..i + 1] == owned[..i] + [owned[i]];
    }
    assert owned[..|owned|] == owned;
    return true;
  }

  // ---- Roots of different slots ----

  lemma PlainId(number: nat)
    ensures '/' !in SlotId(number)
  {
  }

  /** Below one base, names without a slash never overlap unless they are equal; nor
      does anything below them. */
  lemma SiblingsApart(base: string, x: string, y: string, xs: string, ys: string)
    requires '/' !in x && '/' !in y && x != y && "/" <= base
    requires (xs == "" || "/" <= xs) && (ys == "" || "/" <= ys)
    ensures !Overlap(base + "/" + x + xs, base + "/" + y + ys)
  {
    var a, b := base + "/" + x + xs, base + "/" + y + ys;
    Below(base, x, xs);
    Below(base, y, ys);
    RootFirst(base);
    var n := |Components(base)|;
    assert Components(a)[n] == x && Components(b)[n] == y;
    OverlapIsNesting(a, b);
    FileTree.DifferAt(Components(a), Components(b), n);
  }

  lemma Below(base: string, x: string, xs: string)
    requires '/' !in x && "/" <= base && (xs == "" || "/" <= xs)
    ensures |Components(base + "/" + x + xs)| > |Components(base)|
    ensures Components(base + "/" + x + xs)[|Components(base)|] == x
  {
    assert base + "/" + x + xs == base + "/" + (x + xs);
    ComponentsBelow(base, x + xs);
    FirstIs(x, xs);
    hide Split, Components;
  }

  lemma ComponentsBelow(base: string, rest: string)
    requires "/" <= base
    ensures Components(base + "/" + rest) == Components(base) + Split(rest, '/')
  {
    RootFirst(base);
    RootFirst(base + "/" + rest);
    SplitBoth(base, rest, '/');
    hide Split;
  }

  lemma FirstIs(x: string, xs: string)
    requires '/' !in x && (xs == "" || "/" <= xs)
    ensures Split(x + xs, '/')[0] == x
  {
    if xs == "" {
      assert x + xs == x;
      assert Until(x, '/') == |x|;
    } else {
      assert x + xs == x + ['/'] + xs[1..];
      FirstPart(x, xs[1..], '/');
    }
  }

  function PoolRoot(base: string, c: Config, id: string): string {
    base + "/codex-relay-pools/" + c.poolName + "/runners/" + id
  }

  lemma SlotIdsApart(c: Config, i: nat, j: nat)
    requires i < j < SLOTS
    ensures Derived(c)[i].id != Derived(c)[j].id && '/' !in Derived(c)[i].id && '/' !in Derived(c)[j].id
  {
    SlotsDistinct(c, i, j);
    PlainId(i + 1);
    PlainId(j + 1);
  }

  /** The pool roots of two slots never overlap, nor do any paths below their slot
      directories. */
  lemma SlotRootsApart(c: Config, i: nat, j: nat, base: string, xs: string, ys: string)
    requires i < j < SLOTS && "/" <= base && (xs == "" || "/" <= xs) && (ys == "" || "/" <= ys)
    ensures !Overlap(PoolRoot(base, c, Derived(c)[i].id), PoolRoot(base, c, Derived(c)[j].id))
    ensures var slots := base + "/" + c.namespace + "/slots";
            !Overlap(slots + "/" + Derived(c)[i].id + xs, slots + "/" + Derived(c)[j].id + ys)
  {
    SlotIdsApart(c, i, j);
    hide Derived, Overlap, SlotOf;
    var x, y := Derived(c)[i].id, Derived(c)[j].id;
    var runners := base + "/codex-relay-pools/" + c.poolName + "/runners";
    assert PoolRoot(base, c, x) == runners + "/" + x + "" && PoolRoot(base, c, y) == runners + "/" + y + "";
    SiblingsApart(runners, x, y, "", "");
    SiblingsApart(base + "/" + c.namespace + "/slots", x, y, xs, ys);
  }

  // ---- The paths of the derived slots ----

  function PathList(paths: Paths): seq<string> {
    [paths.workRoot, paths.attemptRoot, paths.dispatch, paths.launcher,
     paths.diagnosticsConfig, paths.diagnosticsStore, paths.diagnosticsRoot]
  }

  const PATHS := 7

  /** Where each of the seven belongs: state, programs or configuration. */
  function BaseOf(k: nat): string {
    if k in {0, 1, 6} then "/var/lib" else if k == 4 then "/etc" else "/opt"
  }

  function SlotDir(base: string, namespace: string, id: string): string {
    base + "/" + namespace + "/slots/" + id
  }

  /** The name of the path in its slot's directory. */
  function NameOf(k: nat): string {
    match k
    case 0 => "work"
    case 1 => "dispatch"
    case 2 => "relay-codex-dispatch"
    case 3 => "relay-codex"
    case 4 => "runtime-diagnostics.json"
    case 5 => "relay-diagnostics-store"
    case _ => "debug"
  }

  function RestOf(k: nat): string {
    if k == 1 then "/" + "attempts-v2" else ""
  }

  lemma SlotDirs(namespace: string, id: string)
    ensures "/var/lib/" + namespace + "/slots/" + id == SlotDir("/var/lib", namespace, id)
    ensures "/opt/" + namespace + "/slots/" + id == SlotDir("/opt", namespace, id)
    ensures "/etc/" + namespace + "/slots/" + id == SlotDir("/etc", namespace, id)
  {
    assert "/var/lib/" == "/var/lib" + "/" && "/opt/" == "/opt" + "/" && "/etc/" == "/etc" + "/";
  }

  lemma PathAt(namespace: string, id: string, k: nat)
    requires k < PATHS
    ensures PathList(SlotPaths(namespace, id))[k]
            == SlotDir(BaseOf(k), namespace, id) + "/" + NameOf(k) + RestOf(k)
  {
    hide SlotDir;
    SlotDirs(namespace, id);
    var dir := SlotDir(BaseOf(k), namespace, id);
    ChildOfChild(dir, "dispatch", "attempts-v2");
    assert dir + "/" + NameOf(k) + "" == dir + "/" + NameOf(k);
  }

  lemma ChildOfChild(dir: string, x: string, y: string)
    ensures Child(Child(dir, x), y) == dir + "/" + x + ("/" + y)
  {
  }

  lemma NamesApart(a: nat, b: nat)
    requires a < PATHS && b < PATHS
    ensures '/' !in NameOf(a) && (a != b ==> NameOf(a) != NameOf(b))
  {
    hide NameOf;
    NameLength(a);
    NameLength(b);
    NamePlain(a);
  }

  lemma NameLength(k: nat)
    requires k < PATHS
    ensures |NameOf(k)| == [4, 8, 20, 11, 24, 23, 5][k]
  {
  }

  lemma NamePlain(k: nat)
    requires k < PATHS
    ensures '/' !in NameOf(k)
  {
    forall ch | ch in NameOf(k)
      ensures ch != '/'
    {
    }
  }

  /** Different bases never overlap. */
  lemma BasesApart(a: nat, b: nat, x: string, y: string)
    requires a < PATHS && b < PATHS && BaseOf(a) != BaseOf(b)
    ensures !Overlap(BaseOf(a) + "/" + x, BaseOf(b) + "/" + y)
  {
    var p, q := BaseOf(a) + "/" + x, BaseOf(b) + "/" + y;
    assert p[1] == BaseOf(a)[1] && q[1] == BaseOf(b)[1];
    assert p[1] != q[1];
  }

  lemma PathSplit(namespace: string, id: string, k: nat)
    ensures SlotDir(BaseOf(k), namespace, id) + "/" + NameOf(k) + RestOf(k)
            == BaseOf(k) + "/" + (namespace + "/slots/" + id + "/" + NameOf(k) + RestOf(k))
    ensures SlotDir(BaseOf(k), namespace, id) + "/" + NameOf(k) + RestOf(k)
            == BaseOf(k) + "/" + namespace + "/slots" + "/" + id + ("/" + NameOf(k) + RestOf(k))
  {
    hide BaseOf, NameOf, RestOf;
    assert "/slots/" == "/slots" + "/";
  }

  /** No two of the paths of the derived slots after the first overlap: not across slots and
      not within one. */
  lemma SlotPathsApart(c: Config, i: nat, a: nat, j: nat, b: nat)
    requires 1 <= i < SLOTS && 1 <= j < SLOTS && a < PATHS && b < PATHS && (i != j || a != b)
    ensures !Overlap(PathList(Derived(c)[i].paths)[a], PathList(Derived(c)[j].paths)[b])
  {
    hide Overlap, BaseOf, NameOf, RestOf, SlotPaths, PathList, Decimal;
    var x, y := Derived(c)[i].id, Derived(c)[j].id;
    if i != j {
      SlotIdsApart(c, if i < j then i else j, if i < j then j else i);
    }
    SlotIdPathsApart(c.namespace, x, a, y, b);
  }

  lemma SlotIdPathsApart(namespace: string, x: string, a: nat, y: string, b: nat)
    requires a < PATHS && b < PATHS && (x == y ==> a != b) && (x != y ==> '/' !in x && '/' !in y)
    ensures !Overlap(PathList(SlotPaths(namespace, x))[a], PathList(SlotPaths(namespace, y))[b])
  {
    hide Overlap, BaseOf, NameOf, RestOf, SlotPaths, SlotDir;
    PathAt(namespace, x, a);
    PathAt(namespace, y, b);
    PathSplit(namespace, x, a);
    PathSplit(namespace, y, b);
    NamesApart(a, b);
    InBase(a);
    InBase(b);
    if BaseOf(a) != BaseOf(b) {
      BasesApart(a, b, namespace + "/slots/" + x + "/" + NameOf(a) + RestOf(a),
                 namespace + "/slots/" + y + "/" + NameOf(b) + RestOf(b));
    } else if x != y {
      SiblingsApart(BaseOf(a) + "/" + namespace + "/slots", x, y, "/" + NameOf(a) + RestOf(a),
                    "/" + NameOf(b) + RestOf(b));
    } else {
      DirAbsolute(BaseOf(a), namespace, x);
      NamesApart(b, a);
      SiblingsApart(SlotDir(BaseOf(a), namespace, x), NameOf(a), NameOf(b), RestOf(a), RestOf(b));
    }
  }

  lemma DirAbsolute(base: string, namespace: string, id: string)
    requires "/" <= base
    ensures "/" <= SlotDir(base, namespace, id)
  {
  }

  lemma InBase(k: nat)
    ensures "/" <= BaseOf(k) && (RestOf(k) == "" || "/" <= RestOf(k))
  {
  }

  /** Each derived path after the first slot's lies below the directory of its own slot id, in
      the tree of its kind; the first slot has the configured paths. */
  lemma SlotPathsBelow(c: Config, i: nat, k: nat)
    requires i < SLOTS && k < PATHS
    ensures i == 0 ==> Derived(c)[i].paths == c.primary
    ensures var dir := BaseOf(k) + "/" + c.namespace + "/slots/" + Derived(c)[i].id;
            i > 0 ==> dir + "/" <= PathList(Derived(c)[i].paths)[k]
                      && FileTree.Under(Components(PathList(Derived(c)[i].paths)[k]), Components(dir))
  {
    hide BaseOf, NameOf, RestOf, SlotPaths, PathList, Components, Decimal;
    if i > 0 {
      PathBelow(c.namespace, Derived(c)[i].id, k);
    }
  }

  lemma PathBelow(namespace: string, id: string, k: nat)
    requires k < PATHS
    ensures var dir, path := SlotDir(BaseOf(k), namespace, id), PathList(SlotPaths(namespace, id))[k];
            dir + "/" <= path && FileTree.Under(Components(path), Components(dir))
  {
    hide BaseOf, NameOf, RestOf, SlotPaths, Components, SlotDir;
    PathAt(namespace, id, k);
    var dir := SlotDir(BaseOf(k), namespace, id);
    assert dir + "/" + NameOf(k) + RestOf(k) == dir + "/" + (NameOf(k) + RestOf(k));
    InBase(k);
    DirAbsolute(BaseOf(k), namespace, id);
    PrefixIsUnder(dir + "/" + (NameOf(k) + RestOf(k)), dir);
  }

  lemma RootsOfMember(c: Config, slots: seq<Slot>, i: nat, sha: Sha)
    requires i < |slots|
    ensures ContractMember(c, slots, i, sha).root == PoolRoot("/opt", c, slots[i].id)
    ensures ContractMember(c, slots, i, sha).state == PoolRoot("/var/lib", c, slots[i].id)
  {
    assert "/opt/codex-relay-pools/" == "/opt" + "/codex-relay-pools/";
    assert "/var/lib/codex-relay-pools/" == "/var/lib" + "/codex-relay-pools/";
  }

  /** The install roots and the state directories of the pool's members lie apart. */
  lemma MemberRootsApart(c: Config, sha: Sha, i: nat, j: nat)
    requires i < j < SLOTS
    ensures var a, b := ContractMember(c, Derived(c), i, sha), ContractMember(c, Derived(c), j, sha);
            !Overlap(a.root, b.root) && !Overlap(a.state, b.state)
  {
    RootsOfMember(c, Derived(c), i, sha);
    RootsOfMember(c, Derived(c), j, sha);
    hide Overlap, PoolRoot, ContractMember, SlotOf;
    SlotRootsApart(c, i, j, "/opt", "", "");
    SlotRootsApart(c, i, j, "/var/lib", "", "");
  }
}
