/** Slot isolation without a shared pool (`identities` and `inspect` in
    deploy/execution_topology.py): checks on names, numeric ids, group members,
    modes and ACL bytes, and what they mean for who can reach a slot. */
module SlotIdentity {
  import opened Effects
  import opened AclText

  datatype Account = Account(name: string, uid: nat, gid: nat)

  datatype GroupEntry = GroupEntry(name: string, gid: nat, members: set<string>)

  /** The account and group databases; `listed` is what getgrouplist answers, if it is asked. */
  datatype Nss = Nss(accounts: seq<Account>, groups: seq<GroupEntry>, listed: Option<map<string, set<nat>>>)

  datatype Slot = Slot(
    runner: string, runtime: string, work: string,
    workRoot: string, journal: string, credential: string, runnerRoot: string)

  /** `guarded`: the service, reviewer and production runner users. */
  datatype Topology = Topology(slots: seq<Slot>, guarded: seq<string>)

  // ---- The databases as the checks read them ----

  /** A dict built from the list: a later entry replaces an earlier one. */
  function UserNamed(accounts: seq<Account>, name: string): (a: Option<Account>)
    ensures a.Some? ==> a.value in accounts && a.value.name == name
    ensures a.None? ==> forall other <- accounts :: other.name != name
  {
    if accounts == [] then None
    else if accounts[|accounts| - 1].name == name then Some(accounts[|accounts| - 1])
    else UserNamed(accounts[..|accounts| - 1], name)
  }

  function GroupNamed(groups: seq<GroupEntry>, name: string): (g: Option<GroupEntry>)
    ensures g.Some? ==> g.value in groups && g.value.name == name
    ensures g.None? ==> forall other <- groups :: other.name != name
  {
    if groups == [] then None
    else if groups[|groups| - 1].name == name then Some(groups[|groups| - 1])
    else GroupNamed(groups[..|groups| - 1], name)
  }

  /** The names of all accounts with this uid, in database order. */
  function Holders(accounts: seq<Account>, uid: nat): (names: seq<string>)
    ensures forall a <- accounts :: a.uid == uid ==> a.name in names
    ensures forall i, j :: 0 <= i < j < |accounts| && accounts[i].uid == uid && accounts[j].uid == uid ==> |names| > 1
  {
    if accounts == [] then []
    else
      var last := accounts[|accounts| - 1];
      Holders(accounts[..|accounts| - 1], uid) + if last.uid == uid then [last.name] else []
  }

  function GroupHolders(groups: seq<GroupEntry>, gid: nat): (names: seq<string>)
    ensures forall g <- groups :: g.gid == gid ==> g.name in names
    ensures forall i, j :: 0 <= i < j < |groups| && groups[i].gid == gid && groups[j].gid == gid ==> |names| > 1
  {
    if groups == [] then []
    else
      var last := groups[|groups| - 1];
      GroupHolders(groups[..|groups| - 1], gid) + if last.gid == gid then [last.name] else []
  }

  /** Every group id a process of this account runs with. */
  function Memberships(nss: Nss, a: Account): set<nat> {
    if nss.listed.Some? then if a.name in nss.listed.value then nss.listed.value[a.name] else {}
    else {a.gid} + set g | g in nss.groups && a.name in g.members :: g.gid
  }

  /** The groups the checks look up under a name: those of its last entry. */
  function GroupsUnder(nss: Nss, name: string): set<nat> {
    var a := UserNamed(nss.accounts, name);
    if a.Some? then Memberships(nss, a.value) else {}
  }

  /** A later entry of the same name hides this one from the checks. */
  predicate Shadowed(nss: Nss, a: Account) {
    UserNamed(nss.accounts, a.name) != Some(a)
  }

  // ---- Names of interest ----

  function SlotUsers(slots: seq<Slot>): seq<string> {
    seq(2 * |slots|, k requires 0 <= k < 2 * |slots| =>
      if k % 2 == 0 then slots[k / 2].runner else slots[k / 2].runtime)
  }

  function SlotGroups(slots: seq<Slot>): seq<string> {
    seq(3 * |slots|, k requires 0 <= k < 3 * |slots| =>
      if k % 3 == 0 then slots[k / 3].runner else if k % 3 == 1 then slots[k / 3].runtime else slots[k / 3].work)
  }

  function Names(t: Topology): seq<string> {
    t.guarded + SlotUsers(t.slots)
  }

  // ---- The checks ----

  /** `len(set(ids)) == len(ids)`. */
  predicate Unique(ids: seq<nat>) {
    |Elements(ids)| == |ids|
  }

  function Elements(ids: seq<nat>): set<nat> {
    set id | id in ids
  }

  function Uids(nss: Nss, names: seq<string>): seq<nat>
    requires forall name <- names :: UserNamed(nss.accounts, name).Some?
  {
    seq(|names|, k requires 0 <= k < |names| => assert names[k] in names; UserNamed(nss.accounts, names[k]).value.uid)
  }

  function Gids(nss: Nss, names: seq<string>): seq<nat>
    requires forall name <- names :: GroupNamed(nss.groups, name).Some?
  {
    seq(|names|, k requires 0 <= k < |names| => assert names[k] in names; GroupNamed(nss.groups, names[k]).value.gid)
  }

  /** `numeric_preflight`: every entry of a user or a slot group, shadowed or not. */
  predicate NumbersDistinct(t: Topology, nss: Nss) {
    && (forall a <- nss.accounts :: a.name in Names(t) ==>
          a.uid != 0 && a.gid != 0 && Holders(nss.accounts, a.uid) == [a.name])
    && (forall g <- nss.groups :: g.name in SlotGroups(t.slots) ==>
          && g.gid != 0 && GroupHolders(nss.groups, g.gid) == [g.name]
          && (forall a <- nss.accounts :: a.name in t.guarded ==> a.gid != g.gid))
  }

  predicate UsersDistinct(t: Topology, nss: Nss) {
    && (forall name <- Names(t) :: UserNamed(nss.accounts, name).Some?)
    && (forall name <- Names(t) ::
          var a := UserNamed(nss.accounts, name).value;
          a.uid != 0 && a.gid != 0 && Holders(nss.accounts, a.uid) == [name])
    && Unique(Uids(nss, Names(t)))
  }

  predicate GroupsDistinct(t: Topology, nss: Nss) {
    && (forall name <- SlotGroups(t.slots) :: GroupNamed(nss.groups, name).Some?)
    && (forall name <- SlotGroups(t.slots) ::
          var g := GroupNamed(nss.groups, name).value;
          && g.gid != 0 && GroupHolders(nss.groups, g.gid) == [name]
          && (forall guard <- t.guarded :: UserNamed(nss.accounts, guard).Some? ==>
              UserNamed(nss.accounts, guard).value.gid != g.gid))
    && Unique(Gids(nss, SlotGroups(t.slots)))
  }

  /** Everybody who belongs to the group, by either database. */
  function MembersOf(nss: Nss, g: GroupEntry): set<string> {
    (set a | a in nss.accounts && g.gid in GroupsUnder(nss, a.name) :: a.name) + g.members
  }

  predicate Private(nss: Nss, name: string, workGid: nat)
    requires UserNamed(nss.accounts, name).Some? && GroupNamed(nss.groups, name).Some?
  {
    var a, g := UserNamed(nss.accounts, name).value, GroupNamed(nss.groups, name).value;
    a.gid == g.gid && Memberships(nss, a) == {a.gid, workGid} && MembersOf(nss, g) == {name}
  }

  predicate SlotClosed(nss: Nss, s: Slot) {
    && UserNamed(nss.accounts, s.runner).Some? && UserNamed(nss.accounts, s.runtime).Some?
    && GroupNamed(nss.groups, s.runner).Some? && GroupNamed(nss.groups, s.runtime).Some?
    && GroupNamed(nss.groups, s.work).Some?
    && var work := GroupNamed(nss.groups, s.work).value;
    && MembersOf(nss, work) <= {s.runner, s.runtime}
    && Private(nss, s.runner, work.gid) && Private(nss, s.runtime, work.gid)
  }

  /** `identities`. */
  predicate IdentitiesOk(t: Topology, nss: Nss) {
    && NumbersDistinct(t, nss) && UsersDistinct(t, nss) && GroupsDistinct(t, nss)
    && forall s <- t.slots :: SlotClosed(nss, s)
  }

  // ---- An ordinary host is accepted ----

  predicate Distinct<T(==)>(items: seq<T>) {
    forall i, j :: 0 <= i < j < |items| ==> items[i] != items[j]
  }

  /** No name and no number twice in either database. */
  ghost predicate Plain(nss: Nss) {
    && nss.listed.None?
    && (forall i, j :: 0 <= i < j < |nss.accounts| ==>
          nss.accounts[i].name != nss.accounts[j].name && nss.accounts[i].uid != nss.accounts[j].uid)
    && (forall i, j :: 0 <= i < j < |nss.groups| ==>
          nss.groups[i].name != nss.groups[j].name && nss.groups[i].gid != nss.groups[j].gid)
  }

  /** What installing the slots creates: users and groups of distinct names, none of them
      root's, each slot user in its own group and its slot's work group and nobody else there. */
  ghost predicate Ordinary(t: Topology, nss: Nss) {
    && Plain(nss) && Distinct(Names(t)) && Distinct(SlotGroups(t.slots))
    && (forall name <- Names(t) :: exists a <- nss.accounts :: a.name == name && a.uid != 0 && a.gid != 0)
    && (forall name <- SlotGroups(t.slots) :: exists g <- nss.groups :: g.name == name && g.gid != 0)
    && (forall s <- t.slots, g <- nss.groups :: s.work == g.name ==> g.members == {s.runner, s.runtime})
    && (forall s <- t.slots, g <- nss.groups ::
          s.runner in g.members || s.runtime in g.members ==> g.name in {s.runner, s.runtime, s.work})
    && (forall s <- t.slots, g <- nss.groups :: g.name in {s.runner, s.runtime} ==> g.members <= {g.name})
    && (forall a <- nss.accounts, g <- nss.groups ::
          g.name in SlotGroups(t.slots) ==> (a.gid == g.gid <==> a.name == g.name && a.name in SlotUsers(t.slots)))
  }

  lemma {:induction false} DistinctMeansUnique(ids: seq<nat>)
    requires Distinct(ids)
    ensures Unique(ids)
  {
    if ids != [] {
      var init, last := ids[..|ids| - 1], ids[|ids| - 1];
      DistinctMeansUnique(init);
      assert Elements(ids) == Elements(init) + {last};
    } else {
      assert Elements(ids) == {};
    }
  }

  /** In a plain list an entry is the one its name and its number find. */
  lemma {:induction false} PlainAccount(accounts: seq<Account>, a: Account)
    requires forall i, j :: 0 <= i < j < |accounts| ==>
               accounts[i].name != accounts[j].name && accounts[i].uid != accounts[j].uid
    ensures a in accounts ==> UserNamed(accounts, a.name) == Some(a) && Holders(accounts, a.uid) == [a.name]
    ensures (forall other <- accounts :: other.uid != a.uid) ==> Holders(accounts, a.uid) == []
  {
    if accounts != [] {
      var n := |accounts| - 1;
      PlainAccount(accounts[..n], a);
      assert accounts == accounts[..n] + [accounts[n]];
      assert forall other <- accounts[..n] :: other in accounts;
      if a == accounts[n] {
        PlainAccount(accounts[..n], a);
        assert forall other <- accounts[..n] :: other.uid != a.uid;
      }
    }
  }

  lemma {:induction false} PlainGroup(groups: seq<GroupEntry>, g: GroupEntry)
    requires forall i, j :: 0 <= i < j < |groups| ==> groups[i].name != groups[j].name && groups[i].gid != groups[j].gid
    ensures g in groups ==> GroupNamed(groups, g.name) == Some(g) && GroupHolders(groups, g.gid) == [g.name]
    ensures (forall other <- groups :: other.gid != g.gid) ==> GroupHolders(groups, g.gid) == []
  {
    if groups != [] {
      var n := |groups| - 1;
      PlainGroup(groups[..n], g);
      assert groups == groups[..n] + [groups[n]];
      assert forall other <- groups[..n] :: other in groups;
      if g == groups[n] {
        assert forall other <- groups[..n] :: other.gid != g.gid;
      }
    }
  }

  lemma UserOnHost(t: Topology, nss: Nss, name: string) returns (a: Account)
    requires Ordinary(t, nss) && name in Names(t)
    ensures a in nss.accounts && UserNamed(nss.accounts, name) == Some(a) && a.name == name && a.uid != 0 && a.gid != 0
    ensures Holders(nss.accounts, a.uid) == [name]
  {
    a :| a in nss.accounts && a.name == name && a.uid != 0 && a.gid != 0;
    PlainAccount(nss.accounts, a);
  }

  lemma GroupOnHost(t: Topology, nss: Nss, name: string) returns (g: GroupEntry)
    requires Ordinary(t, nss) && name in SlotGroups(t.slots)
    ensures g in nss.groups && GroupNamed(nss.groups, name) == Some(g) && g.name == name && g.gid != 0
    ensures GroupHolders(nss.groups, g.gid) == [name]
  {
    g :| g in nss.groups && g.name == name && g.gid != 0;
    PlainGroup(nss.groups, g);
  }

  /** What the numeric checks come to, entry by entry, shadowed ones included. */
  ghost predicate NumbersSound(t: Topology, nss: Nss) {
    && Distinct(Names(t)) && Distinct(SlotGroups(t.slots))
    && (forall name <- Names(t) :: exists a <- nss.accounts :: a.name == name)
    && (forall name <- SlotGroups(t.slots) :: exists g <- nss.groups :: g.name == name)
    && (forall i :: 0 <= i < |nss.accounts| && nss.accounts[i].name in Names(t) ==>
          nss.accounts[i].uid != 0 && nss.accounts[i].gid != 0 && OnlyUid(nss.accounts, i))
    && (forall i :: 0 <= i < |nss.groups| && nss.groups[i].name in SlotGroups(t.slots) ==>
          && nss.groups[i].gid != 0 && OnlyGid(nss.groups, i)
          && forall a <- nss.accounts :: a.name in t.guarded ==> a.gid != nss.groups[i].gid)
  }

  predicate OnlyUid(accounts: seq<Account>, i: nat)
    requires i < |accounts|
  {
    forall j :: 0 <= j < |accounts| && j != i ==> accounts[j].uid != accounts[i].uid
  }

  predicate OnlyGid(groups: seq<GroupEntry>, i: nat)
    requires i < |groups|
  {
    forall j :: 0 <= j < |groups| && j != i ==> groups[j].gid != groups[i].gid
  }

  lemma {:induction false} NoHolder(accounts: seq<Account>, uid: nat)
    requires forall a <- accounts :: a.uid != uid
    ensures Holders(accounts, uid) == []
  {
    if accounts != [] {
      NoHolder(accounts[..|accounts| - 1], uid);
    }
  }

  lemma {:induction false} NoGroupHolder(groups: seq<GroupEntry>, gid: nat)
    requires forall g <- groups :: g.gid != gid
    ensures GroupHolders(groups, gid) == []
  {
    if groups != [] {
      NoGroupHolder(groups[..|groups| - 1], gid);
    }
  }

  lemma {:induction false} OnlyHolder(accounts: seq<Account>, i: nat)
    requires i < |accounts|
    ensures Holders(accounts, accounts[i].uid) == [accounts[i].name] <==> OnlyUid(accounts, i)
    decreases |accounts|
  {
    if OnlyUid(accounts, i) {
      var init := accounts[..|accounts| - 1];
      if i == |init| {
        NoHolder(init, accounts[i].uid);
      } else {
        OnlyHolder(init, i);
      }
    }
  }

  lemma {:induction false} OnlyGroupHolder(groups: seq<GroupEntry>, i: nat)
    requires i < |groups|
    ensures GroupHolders(groups, groups[i].gid) == [groups[i].name] <==> OnlyGid(groups, i)
    decreases |groups|
  {
    if OnlyGid(groups, i) {
      var init := groups[..|groups| - 1];
      if i == |init| {
        NoGroupHolder(init, groups[i].gid);
      } else {
        OnlyGroupHolder(init, i);
      }
    }
  }

  /** The checks on numbers accept exactly the databases in which the users and groups of
      interest exist, are not root's, and share no number with any entry. */
  lemma NumbersExactly(t: Topology, nss: Nss)
    ensures NumbersDistinct(t, nss) && UsersDistinct(t, nss) && GroupsDistinct(t, nss) <==> NumbersSound(t, nss)
  {
    hide NumbersSound, UsersDistinct, GroupsDistinct, NumbersDistinct;
    if NumbersDistinct(t, nss) && UsersDistinct(t, nss) && GroupsDistinct(t, nss) {
      ChecksMean(t, nss);
    }
    if NumbersSound(t, nss) {
      SoundNumbers(t, nss);
      SoundUsers(t, nss);
      SoundGroups(t, nss);
    }
  }

  lemma ChecksMean(t: Topology, nss: Nss)
    requires NumbersDistinct(t, nss) && UsersDistinct(t, nss) && GroupsDistinct(t, nss)
    ensures NumbersSound(t, nss)
  {
    forall k, l | 0 <= k < l < |Names(t)|
      ensures Names(t)[k] != Names(t)[l]
    {
      UsersDiffer(t, nss, k, l);
    }
    forall k, l | 0 <= k < l < |SlotGroups(t.slots)|
      ensures SlotGroups(t.slots)[k] != SlotGroups(t.slots)[l]
    {
      GroupsDiffer(t, nss, k, l);
    }
    forall i | 0 <= i < |nss.accounts| && nss.accounts[i].name in Names(t)
      ensures nss.accounts[i].uid != 0 && nss.accounts[i].gid != 0 && OnlyUid(nss.accounts, i)
    {
      assert nss.accounts[i] in nss.accounts;
      OnlyHolder(nss.accounts, i);
    }
    forall i | 0 <= i < |nss.groups| && nss.groups[i].name in SlotGroups(t.slots)
      ensures nss.groups[i].gid != 0 && OnlyGid(nss.groups, i)
    {
      assert nss.groups[i] in nss.groups;
      OnlyGroupHolder(nss.groups, i);
    }
  }

  lemma SoundNumbers(t: Topology, nss: Nss)
    requires NumbersSound(t, nss)
    ensures NumbersDistinct(t, nss)
  {
    forall a <- nss.accounts | a.name in Names(t)
      ensures Holders(nss.accounts, a.uid) == [a.name]
    {
      var i :| 0 <= i < |nss.accounts| && nss.accounts[i] == a;
      OnlyHolder(nss.accounts, i);
    }
    forall g <- nss.groups | g.name in SlotGroups(t.slots)
      ensures GroupHolders(nss.groups, g.gid) == [g.name]
    {
      var i :| 0 <= i < |nss.groups| && nss.groups[i] == g;
      OnlyGroupHolder(nss.groups, i);
    }
  }

  lemma SoundUsers(t: Topology, nss: Nss)
    requires NumbersSound(t, nss)
    ensures UsersDistinct(t, nss)
  {
    forall name <- Names(t)
      ensures UserNamed(nss.accounts, name).Some?
      ensures var a := UserNamed(nss.accounts, name).value;
              a.uid != 0 && a.gid != 0 && Holders(nss.accounts, a.uid) == [name]
    {
      var a := UserNamed(nss.accounts, name).value;
      var i :| 0 <= i < |nss.accounts| && nss.accounts[i] == a;
      OnlyHolder(nss.accounts, i);
    }
    var uids := Uids(nss, Names(t));
    forall k, l | 0 <= k < l < |uids|
      ensures uids[k] != uids[l]
    {
      assert Names(t)[k] in Names(t) && Names(t)[l] in Names(t) && Names(t)[k] != Names(t)[l];
    }
    DistinctMeansUnique(uids);
  }

  lemma SoundGroups(t: Topology, nss: Nss)
    requires NumbersSound(t, nss)
    ensures GroupsDistinct(t, nss)
  {
    forall name <- SlotGroups(t.slots)
      ensures GroupNamed(nss.groups, name).Some?
      ensures var g := GroupNamed(nss.groups, name).value;
              g.gid != 0 && GroupHolders(nss.groups, g.gid) == [name]
      ensures forall guard <- t.guarded :: UserNamed(nss.accounts, guard).Some? ==>
                UserNamed(nss.accounts, guard).value.gid != GroupNamed(nss.groups, name).value.gid
    {
      var g := GroupNamed(nss.groups, name).value;
      var i :| 0 <= i < |nss.groups| && nss.groups[i] == g;
      OnlyGroupHolder(nss.groups, i);
    }
    var gids := Gids(nss, SlotGroups(t.slots));
    forall k, l | 0 <= k < l < |gids|
      ensures gids[k] != gids[l]
    {
      var a, b := SlotGroups(t.slots)[k], SlotGroups(t.slots)[l];
      assert a in SlotGroups(t.slots) && b in SlotGroups(t.slots) && a != b;
      assert GroupHolders(nss.groups, gids[k]) == [a] && GroupHolders(nss.groups, gids[l]) == [b];
    }
    DistinctMeansUnique(gids);
  }

  /** The checks accept every ordinary host: they are not a refusal of everything. */
  lemma OrdinaryAccepted(t: Topology, nss: Nss)
    requires Ordinary(t, nss)
    ensures IdentitiesOk(t, nss)
  {
    hide SlotClosed, NumbersSound, NumbersDistinct, UsersDistinct, GroupsDistinct, Ordinary;
    OrdinaryNumbers(t, nss);
    NumbersExactly(t, nss);
    forall s <- t.slots
      ensures SlotClosed(nss, s)
    {
      var i :| 0 <= i < |t.slots| && t.slots[i] == s;
      OrdinarySlot(t, nss, i);
    }
  }

  lemma OrdinaryNumbers(t: Topology, nss: Nss)
    requires Ordinary(t, nss)
    ensures NumbersSound(t, nss)
  {
    forall i | 0 <= i < |nss.groups| && nss.groups[i].name in SlotGroups(t.slots)
      ensures forall a <- nss.accounts :: a.name in t.guarded ==> a.gid != nss.groups[i].gid
    {
      assert nss.groups[i] in nss.groups;
      forall a <- nss.accounts | a.name in t.guarded
        ensures a.gid != nss.groups[i].gid
      {
        GuardedApart(t, a.name);
      }
    }
  }

  /** A guarded user is no slot user. */
  lemma GuardedApart(t: Topology, name: string)
    requires Distinct(Names(t)) && name in t.guarded
    ensures name !in SlotUsers(t.slots)
  {
    var i :| 0 <= i < |t.guarded| && t.guarded[i] == name;
    forall k | 0 <= k < |SlotUsers(t.slots)|
      ensures SlotUsers(t.slots)[k] != name
    {
      assert Names(t)[i] == name && Names(t)[|t.guarded| + k] == SlotUsers(t.slots)[k];
    }
  }

  lemma OrdinarySlot(t: Topology, nss: Nss, i: nat)
    requires Ordinary(t, nss) && i < |t.slots|
    ensures SlotClosed(nss, t.slots[i])
  {
    var s := t.slots[i];
    var at := GroupIndex(t, i, 2);
    var work := GroupOnHost(t, nss, s.work);
    OrdinaryUser(t, nss, i, 0);
    OrdinaryUser(t, nss, i, 1);
    WorkMembers(t, nss, i, work);
  }

  /** A member of a group is listed there, or has it as primary group. */
  lemma InGroup(nss: Nss, g: GroupEntry, name: string)
    requires Plain(nss) && g in nss.groups && name in MembersOf(nss, g)
    ensures name in g.members || exists a <- nss.accounts :: a.name == name && a.gid == g.gid
  {
    if name !in g.members {
      var a :| a in nss.accounts && g.gid in GroupsUnder(nss, a.name) && a.name == name;
      PlainAccount(nss.accounts, a);
      forall h <- nss.groups | name in h.members
        ensures h.gid != g.gid
      {
        assert h != g;
      }
    }
  }

  lemma WorkMembers(t: Topology, nss: Nss, i: nat, work: GroupEntry)
    requires Ordinary(t, nss) && i < |t.slots| && work in nss.groups && work.name == t.slots[i].work
    ensures MembersOf(nss, work) <= {t.slots[i].runner, t.slots[i].runtime}
  {
    var at := GroupIndex(t, i, 2);
    forall name <- MembersOf(nss, work)
      ensures name in {t.slots[i].runner, t.slots[i].runtime}
    {
      InGroup(nss, work, name);
      if name !in work.members {
        NotAWorkGroup(t, i, name);
      }
    }
  }

  /** No slot user is called like a work group. */
  lemma NotAWorkGroup(t: Topology, i: nat, name: string)
    requires Distinct(SlotGroups(t.slots)) && i < |t.slots| && name == t.slots[i].work
    ensures name !in SlotUsers(t.slots)
  {
    var at := GroupIndex(t, i, 2);
    forall k | 0 <= k < |SlotUsers(t.slots)|
      ensures SlotUsers(t.slots)[k] != name
    {
      var other := GroupIndex(t, k / 2, k % 2);
    }
  }

  lemma OrdinaryUser(t: Topology, nss: Nss, i: nat, k: nat)
    requires Ordinary(t, nss) && i < |t.slots| && k < 2
    ensures UserNamed(nss.accounts, UserOf(t.slots[i], k)).Some?
    ensures GroupNamed(nss.groups, UserOf(t.slots[i], k)).Some? && GroupNamed(nss.groups, t.slots[i].work).Some?
    ensures Private(nss, UserOf(t.slots[i], k), GroupNamed(nss.groups, t.slots[i].work).value.gid)
  {
    hide Ordinary, Memberships, MembersOf, SlotUsers, SlotGroups, Names;
    var s, name := t.slots[i], UserOf(t.slots[i], k);
    var at := UserIndex(t, i, k);
    var own := GroupIndex(t, i, k);
    var shared := GroupIndex(t, i, 2);
    var a := UserOnHost(t, nss, name);
    var g := GroupOnHost(t, nss, name);
    var work := GroupOnHost(t, nss, s.work);
    PrimaryGroup(t, nss, i, k, a, g);
    OnlyOwnAndWork(t, nss, i, k, a, g, work);
    OnlyItself(t, nss, a, g);
  }

  lemma PrimaryGroup(t: Topology, nss: Nss, i: nat, k: nat, a: Account, g: GroupEntry)
    requires Ordinary(t, nss) && i < |t.slots| && k < 2 && a in nss.accounts && g in nss.groups
    requires a.name == g.name == UserOf(t.slots[i], k)
    ensures a.gid == g.gid
  {
    var own := GroupIndex(t, i, k);
    assert SlotUsers(t.slots)[2 * i + k] == a.name;
  }

  lemma OnlyItself(t: Topology, nss: Nss, a: Account, g: GroupEntry)
    requires Ordinary(t, nss) && a in nss.accounts && g in nss.groups && a.name == g.name && a.gid == g.gid
    requires g.name in SlotGroups(t.slots) && exists s <- t.slots :: g.name in {s.runner, s.runtime}
    ensures MembersOf(nss, g) == {a.name}
  {
    forall other <- MembersOf(nss, g)
      ensures other == a.name
    {
      InGroup(nss, g, other);
    }
    PlainAccount(nss.accounts, a);
    assert g.gid in GroupsUnder(nss, a.name);
  }

  lemma OnlyOwnAndWork(t: Topology, nss: Nss, i: nat, k: nat, a: Account, g: GroupEntry, work: GroupEntry)
    requires Ordinary(t, nss) && i < |t.slots| && k < 2 && a in nss.accounts && g in nss.groups && work in nss.groups
    requires a.name == g.name == UserOf(t.slots[i], k) && a.gid == g.gid && work.name == t.slots[i].work
    ensures Memberships(nss, a) == {a.gid, work.gid}
  {
    var s := t.slots[i];
    var at := GroupIndex(t, i, 1 - k);
    forall h <- nss.groups | a.name in h.members
      ensures h.gid in {a.gid, work.gid}
    {
      assert h.name in {s.runner, s.runtime, s.work};
      if h.name in {s.runner, s.runtime} {
        assert h.members <= {h.name};
      }
    }
    assert a.name in work.members;
  }

  // ---- No account of one slot belongs to a group of another ----

  lemma {:induction false} UniqueMeansDistinct(ids: seq<nat>)
    ensures |Elements(ids)| <= |ids|
    ensures Unique(ids) ==> forall i, j :: 0 <= i < j < |ids| ==> ids[i] != ids[j]
  {
    if ids != [] {
      var n := |ids| - 1;
      var init, last := ids[..n], ids[n];
      UniqueMeansDistinct(init);
      var before, all := Elements(init), Elements(ids);
      assert ids == init + [last];
      assert all == before + {last};
      if Unique(ids) {
        assert last !in before;
        forall i, j | 0 <= i < j < |ids|
          ensures ids[i] != ids[j]
        {
          assert ids[i] == init[i] && init[i] in before;
        }
      }
    }
  }

  lemma UsersDiffer(t: Topology, nss: Nss, k: nat, l: nat)
    requires UsersDistinct(t, nss) && k < l < |Names(t)|
    ensures Names(t)[k] != Names(t)[l]
  {
    UniqueMeansDistinct(Uids(nss, Names(t)));
    assert Uids(nss, Names(t))[k] != Uids(nss, Names(t))[l];
  }

  lemma GroupsDiffer(t: Topology, nss: Nss, k: nat, l: nat)
    requires GroupsDistinct(t, nss) && k < l < |SlotGroups(t.slots)|
    ensures forall name <- SlotGroups(t.slots) :: GroupNamed(nss.groups, name).Some?
    ensures SlotGroups(t.slots)[k] in SlotGroups(t.slots) && SlotGroups(t.slots)[l] in SlotGroups(t.slots)
    ensures GroupNamed(nss.groups, SlotGroups(t.slots)[k]).value.gid
              != GroupNamed(nss.groups, SlotGroups(t.slots)[l]).value.gid
  {
    UniqueMeansDistinct(Gids(nss, SlotGroups(t.slots)));
    assert Gids(nss, SlotGroups(t.slots))[k] != Gids(nss, SlotGroups(t.slots))[l];
  }

  /** The k-th user of a slot; its groups are the two private ones and the work group. */
  function UserOf(s: Slot, k: nat): string {
    if k == 0 then s.runner else s.runtime
  }

  function GroupOf(s: Slot, k: nat): string {
    if k == 0 then s.runner else if k == 1 then s.runtime else s.work
  }

  lemma UserIndex(t: Topology, i: nat, k: nat) returns (at: nat)
    requires i < |t.slots| && k < 2
    ensures at == |t.guarded| + 2 * i + k < |Names(t)| && Names(t)[at] == UserOf(t.slots[i], k)
              && Names(t)[at] in Names(t)
  {
    at := |t.guarded| + 2 * i + k;
    assert SlotUsers(t.slots)[2 * i + k] == UserOf(t.slots[i], k);
    assert Names(t)[at] == UserOf(t.slots[i], k);
  }

  lemma GroupIndex(t: Topology, i: nat, k: nat) returns (at: nat)
    requires i < |t.slots| && k < 3
    ensures at == 3 * i + k < |SlotGroups(t.slots)| && SlotGroups(t.slots)[at] == GroupOf(t.slots[i], k)
              && SlotGroups(t.slots)[at] in SlotGroups(t.slots)
  {
    at := 3 * i + k;
    assert SlotGroups(t.slots)[at] == GroupOf(t.slots[i], k);
  }

  lemma SlotUsersDiffer(t: Topology, nss: Nss, i: nat, k: nat, j: nat, l: nat)
    requires IdentitiesOk(t, nss) && i < |t.slots| && j < |t.slots| && i != j && k < 2 && l < 2
    ensures UserOf(t.slots[i], k) != UserOf(t.slots[j], l)
  {
    var a := UserIndex(t, i, k);
    var b := UserIndex(t, j, l);
    UsersDiffer(t, nss, if a < b then a else b, if a < b then b else a);
  }

  lemma SlotGroupsDiffer(t: Topology, nss: Nss, i: nat, k: nat, j: nat, l: nat)
    requires IdentitiesOk(t, nss) && i < |t.slots| && j < |t.slots| && i != j && k < 3 && l < 3
    ensures GroupNamed(nss.groups, GroupOf(t.slots[i], k)).Some? && GroupNamed(nss.groups, GroupOf(t.slots[j], l)).Some?
    ensures GroupNamed(nss.groups, GroupOf(t.slots[i], k)).value.gid
              != GroupNamed(nss.groups, GroupOf(t.slots[j], l)).value.gid
  {
    var a := GroupIndex(t, i, k);
    var b := GroupIndex(t, j, l);
    GroupsDiffer(t, nss, if a < b then a else b, if a < b then b else a);
  }

  lemma SoleHolder(t: Topology, nss: Nss, i: nat, k: nat)
    requires IdentitiesOk(t, nss) && i < |t.slots| && k < 2
    ensures UserNamed(nss.accounts, UserOf(t.slots[i], k)).Some?
    ensures var a := UserNamed(nss.accounts, UserOf(t.slots[i], k)).value;
            a.uid != 0 && forall other <- nss.accounts :: other.uid == a.uid ==> other == a
  {
    hide SlotClosed, GroupsDistinct;
    var at := UserIndex(t, i, k);
    assert Holders(nss.accounts, UserNamed(nss.accounts, Names(t)[at]).value.uid) == [Names(t)[at]];
  }

  lemma SoleGroup(t: Topology, nss: Nss, i: nat, k: nat)
    requires IdentitiesOk(t, nss) && i < |t.slots| && k < 3
    ensures GroupNamed(nss.groups, GroupOf(t.slots[i], k)).Some?
    ensures var g := GroupNamed(nss.groups, GroupOf(t.slots[i], k)).value;
            g.gid != 0 && forall other <- nss.groups :: other.gid == g.gid ==> other == g
  {
    hide SlotClosed, UsersDistinct;
    var at := GroupIndex(t, i, k);
    assert GroupHolders(nss.groups, GroupNamed(nss.groups, SlotGroups(t.slots)[at]).value.gid)
        == [SlotGroups(t.slots)[at]];
  }

  /** For distinct slots, no account of one is, by number or by name, in any group of
      the other; nor does any other account have its number. */
  lemma NoForeignGroup(t: Topology, nss: Nss, i: nat, k: nat, j: nat, l: nat)
    requires IdentitiesOk(t, nss) && i < |t.slots| && j < |t.slots| && i != j && k < 2 && l < 3
    ensures UserNamed(nss.accounts, UserOf(t.slots[i], k)).Some? && GroupNamed(nss.groups, GroupOf(t.slots[j], l)).Some?
    ensures var a, g := UserNamed(nss.accounts, UserOf(t.slots[i], k)).value,
              GroupNamed(nss.groups, GroupOf(t.slots[j], l)).value;
            && g.gid !in Memberships(nss, a) && a.gid != g.gid
            && (nss.listed.Some? && a.name in nss.listed.value ==> g.gid !in nss.listed.value[a.name])
            && (forall other <- nss.groups :: other.gid == g.gid ==> a.name !in other.members)
            && (forall other <- nss.accounts :: other.uid == a.uid ==> other == a)
  {
    hide IdentitiesOk, MembersOf, UserNamed, GroupNamed;
    SoleHolder(t, nss, i, k);
    SoleGroup(t, nss, j, l);
    SlotGroupsDiffer(t, nss, i, k, j, l);
    SlotGroupsDiffer(t, nss, i, 2, j, l);
    SlotUsersDiffer(t, nss, i, k, j, 0);
    SlotUsersDiffer(t, nss, i, k, j, 1);
    OwnGroups(t, nss, i, k);
    OwnMembers(t, nss, j, l);
  }

  lemma OwnGroups(t: Topology, nss: Nss, i: nat, k: nat)
    requires IdentitiesOk(t, nss) && i < |t.slots| && k < 2
    ensures var s := t.slots[i];
            && UserNamed(nss.accounts, UserOf(s, k)).Some?
            && GroupNamed(nss.groups, GroupOf(s, k)).Some? && GroupNamed(nss.groups, s.work).Some?
            && var a := UserNamed(nss.accounts, UserOf(s, k)).value;
            && a.gid == GroupNamed(nss.groups, GroupOf(s, k)).value.gid
            && Memberships(nss, a) == {a.gid, GroupNamed(nss.groups, s.work).value.gid}
  {
    assert SlotClosed(nss, t.slots[i]);
  }

  lemma OwnMembers(t: Topology, nss: Nss, j: nat, l: nat)
    requires IdentitiesOk(t, nss) && j < |t.slots| && l < 3
    ensures var s := t.slots[j];
            && GroupNamed(nss.groups, GroupOf(s, l)).Some?
            && var g := GroupNamed(nss.groups, GroupOf(s, l)).value;
            && g.members <= MembersOf(nss, g) <= (if l < 2 then {UserOf(s, l)} else {s.runner, s.runtime})
  {
    assert SlotClosed(nss, t.slots[j]);
  }

  // ---- Who can reach a slot's directories ----

  /** A directory on disk: owner, group, mode and the two ACL attributes. */
  datatype Dir = Dir(uid: nat, gid: nat, mode: nat, access: Option<seq<byte>>, inherited: Option<seq<byte>>)

  /** A required directory: who may be named by its ACL. */
  datatype Root = Root(path: string, uid: nat, gid: nat, mode: nat, users: set<nat>, groups: set<nat>)

  datatype Place = Work | Journal | Credential | RunnerHome

  const WORK_MODE := 0x5F8       // octal 2770
  const PRIVATE_MODE := 0x1C0    // octal 0700
  const RUNNER_MODE := 0x1E8     // octal 0750

  predicate Known(nss: Nss, s: Slot) {
    && UserNamed(nss.accounts, s.runner).Some? && UserNamed(nss.accounts, s.runtime).Some?
    && GroupNamed(nss.groups, s.work).Some?
  }

  /** The root table of `inspect`. */
  function RootOf(nss: Nss, s: Slot, place: Place): Root
    requires Known(nss, s)
  {
    var runner, runtime := UserNamed(nss.accounts, s.runner).value, UserNamed(nss.accounts, s.runtime).value;
    var work := GroupNamed(nss.groups, s.work).value.gid;
    match place
    case Work => Root(s.workRoot, runner.uid, work, WORK_MODE, {runner.uid, runtime.uid}, {work})
    case Journal => Root(s.journal, runner.uid, runner.gid, PRIVATE_MODE, {runner.uid}, {runner.gid})
    case Credential => Root(s.credential, runtime.uid, runtime.gid, PRIVATE_MODE, {runtime.uid}, {runtime.gid})
    case RunnerHome => Root(s.runnerRoot, runner.uid, runner.gid, RUNNER_MODE, {runner.uid}, {runner.gid})
  }

  /** The accounts a place belongs to. */
  function Occupants(s: Slot, place: Place): set<string> {
    match place
    case Work => {s.runner, s.runtime}
    case Journal => {s.runner}
    case Credential => {s.runtime}
    case RunnerHome => {s.runner}
  }

  predicate RootAccepted(r: Root, d: Dir, ownerUid: nat) {
    d.uid == r.uid && d.gid == r.gid && d.mode == r.mode
    && Accepts(d.access, d.inherited, r.users + {ownerUid}, r.groups + {0})
  }

  /** `inspect`, for its worker roots. */
  predicate Inspected(t: Topology, nss: Nss, disk: map<string, Dir>, ownerUid: nat) {
    && IdentitiesOk(t, nss)
    && forall s <- t.slots :: Known(nss, s) && forall place: Place ::
         RootOf(nss, s, place).path in disk
             && RootAccepted(RootOf(nss, s, place), disk[RootOf(nss, s, place).path], ownerUid)
  }

  // ---- POSIX access evaluation ----

  predicate HasBit(rights: nat, bit: nat) {
    bit > 0 && rights / bit % 2 == 1
  }

  /** The mask lets a group-class entry keep this bit. */
  predicate Unmasked(acl: seq<Entry>, bit: nat) {
    forall e <- acl :: e.kind == Mask ==> HasBit(e.rights, bit)
  }

  predicate GroupMatches(e: Entry, d: Dir, gids: set<nat>) {
    e.kind == Group && (if e.principal.None? then d.gid else e.principal.value) in gids
  }

  /** Without an ACL the mode decides; with one, the owner entry, then a named user
      entry, then the group entries, then `other`. */
  predicate May(d: Dir, uid: nat, gids: set<nat>, bit: nat) {
    if d.access.None? || Decode(d.access.value).None? || Decode(d.access.value).value == [] then
      HasBit(if uid == d.uid then d.mode / 64 % 8 else if d.gid in gids then d.mode / 8 % 8 else d.mode % 8, bit)
    else
      var acl := Decode(d.access.value).value;
      if uid == d.uid then
        exists e <- acl :: e.kind == User && e.principal.None? && HasBit(e.rights, bit)
      else if exists e <- acl :: e.kind == User && e.principal == Some(uid) then
        exists e <- acl :: e.kind == User && e.principal == Some(uid) && HasBit(e.rights, bit) && Unmasked(acl, bit)
      else if exists e <- acl :: GroupMatches(e, d, gids) then
        exists e <- acl :: GroupMatches(e, d, gids) && HasBit(e.rights, bit) && Unmasked(acl, bit)
      else
        exists e <- acl :: e.kind == Other && HasBit(e.rights, bit)
  }

  ghost predicate ActsAs(users: set<nat>, groups: set<nat>, uid: nat, gids: set<nat>) {
    uid in users || exists g :: g in gids && g in groups
  }

  /** On an accepted root without `other` bits, only the declared users and members
      of the declared groups get anything. */
  lemma AcceptedBoundary(r: Root, d: Dir, ownerUid: nat, uid: nat, gids: set<nat>, bit: nat)
    requires RootAccepted(r, d, ownerUid) && r.mode % 8 == 0 && r.uid in r.users && r.gid in r.groups
    requires May(d, uid, gids, bit)
    ensures ActsAs(r.users + {ownerUid}, r.groups + {0}, uid, gids)
  {
    hide Decode, EntriesOf, Bounded, HasBit, Unmasked;
    if d.access.Some? && Decode(d.access.value).Some? && Decode(d.access.value).value != [] {
      ListedBoundary(r, d, ownerUid, uid, gids, bit);
    } else {
      NoBits(bit);
      assert uid == d.uid || d.gid in gids;
    }
  }

  lemma NoBits(bit: nat)
    ensures !HasBit(0, bit)
  {
  }

  lemma ListedBoundary(r: Root, d: Dir, ownerUid: nat, uid: nat, gids: set<nat>, bit: nat)
    requires RootAccepted(r, d, ownerUid) && r.uid in r.users && r.gid in r.groups
    requires d.access.Some? && Decode(d.access.value).Some? && Decode(d.access.value).value != []
    requires May(d, uid, gids, bit)
    ensures ActsAs(r.users + {ownerUid}, r.groups + {0}, uid, gids)
  {
    hide Decode, HasBit, Unmasked;
    NoBits(bit);
    var acl := Decode(d.access.value).value;
    if uid != d.uid {
      forall e <- acl
        ensures Bounded(e, r.users + {ownerUid}, r.groups + {0})
      {
        assert e in acl + EntriesOf(d.inherited).value;
      }
    }
  }

  lemma DeclaredUsers(t: Topology, nss: Nss, i: nat, place: Place, who: Account)
    requires IdentitiesOk(t, nss) && i < |t.slots| && who in nss.accounts && Known(nss, t.slots[i])
    requires who.uid in RootOf(nss, t.slots[i], place).users
    ensures who.name in Occupants(t.slots[i], place)
  {
    SoleHolder(t, nss, i, 0);
    SoleHolder(t, nss, i, 1);
  }

  lemma DeclaredGroups(t: Topology, nss: Nss, i: nat, place: Place, who: Account)
    requires IdentitiesOk(t, nss) && i < |t.slots| && who in nss.accounts && Known(nss, t.slots[i])
    requires exists g :: g in Memberships(nss, who) && g in RootOf(nss, t.slots[i], place).groups
    requires !Shadowed(nss, who)
    ensures who.name in Occupants(t.slots[i], place)
  {
    var k := match place case Work => 2 case Journal => 0 case Credential => 1 case RunnerHome => 0;
    OwnMembers(t, nss, i, k);
    if k < 2 {
      OwnGroups(t, nss, i, k);
    }
    var g := GroupNamed(nss.groups, GroupOf(t.slots[i], k)).value;
    assert g.gid in Memberships(nss, who);
    assert who.name in MembersOf(nss, g);
  }

  /** End to end: in an accepted topology, whoever gets any permission on a slot's
      directory is an occupant of that place, has the owner's uid, is a member
      of group 0, or has an entry that a later one of the same name hides. */
  lemma SlotReach(t: Topology, nss: Nss, disk: map<string, Dir>, ownerUid: nat, i: nat, place: Place,
                  who: Account, bit: nat)
    requires Inspected(t, nss, disk, ownerUid) && i < |t.slots| && who in nss.accounts
    requires Known(nss, t.slots[i])
    requires May(disk[RootOf(nss, t.slots[i], place).path], who.uid, Memberships(nss, who), bit)
    ensures who.name in Occupants(t.slots[i], place) || who.uid == ownerUid || 0 in Memberships(nss, who)
            || Shadowed(nss, who)
  {
    hide May, Memberships, Known;
    var r := RootOf(nss, t.slots[i], place);
    AcceptedBoundary(r, disk[r.path], ownerUid, who.uid, Memberships(nss, who), bit);
    if who.uid in r.users {
      DeclaredUsers(t, nss, i, place, who);
    } else if g :| g in Memberships(nss, who) && g in r.groups {
      if !Shadowed(nss, who) {
        DeclaredGroups(t, nss, i, place, who);
      }
    }
  }

  /** No account of one slot reaches another slot's directories, unless it is the
      owner's account. */
  lemma SlotsIsolated(t: Topology, nss: Nss, disk: map<string, Dir>, ownerUid: nat,
                      i: nat, k: nat, j: nat, place: Place, bit: nat)
    requires Inspected(t, nss, disk, ownerUid) && i < |t.slots| && j < |t.slots| && i != j && k < 2
    requires Known(nss, t.slots[j]) && UserNamed(nss.accounts, UserOf(t.slots[i], k)).Some?
    requires UserNamed(nss.accounts, UserOf(t.slots[i], k)).value.uid != ownerUid
    ensures var who := UserNamed(nss.accounts, UserOf(t.slots[i], k)).value;
            !May(disk[RootOf(nss, t.slots[j], place).path], who.uid, Memberships(nss, who), bit)
  {
    var who := UserNamed(nss.accounts, UserOf(t.slots[i], k)).value;
    NotInGroupZero(t, nss, i, k);
    SlotUsersDiffer(t, nss, i, k, j, 0);
    SlotUsersDiffer(t, nss, i, k, j, 1);
    if May(disk[RootOf(nss, t.slots[j], place).path], who.uid, Memberships(nss, who), bit) {
      SlotReach(t, nss, disk, ownerUid, j, place, who, bit);
    }
  }

  lemma NotInGroupZero(t: Topology, nss: Nss, i: nat, k: nat)
    requires IdentitiesOk(t, nss) && i < |t.slots| && k < 2
    ensures UserNamed(nss.accounts, UserOf(t.slots[i], k)).Some?
    ensures 0 !in Memberships(nss, UserNamed(nss.accounts, UserOf(t.slots[i], k)).value)
  {
    OwnGroups(t, nss, i, k);
    SoleGroup(t, nss, i, k);
    SoleGroup(t, nss, i, 2);
  }

  /** The other direction: a directory made as the table asks, without an ACL, is accepted and
      gives every occupant all permissions. */
  lemma OccupantsReach(t: Topology, nss: Nss, ownerUid: nat, i: nat, k: nat, place: Place, bit: nat)
    requires IdentitiesOk(t, nss) && i < |t.slots| && k < 2 && bit in {1, 2, 4}
    requires UserOf(t.slots[i], k) in Occupants(t.slots[i], place)
    ensures Known(nss, t.slots[i])
    ensures var r, who := RootOf(nss, t.slots[i], place), UserNamed(nss.accounts, UserOf(t.slots[i], k));
            var d := Dir(r.uid, r.gid, r.mode, None, None);
            who.Some? && RootAccepted(r, d, ownerUid) && May(d, who.value.uid, Memberships(nss, who.value), bit)
  {
    hide IdentitiesOk, Memberships, MembersOf, UserNamed, GroupNamed, Known, RootOf, RootAccepted, May, Occupants;
    KnownSlot(t, nss, i);
    OwnGroups(t, nss, i, k);
    PlainRoot(RootOf(nss, t.slots[i], place), ownerUid);
    TableGivesAll(nss, t.slots[i], k, place, bit);
  }

  lemma KnownSlot(t: Topology, nss: Nss, i: nat)
    requires IdentitiesOk(t, nss) && i < |t.slots|
    ensures Known(nss, t.slots[i])
  {
    assert SlotClosed(nss, t.slots[i]);
  }

  lemma PlainRoot(r: Root, ownerUid: nat)
    ensures RootAccepted(r, Dir(r.uid, r.gid, r.mode, None, None), ownerUid)
  {
    assert EntriesOf(None) == Some([]);
  }

  /** A host whose directories are made as the table asks, without an ACL, passes. */
  lemma PlainInspected(t: Topology, nss: Nss, disk: map<string, Dir>, ownerUid: nat)
    requires IdentitiesOk(t, nss)
    requires forall s <- t.slots, place :: Known(nss, s) ==>
               var r := RootOf(nss, s, place);
               r.path in disk && disk[r.path] == Dir(r.uid, r.gid, r.mode, None, None)
    ensures Inspected(t, nss, disk, ownerUid)
  {
    hide IdentitiesOk, Known, RootOf, RootAccepted;
    forall s <- t.slots
      ensures Known(nss, s)
    {
      var i :| 0 <= i < |t.slots| && t.slots[i] == s;
      KnownSlot(t, nss, i);
    }
    forall s <- t.slots, place: Place
      ensures RootAccepted(RootOf(nss, s, place), disk[RootOf(nss, s, place).path], ownerUid)
    {
      PlainRoot(RootOf(nss, s, place), ownerUid);
    }
  }

  lemma TableGivesAll(nss: Nss, s: Slot, k: nat, place: Place, bit: nat)
    requires Known(nss, s) && k < 2 && bit in {1, 2, 4} && UserOf(s, k) in Occupants(s, place)
    requires UserNamed(nss.accounts, UserOf(s, k)).Some?
    requires GroupNamed(nss.groups, s.work).value.gid in Memberships(nss, UserNamed(nss.accounts, UserOf(s, k)).value)
    ensures var r, who := RootOf(nss, s, place), UserNamed(nss.accounts, UserOf(s, k)).value;
            May(Dir(r.uid, r.gid, r.mode, None, None), who.uid, Memberships(nss, who), bit)
  {
    hide Memberships, UserNamed, GroupNamed;
    WorkBits(bit);
    assert WORK_MODE / 64 % 8 == 7 && PRIVATE_MODE / 64 % 8 == 7 && RUNNER_MODE / 64 % 8 == 7;
  }

  // ---- What the checks do not see: an entry hidden by a later one of the same name ----

  /** The work root, without an ACL, is open to exactly those hidden entries whose own group is
      the work group; nothing in the checks looks at it. */
  lemma ShadowReachesExactlyWhen(t: Topology, nss: Nss, disk: map<string, Dir>, ownerUid: nat, i: nat,
                                 who: Account, bit: nat)
    requires Inspected(t, nss, disk, ownerUid) && i < |t.slots| && who in nss.accounts && Known(nss, t.slots[i])
    requires who.name !in Occupants(t.slots[i], Work) && who.uid != ownerUid && bit in {1, 2, 4}
    requires nss.listed.None? && Shadowed(nss, who)
    requires disk[RootOf(nss, t.slots[i], Work).path].access.None?
    ensures May(disk[RootOf(nss, t.slots[i], Work).path], who.uid, Memberships(nss, who), bit)
            <==> who.gid == GroupNamed(nss.groups, t.slots[i].work).value.gid
  {
    var work := GroupNamed(nss.groups, t.slots[i].work).value;
    SoleHolder(t, nss, i, 0);
    SoleGroup(t, nss, i, 2);
    OwnMembers(t, nss, i, 2);
    assert RootAccepted(RootOf(nss, t.slots[i], Work), disk[RootOf(nss, t.slots[i], Work).path], ownerUid);
    hide IdentitiesOk, Inspected, MembersOf, UserNamed, GroupNamed;
    assert work.gid in Memberships(nss, who) <==> who.gid == work.gid;
    WorkBits(bit);
  }

  lemma WorkBits(bit: nat)
    requires bit in {1, 2, 4}
    ensures WORK_MODE / 8 % 8 == 7 && HasBit(7, bit) && WORK_MODE % 8 == 0 && !HasBit(0, bit)
  {
  }

  /** The failing input: any accepted databases stay accepted when a hidden entry with a fresh
      number, and any group at all, is put before them. */
  lemma ShadowIsAccepted(t: Topology, nss: Nss, who: Account)
    requires IdentitiesOk(t, nss) && nss.listed.None? && who.name !in Names(t)
    requires UserNamed(nss.accounts, who.name).Some? && forall a <- nss.accounts :: a.uid != who.uid
    ensures var nss' := nss.(accounts := [who] + nss.accounts);
            IdentitiesOk(t, nss') && who in nss'.accounts && Shadowed(nss', who)
  {
    var nss' := nss.(accounts := [who] + nss.accounts);
    hide Holders, UserNamed, GroupNamed, Memberships, SlotClosed, UsersDistinct, GroupsDistinct, NumbersDistinct;
    LaterWins(nss, who);
    SameNumbers(t, nss, nss', who);
    SameUsers(t, nss, nss', who);
    SameGroups(t, nss, nss');
    forall s <- t.slots
      ensures SlotClosed(nss', s)
    {
      SameClosed(nss, nss', who, s);
    }
  }

  /** Nothing changes for a lookup by name, nor for any number but the new one. */
  ghost predicate SameLookups(nss: Nss, nss': Nss, who: Account) {
    && nss' == nss.(accounts := [who] + nss.accounts)
    && (forall name :: UserNamed(nss.accounts, name).Some? ==>
          UserNamed(nss'.accounts, name) == UserNamed(nss.accounts, name))
    && (forall uid :: uid != who.uid ==> Holders(nss'.accounts, uid) == Holders(nss.accounts, uid))
  }

  lemma LaterWins(nss: Nss, who: Account)
    ensures SameLookups(nss, nss.(accounts := [who] + nss.accounts), who)
  {
    forall name | UserNamed(nss.accounts, name).Some?
      ensures UserNamed([who] + nss.accounts, name) == UserNamed(nss.accounts, name)
    {
      NamedAfter(who, nss.accounts, name);
    }
    forall uid | uid != who.uid
      ensures Holders([who] + nss.accounts, uid) == Holders(nss.accounts, uid)
    {
      HoldersAfter(who, nss.accounts, uid);
    }
  }

  lemma {:induction false} NamedAfter(who: Account, accounts: seq<Account>, name: string)
    requires UserNamed(accounts, name).Some?
    ensures UserNamed([who] + accounts, name) == UserNamed(accounts, name)
  {
    var n := |accounts| - 1;
    assert ([who] + accounts)[..n + 1] == [who] + accounts[..n];
    if accounts[n].name != name {
      NamedAfter(who, accounts[..n], name);
    }
  }

  lemma {:induction false} HoldersAfter(who: Account, accounts: seq<Account>, uid: nat)
    requires uid != who.uid
    ensures Holders([who] + accounts, uid) == Holders(accounts, uid)
  {
    if accounts == [] {
      assert ([who] + accounts)[..0] == [];
    } else {
      var n := |accounts| - 1;
      assert ([who] + accounts)[..n + 1] == [who] + accounts[..n];
      HoldersAfter(who, accounts[..n], uid);
    }
  }

  lemma SameNumbers(t: Topology, nss: Nss, nss': Nss, who: Account)
    requires SameLookups(nss, nss', who) && NumbersDistinct(t, nss) && who.name !in Names(t)
    requires forall a <- nss.accounts :: a.uid != who.uid
    ensures NumbersDistinct(t, nss')
  {
    hide Holders, GroupHolders, UserNamed;
    assert forall a <- nss'.accounts :: a != who ==> a in nss.accounts;
    assert forall name <- t.guarded :: name in Names(t);
  }

  lemma SameUsers(t: Topology, nss: Nss, nss': Nss, who: Account)
    requires SameLookups(nss, nss', who) && UsersDistinct(t, nss)
    requires forall a <- nss.accounts :: a.uid != who.uid
    ensures UsersDistinct(t, nss')
  {
    hide Holders, Unique, UserNamed;
    assert forall name <- Names(t) :: UserNamed(nss'.accounts, name) == UserNamed(nss.accounts, name);
    assert Uids(nss', Names(t)) == Uids(nss, Names(t));
  }

  lemma SameGroups(t: Topology, nss: Nss, nss': Nss)
    requires nss' == nss.(accounts := nss'.accounts) && GroupsDistinct(t, nss) && UsersDistinct(t, nss)
    requires forall name :: UserNamed(nss.accounts, name).Some? ==>
               UserNamed(nss'.accounts, name) == UserNamed(nss.accounts, name)
    ensures GroupsDistinct(t, nss')
  {
    hide Unique, UserNamed, GroupNamed, GroupHolders, Holders, SlotGroups, SlotUsers;
    assert forall name <- t.guarded :: name in Names(t);
    assert Gids(nss', SlotGroups(t.slots)) == Gids(nss, SlotGroups(t.slots));
  }

  lemma SameClosed(nss: Nss, nss': Nss, who: Account, s: Slot)
    requires SameLookups(nss, nss', who) && SlotClosed(nss, s) && UserNamed(nss.accounts, who.name).Some?
    ensures SlotClosed(nss', s)
  {
    hide Holders, UserNamed, GroupNamed, MembersOf;
    forall g
      ensures MembersOf(nss', g) == MembersOf(nss, g)
    {
      SameMembers(nss, nss', who, g);
    }
  }

  lemma SameMembers(nss: Nss, nss': Nss, who: Account, g: GroupEntry)
    requires SameLookups(nss, nss', who) && UserNamed(nss.accounts, who.name).Some?
    ensures MembersOf(nss', g) == MembersOf(nss, g)
  {
    hide Holders;
    var known := UserNamed(nss.accounts, who.name).value;
    assert known in nss.accounts && known.name == who.name;
    hide UserNamed;
    forall a | a in nss'.accounts
      ensures GroupsUnder(nss', a.name) == GroupsUnder(nss, a.name)
    {
      assert a in nss.accounts || a == who;
    }
  }
}
