/** The read-only observer of the pool (`_managed_pool` in deploy/inventory.py) and
    its agreement with `reconcile`. */
module PoolInventory {
  import opened Effects
  import opened PoolModel
  import opened PoolLog
  import opened PoolReconcile
  import opened SlotLayout

  datatype Status = Invalid | Missing | Reusable

  datatype Row = Row(id: string, status: Status, phase: Option<Phase>, desired: bool)

  /** What inventory computes from the configuration: the binding it expects in pool.json,
      if it can, its own member table, and the wanted capacity. */
  datatype Expected = Expected(binding: Option<Binding>, members: seq<Member>, capacity: nat)

  function ExpectedOf(k: Config, sha: Sha): Expected {
    Expected(InventoryBinding(k, Derived(k), sha), InventoryMembers(k, Derived(k), sha), k.capacity)
  }

  /** `_runner` for one pool member. */
  function RunnerStatus(w: World, m: Member): Status {
    match RegistrationOf(MarkersOf(w, m.id), m)
    case Ambiguous => Invalid
    case Absent => Missing
    case Present(_) => Reusable
  }

  function RecordOf(w: World, m: Member): Option<Record> {
    RecordIn(w.pool, m.id)
  }

  /** Members beyond capacity matter only while they have a record. */
  predicate Considered(e: Expected, w: World, i: nat)
    requires i < |e.members|
  {
    i < e.capacity || RecordOf(w, e.members[i]).Some?
  }

  /** The record and the local files of the member tell one settled story. */
  predicate Settled(w: World, m: Member) {
    var record, local := RecordOf(w, m), RegistrationOf(MarkersOf(w, m.id), m);
    if record.None? then local == Absent
    else record.value.phase in {Ready, Draining} && record.value.runnerId.Some?
         && local == Present(record.value.runnerId.value)
  }

  predicate OwnPool(e: Expected, w: World) {
    w.pool.Some? ==>
      && e.binding == Some(w.pool.value.binding)
      && forall id <- w.pool.value.members.Keys :: exists i :: 0 <= i < |e.members| && e.members[i].id == id
  }

  ghost predicate AllSettled(e: Expected, w: World, n: nat)
    requires n <= |e.members|
  {
    forall i: nat :: i < n && Considered(e, w, i) ==> Settled(w, e.members[i])
  }

  ghost predicate SomeMissing(e: Expected, w: World, n: nat)
    requires n <= |e.members|
  {
    exists i: nat :: i < n && Considered(e, w, i) && RunnerStatus(w, e.members[i]) == Missing
  }

  function RowOf(e: Expected, w: World, i: nat): Row
    requires i < |e.members|
  {
    var m := e.members[i];
    Row(m.id, RunnerStatus(w, m),
        if RecordOf(w, m).Some? then Some(RecordOf(w, m).value.phase) else None, i < e.capacity)
  }

  /** The rows of the considered members among the first n, in order. */
  function Rows(e: Expected, w: World, n: nat): seq<Row>
    requires n <= |e.members|
  {
    if n == 0 then []
    else Rows(e, w, n - 1) + if Considered(e, w, n - 1) then [RowOf(e, w, n - 1)] else []
  }

  /** The look at this member ends the observation: local files nobody recorded, or a record
      that is half way or does not match the files. */
  predicate Contradicted(e: Expected, w: World, i: nat)
    requires i < |e.members|
  {
    && Considered(e, w, i)
    && if RecordOf(w, e.members[i]).None? then RunnerStatus(w, e.members[i]) == Reusable
       else !Settled(w, e.members[i])
  }

  /** The rows up to the first such member. */
  ghost predicate RowsSeen(e: Expected, w: World, rows: seq<Row>) {
    if !OwnPool(e, w) then rows == []
    else exists n: nat :: n <= |e.members| && (n < |e.members| ==> Contradicted(e, w, n)) && rows == Rows(e, w, n)
                          && forall k: nat :: k < n ==> !Contradicted(e, w, k)
  }

  ghost function Verdict(e: Expected, w: World): Status {
    var n := |e.members|;
    if !OwnPool(e, w) || !AllSettled(e, w, n) then Invalid
    else if w.pool.None? || SomeMissing(e, w, n) then Missing
    else Reusable
  }

  /** `_managed_pool`: rows of the members looked at, and a verdict. */
  method ManagedPool(k: Config, sha: Sha, w: World) returns (status: Status, rows: seq<Row>)
    ensures status == Verdict(ExpectedOf(k, sha), w)
    ensures status != Invalid ==> rows == Rows(ExpectedOf(k, sha), w, SLOTS)
    ensures RowsSeen(ExpectedOf(k, sha), w, rows)
  {
    var e := ExpectedOf(k, sha);
    assert |e.members| == SLOTS;
    hide Verdict, Rows, ExpectedOf, RowsSeen;
    status, rows := Examine(e, w);
  }

  method Examine(e: Expected, w: World) returns (status: Status, rows: seq<Row>)
    ensures status == Verdict(e, w)
    ensures status != Invalid ==> rows == Rows(e, w, |e.members|)
    ensures RowsSeen(e, w, rows)
  {
    rows := [];
    if !OwnPool(e, w) {
      return Invalid, rows;
    }
    var members := e.members;
    var missing, invalid := false, false;
    for i := 0 to |members|
      invariant AllSettled(e, w, i) <==> !invalid
      invariant missing <==> SomeMissing(e, w, i)
      invariant rows == Rows(e, w, i) && forall k: nat :: k < i ==> !Contradicted(e, w, k)
    {
      var m, record := members[i], RecordOf(w, members[i]);
      if i >= e.capacity && record.None? {
        continue;
      }
      assert Considered(e, w, i);
      var observed, phase := RunnerStatus(w, m), None;
      if record.None? {
        if observed == Reusable {
          return Invalid, rows;
        }
      } else {
        phase := Some(record.value.phase);
        if record.value.phase !in {Ready, Draining} || observed != Reusable
           || RegistrationOf(MarkersOf(w, m.id), m) != RecordedAs(record.value) {
          return Invalid, rows;
        }
      }
      rows := rows + [Row(m.id, observed, phase, i < e.capacity)];
      missing, invalid := missing || observed == Missing, invalid || observed == Invalid;
    }
    status := if invalid then Invalid else if w.pool.None? || missing then Missing else Reusable;
  }

  function RecordedAs(record: Record): Registration {
    if record.runnerId.Some? then Present(record.runnerId.value) else Absent
  }

  /** Every desired member has a record. */
  predicate FullyRecorded(c: Contract, w: World) {
    forall i :: 0 <= i < |c.binding.members| && i < c.desiredCapacity ==> Recorded(w, c.binding.members[i].id)
  }

  /** After any pass that returned, the observer, with its own tables, never says `invalid`,
      and says `reusable` exactly when every desired member has a record. */
  lemma AgreesAfterReturn(k: Config, sha: Sha, c: Contract, before: Option<PoolState>, w: World, log: Log,
                          fates: seq<Fate>)
    requires ContractBinding(k, Derived(k), sha) == Some(c.binding) && c.desiredCapacity == k.capacity
    requires Inv(w, log) && Progress(c, before, w, fates) && |fates| == |c.binding.members|
    ensures Verdict(ExpectedOf(k, sha), w) == if FullyRecorded(c, w) then Reusable else Missing
  {
    var e := ExpectedOf(k, sha);
    TablesAgree(k, sha);
    assert e == Expected(Some(c.binding), c.binding.members, c.desiredCapacity);
    hide Inv, Progress, Verdict, FullyRecorded;
    AgreesOnSameTable(e, c, before, w, log, fates);
  }

  lemma AgreesOnSameTable(e: Expected, c: Contract, before: Option<PoolState>, w: World, log: Log, fates: seq<Fate>)
    requires 0 <= c.desiredCapacity && e == Expected(Some(c.binding), c.binding.members, c.desiredCapacity)
    requires Inv(w, log) && Progress(c, before, w, fates) && |fates| == |c.binding.members|
    ensures Verdict(e, w) == if FullyRecorded(c, w) then Reusable else Missing
  {
    var members := c.binding.members;
    forall i: nat | i < |members|
      ensures Considered(e, w, i) ==> Settled(w, members[i])
      ensures Considered(e, w, i) ==> (RunnerStatus(w, members[i]) == Missing <==> !Recorded(w, members[i].id))
    {
      assert FateHolds(w, members[i], fates[i]);
      assert FateAllowed(RecordIn(before, members[i].id), i < c.desiredCapacity, fates[i]);
    }
    forall id <- w.pool.value.members.Keys
      ensures exists i :: 0 <= i < |members| && members[i].id == id
    {
      assert KnowsId(members, id);
    }
  }

  /** A pool.json of another binding, or with a record of nobody in the table, is never accepted. */
  lemma ForeignIsInvalid(k: Config, sha: Sha, w: World)
    requires w.pool.Some?
    requires InventoryBinding(k, Derived(k), sha) != Some(w.pool.value.binding)
             || exists id :: id in w.pool.value.members && !KnowsId(InventoryMembers(k, Derived(k), sha), id)
    ensures Verdict(ExpectedOf(k, sha), w) == Invalid
  {
    var e := ExpectedOf(k, sha);
    assert forall id, i :: 0 <= i < |e.members| && e.members[i].id == id ==> KnowsId(e.members, id);
  }

  /** At every crash point that leaves a record half way, the observer says `invalid`. */
  lemma HalfWayIsInvalid(e: Expected, w: World, id: string)
    requires Recorded(w, id) && w.pool.value.members[id].phase in {Register, Registered, Starting, Remove}
    ensures Verdict(e, w) == Invalid
  {
    if OwnPool(e, w) {
      var i: nat :| i < |e.members| && e.members[i].id == id;
      assert Considered(e, w, i) && !Settled(w, e.members[i]);
    }
  }
}
