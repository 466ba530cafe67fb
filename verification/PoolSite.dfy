/** The State, GitHub and Host objects owner Apply acts through, over one shared world.

    Every call first lets the environment run, can then fail before or after it
    took effect, and appends what it did to the history. A quiet site has no
    environment and no failures. */
module PoolSite {
  import opened Effects
  import opened PoolModel
  import opened PoolLog
  import PoolPages

  /** A row of GitHub's runner list. */
  datatype Found = Found(id: nat, runner: Runner)

  // ---- What a reading of the list says ----

  predicate HasRow(rows: seq<Found>, id: nat) {
    exists f <- rows :: f.id == id
  }

  ghost predicate OnceEach(rows: seq<Found>) {
    forall i, k :: 0 <= i < k < |rows| ==> rows[i].id != rows[k].id
  }

  ghost predicate Lists(w: World, rows: seq<Found>) {
    && |rows| == |w.runners| && OnceEach(rows)
    && (forall f <- rows :: f.id in w.runners && f.runner == w.runners[f.id])
    && (forall id :: id in w.runners ==> HasRow(rows, id))
  }

  /** What a row read earlier still says: the runner was issued under that name; if it is
      listed it has these labels, and no job if the row shows neither labels nor a job. */
  ghost predicate RowStill(w: World, f: Found) {
    && f.id in w.issued && w.issued[f.id].name == f.runner.name
    && (f.id in w.runners ==>
          && w.runners[f.id].labels == f.runner.labels
          && (Unlabelled(f.runner.labels) && !f.runner.busy ==> !w.runners[f.id].busy))
  }

  /** Every runner of that name that was there before the reading and still is, is the one
      that was found. */
  ghost predicate Covered(w: World, w': World, name: string, found: Option<Found>) {
    forall id :: id in w'.runners && id in w.issued && w'.runners[id].name == name ==>
      found.Some? && found.value.id == id
  }

  /** The only listed runner with that name. */
  ghost function TheNamed(w: World, name: string): (found: Option<Found>)
    requires |Named(w, name)| <= 1
    ensures found.None? <==> Named(w, name) == {}
    ensures found.Some? ==>
              Named(w, name) == {found.value.id} && found.value.runner == w.runners[found.value.id]
  {
    if Named(w, name) == {} then None
    else
      var id :| id in Named(w, name);
      assert |Named(w, name) - {id}| == 0;
      Some(Found(id, w.runners[id]))
  }

  /** The rows with a name, in order. */
  function Matching(rows: seq<Found>, name: string): (matches: seq<Found>)
    ensures forall f :: f in matches <==> f in rows && f.runner.name == name
    ensures |matches| <= |rows|
  {
    if rows == [] then []
    else (if rows[0].runner.name == name then [rows[0]] else []) + Matching(rows[1..], name)
  }

  /** GitHub's answer, just read. */
  lemma RowsNow(w: World, log: Log, rows: seq<Found>)
    requires Inv(w, log) && Lists(w, rows)
    ensures forall f <- rows :: RowStill(w, f)
  {
  }

  lemma AsMany(w: World, rows: seq<Found>)
    requires Lists(w, rows)
    ensures |rows| == |w.runners|
  {
  }

  lemma RowsStay(w: World, w': World, rows: seq<Found>)
    requires Drift(w, w') && forall f <- rows :: RowStill(w, f)
    ensures forall f <- rows :: RowStill(w', f)
  {
    forall f | f in rows
      ensures RowStill(w', f)
    {
      assert RowStill(w, f);
    }
  }

  lemma MoreRows(w: World, rows: seq<Found>, list: seq<Found>, page: nat)
    requires page >= 1 && Lists(w, list)
    requires (forall f <- rows :: RowStill(w, f)) && forall f <- list :: RowStill(w, f)
    ensures forall f <- rows + PoolPages.PageOf(list, page) :: RowStill(w, f)
    ensures page == 1 && |w.runners| <= PoolPages.PAGE ==>
              forall id :: id in w.runners ==> HasRow(rows + PoolPages.PageOf(list, page), id)
    ensures forall id :: HasRow(rows, id) ==> HasRow(rows + PoolPages.PageOf(list, page), id)
  {
    hide RowStill;
  }

  /** Outside the units only what other people do to GitHub's list changed. */
  ghost predicate StoresDrift(w: World, w': World) {
    w'.pool == w.pool && w'.markers == w.markers && RunnersDrift(w, w')
  }

  lemma StoresTwice(a: World, b: World, c: World)
    requires StoresDrift(a, b) && StoresDrift(b, c)
    ensures StoresDrift(a, c)
  {
  }

  lemma DriftOfStores(w: World, w': World)
    requires StoresDrift(w, w')
    ensures w'.pool == w.pool && w'.markers == w.markers && RunnersDrift(w, w')
  {
  }

  lemma DriftIsStoresDrift(w: World, w': World)
    requires Drift(w, w')
    ensures StoresDrift(w, w') && w'.pool == w.pool && w'.markers == w.markers && RunnersDrift(w, w')
  {
  }

  lemma ReadingSoFar(was: World, before: Log, first: World, w: World, log: Log, page: nat, rows: seq<Found>)
    requires Reading(was, before, first, w, log, page, rows)
    ensures Drift(was, first) && Drift(first, w) && Drift(was, w) && ReadList(before, log)
    ensures page > 1 ==> Requested(log, page - 1, |first.runners|)
  {
  }

  lemma NothingHappened(w: World)
    ensures Drift(w, w)
  {
  }

  /** Whoever was there before, bears the row's name and still is there, is the row. */
  ghost predicate Sole(was: World, w: World, f: Found) {
    forall id :: id in w.runners && id in was.issued && was.issued[id].name == f.runner.name ==> id == f.id
  }

  /** As long as its name is clean, every row of a long list was the only one of its name. */
  ghost predicate SoleRows(was: World, w: World, log: Log, length: nat, rows: seq<Found>) {
    length > PoolPages.PAGE ==> forall f <- rows :: Clean(log, f.runner.name) ==> Sole(was, w, f)
  }

  lemma SoleStays(was: World, w: World, w': World, log: Log, log': Log, length: nat, rows: seq<Found>)
    requires Drift(was, w) && Drift(w, w') && SoleRows(was, w, log, length, rows)
    requires forall name :: Clean(log', name) ==> Clean(log, name)
    ensures SoleRows(was, w', log', length, rows)
  {
    hide Clean;
    forall f | f in rows && length > PoolPages.PAGE && Clean(log', f.runner.name)
      ensures Sole(was, w', f)
    {
      assert Sole(was, w, f);
    }
  }

  lemma NewSole(was: World, w: World, log: Log, page: nat, length: nat, rows: seq<Found>)
    requires Inv(w, log) && Drift(was, w) && Lists(w, rows)
    ensures SoleRows(was, w, Then(log, ListRead(page, |w.runners|, length), w), length, rows)
  {
    hide OnceEach, Lawful, Owned, Counted, Reserved;
    var log' := Then(log, ListRead(page, |w.runners|, length), w);
    forall f | f in rows && length > PoolPages.PAGE && Clean(log', f.runner.name)
      ensures Sole(was, w, f)
    {
      assert f.id in Named(w, f.runner.name);
      OnlyOne(w, f.runner.name, f.id);
      forall id | id in w.runners && id in was.issued && was.issued[id].name == f.runner.name
        ensures id == f.id
      {
        assert id in Named(w, f.runner.name);
      }
    }
  }

  lemma OnlyOne(w: World, name: string, id: nat)
    requires |Named(w, name)| <= 1 && id in Named(w, name)
    ensures Named(w, name) == {id}
  {
    assert |Named(w, name) - {id}| == 0;
  }

  /** The last event is the request for this page of a list that was so long at first. */
  predicate Requested(log: Log, page: nat, length: nat) {
    log.Then? && log.event.ListRead? && log.event.page == page && log.event.first == length
  }

  /** A reading that began at `was` with the history `before` and saw `first` at its first
      request has these rows before its page-th request. */
  ghost predicate Reading(was: World, before: Log, first: World, w: World, log: Log, page: nat, rows: seq<Found>) {
    && Drift(was, first) && Drift(first, w) && Drift(was, w) && (forall f <- rows :: RowStill(w, f))
    && ReadList(before, log) && (page <= 1 ==> rows == [])
    && (page > 1 ==>
          && Requested(log, page - 1, |first.runners|) && SoleRows(was, w, log, |first.runners|, rows)
          && (|first.runners| <= PoolPages.PAGE ==> forall id :: id in first.runners ==> HasRow(rows, id)))
  }

  lemma NothingRead(w: World, log: Log)
    ensures Reading(w, log, w, w, log, 1, []) && SteadyReading(w, [], 1, []) && Drift(w, w) && ReadList(log, log)
  {
    NothingHappened(w);
  }

  /** One more answer. */
  lemma ReadingGoesOn(was: World, before: Log, first: World, w: World, w': World, log: Log, page: nat,
                      rows: seq<Found>, list: seq<Found>, seen: World)
    requires page >= 1 && Reading(was, before, first, w, log, page, rows)
    requires Drift(w, w') && Inv(w', log) && Lists(w', list) && seen == if page == 1 then w' else first
    ensures var log' := Then(log, ListRead(page, |w'.runners|, |seen.runners|), w');
            Reading(was, before, seen, w', log', page + 1, rows + PoolPages.PageOf(list, page))
  {
    hide Inv, Drift, RowStill, Lists, HasRow, SoleRows, Clean;
    var log' := Then(log, ListRead(page, |w'.runners|, |seen.runners|), w');
    DriftTransitive(first, w, w');
    DriftTransitive(was, w, w');
    NothingHappened(w');
    RowsStay(w, w', rows);
    RowsNow(w', log, list);
    MoreRows(w', rows, list, page);
    if page == 1 {
      NoRowsYet(was, w', log', |seen.runners|);
    } else {
      CleanBefore(log');
      SoleStays(was, w, w', log, log', |seen.runners|, rows);
    }
    NewSole(was, w', log, page, |seen.runners|, list);
    MoreSole(was, w', log', |seen.runners|, rows, list, page);
  }

  lemma CleanBefore(log: Log)
    requires log.Then? && log.event.ListRead?
    ensures forall name :: Clean(log, name) ==> Clean(log.before, name)
  {
  }

  lemma NoRowsYet(was: World, w: World, log: Log, length: nat)
    ensures SoleRows(was, w, log, length, [])
  {
  }

  lemma MoreSole(was: World, w: World, log: Log, length: nat, rows: seq<Found>, list: seq<Found>, page: nat)
    requires page >= 1 && SoleRows(was, w, log, length, rows) && SoleRows(was, w, log, length, list)
    ensures SoleRows(was, w, log, length, rows + PoolPages.PageOf(list, page))
  {
    hide Sole, Clean;
  }

  /** Whoever was there before and still is was not missed. */
  ghost predicate CoversAll(was: World, w: World, rows: seq<Found>) {
    forall id :: id in w.runners && id in was.issued ==> HasRow(rows, id)
  }

  ghost predicate SoleNamed(was: World, w: World, rows: seq<Found>, name: string) {
    forall f <- rows :: f.runner.name == name ==> Sole(was, w, f)
  }

  /** What a reading is worth: if the list was short, nobody was missed; as long as a name is
      clean, nobody was missed or a row of that name is its only bearer. */
  ghost predicate Reliable(was: World, w: World, log: Log, rows: seq<Found>) {
    && (ShortLists(log) ==> CoversAll(was, w, rows))
    && forall name :: Clean(log, name) ==> CoversAll(was, w, rows) || SoleNamed(was, w, rows, name)
  }

  lemma ReadingIsReliable(was: World, before: Log, first: World, w: World, log: Log, page: nat, rows: seq<Found>)
    requires Reading(was, before, first, w, log, page, rows) && page > 1
    ensures Drift(was, w) && ReadList(before, log) && (forall f <- rows :: RowStill(w, f))
    ensures Reliable(was, w, log, rows)
  {
    hide RowStill, Sole, Clean, HasRow;
    if |first.runners| <= PoolPages.PAGE {
      StillListed(was, first, w);
      assert CoversAll(was, w, rows);
    } else {
      LongIsLong(log, page - 1, |first.runners|);
    }
  }

  lemma LongIsLong(log: Log, page: nat, length: nat)
    requires Requested(log, page, length) && length > PoolPages.PAGE
    ensures !ShortLists(log)
  {
  }

  lemma StillListed(a: World, b: World, c: World)
    requires Drift(a, b) && Drift(b, c)
    ensures forall id :: id in c.runners && id in a.issued ==> id in b.runners
  {
  }

  /** A reading of a list that does not change. */
  ghost predicate SteadyReading(w: World, list: seq<Found>, page: nat, rows: seq<Found>) {
    if page <= 1 then rows == []
    else Lists(w, list) && (page - 1) * PoolPages.PAGE <= |list| && rows == list[..(page - 1) * PoolPages.PAGE]
  }

  lemma SteadyRequest(w: World, list: seq<Found>, page: nat, rows: seq<Found>, answer: seq<Found>)
    requires SteadyReading(w, list, page, rows) && page >= 1 && Lists(w, answer) && (page > 1 ==> answer == list)
    ensures var more := PoolPages.PageOf(answer, page);
            if |more| < PoolPages.PAGE then rows + more == answer else SteadyReading(w, answer, page + 1, rows + more)
    ensures page <= |w.runners| + 1
  {
    hide OnceEach, HasRow;
  }

  lemma Covers(w: World, w': World, log: Log, rows: seq<Found>, name: string)
    requires Inv(w', log) && |Matching(rows, name)| <= 1 && forall f <- rows :: RowStill(w', f)
    requires CoversAll(w, w', rows)
    ensures Covered(w, w', name, if Matching(rows, name) == [] then None else Some(Matching(rows, name)[0]))
  {
    forall id | id in w'.runners && id in w.issued && w'.runners[id].name == name
      ensures Matching(rows, name) != [] && Matching(rows, name)[0].id == id
    {
      assert HasRow(rows, id);
      var f :| f in rows && f.id == id;
      assert RowStill(w', f) && f in Matching(rows, name);
    }
  }

  /** A found row suffices, however long the list, if nobody else bears the name. */
  lemma CoversAlone(w: World, w': World, log: Log, rows: seq<Found>, name: string)
    requires Inv(w', log) && Drift(w, w') && Matching(rows, name) != [] && SoleNamed(w, w', rows, name)
    ensures Covered(w, w', name, Some(Matching(rows, name)[0]))
  {
    hide Lawful, Owned, Counted, Reserved;
    assert Matching(rows, name)[0] in Matching(rows, name);
    assert Sole(w, w', Matching(rows, name)[0]);
  }

  function Ids(rows: seq<Found>): (ids: set<nat>)
    ensures forall id :: id in ids <==> HasRow(rows, id)
  {
    set f | f in rows :: f.id
  }

  lemma HeadOnce(f: Found, rest: seq<Found>)
    requires OnceEach(rest) && !HasRow(rest, f.id)
    ensures OnceEach([f] + rest)
  {
  }

  lemma {:induction false} MatchingOnce(rows: seq<Found>, name: string)
    requires OnceEach(rows)
    ensures OnceEach(Matching(rows, name))
  {
    if rows != [] {
      MatchingOnce(rows[1..], name);
      var rest := Matching(rows[1..], name);
      assert forall f :: f in rest ==> f in rows[1..];
      hide Matching;
      if HasRow(rest, rows[0].id) {
        var f :| f in rest && f.id == rows[0].id;
        assert f in rows[1..];
      }
      hide OnceEach;
      if rows[0].runner.name == name {
        HeadOnce(rows[0], rest);
        assert Matching(rows, name) == [rows[0]] + rest;
      } else {
        assert Matching(rows, name) == rest;
      }
    }
  }

  lemma {:induction false} IdsCount(rows: seq<Found>)
    requires OnceEach(rows)
    ensures |Ids(rows)| == |rows|
  {
    if rows != [] {
      IdsCount(rows[1..]);
      assert !HasRow(rows[1..], rows[0].id);
      assert Ids(rows) == {rows[0].id} + Ids(rows[1..]);
    }
  }

  /** In a whole listing the rows with a name are the runners with that name. */
  lemma RowsOfName(w: World, rows: seq<Found>, name: string)
    requires Lists(w, rows)
    ensures Ids(Matching(rows, name)) == Named(w, name) && |Matching(rows, name)| == |Named(w, name)|
  {
    var matches := Matching(rows, name);
    MatchingOnce(rows, name);
    IdsCount(matches);
    hide OnceEach;
    forall id
      ensures id in Named(w, name) <==> HasRow(matches, id)
    {
      if id in Named(w, name) {
        assert HasRow(rows, id);
        var f :| f in rows && f.id == id;
        assert f in matches;
      }
    }
  }

  lemma OneRowEach(w: World, rows: seq<Found>, name: string)
    requires Lists(w, rows)
    ensures |Matching(rows, name)| == |Named(w, name)|
    ensures |Named(w, name)| <= 1 ==>
              TheNamed(w, name) == if Matching(rows, name) == [] then None else Some(Matching(rows, name)[0])
  {
    hide Lists, Named, Matching, TheNamed;
    RowsOfName(w, rows, name);
    if |Matching(rows, name)| == 1 {
      TheRow(w, rows, name);
    }
  }

  lemma TheRow(w: World, rows: seq<Found>, name: string)
    requires Lists(w, rows) && |Matching(rows, name)| == 1 && Ids(Matching(rows, name)) == Named(w, name)
    requires |Named(w, name)| == 1
    ensures TheNamed(w, name) == Some(Matching(rows, name)[0])
  {
    hide OnceEach, HasRow;
    var f := Matching(rows, name)[0];
    assert f in Matching(rows, name) && f in rows;
    assert HasRow(Matching(rows, name), TheNamed(w, name).value.id);
  }

  ghost function WithUnit(w: World, id: string, u: Unit): World {
    w.(units := w.units[id := u])
  }

  /** The member's runner gone from GitHub, and every local file of it. */
  ghost function Unregistered(w: World, id: string, r: nat): World {
    w.(runners := w.runners - {r}, markers := w.markers[id := NO_MARKERS])
  }

  /** On a quiet site a frozen unit is judged unless its processes call for a listing that
      is ambiguous. */
  ghost predicate FreezeAnswers(w: World, m: Member) {
    UnitOf(w, m.id).procs <= IDLE_PROCESSES ==> |Named(w, m.name)| <= 1
  }

  /** Whoever joined GitHub's list has not connected yet. */
  ghost predicate JoinedOffline(w: World, w': World) {
    forall id :: id in w'.runners ==>
      (id in w.runners && w'.runners[id] == w.runners[id]) || !w'.runners[id].online
  }

  /** Only what belongs to one member changed, as far as units and runners go. */
  ghost predicate Aside(w: World, w': World, m: Member) {
    && (forall k :: k != m.id ==> UnitOf(w', k) == UnitOf(w, k))
    && (forall r :: r in w.runners && w.runners[r].name != m.name ==> r in w'.runners && w'.runners[r] == w.runners[r])
    && (forall r :: r in w'.runners && w'.runners[r].name != m.name ==> r in w.runners && w.runners[r] == w'.runners[r])
  }

  lemma AsideTwice(a: World, b: World, c: World, m: Member)
    requires Aside(a, b, m) && Aside(b, c, m)
    ensures Aside(a, c, m)
  {
  }

  /** On a quiet site the frozen unit is signalled and stopped: only idle runner processes,
      and GitHub shows the one runner of that name without a job. */
  ghost predicate Stoppable(w: World, m: Member) {
    UnitOf(w, m.id).procs <= IDLE_PROCESSES && exists r :: Named(w, m.name) == {r} && !w.runners[r].busy
  }

  /** What `stop_idle` leaves on a quiet site. */
  ghost function AfterStop(w: World, m: Member): World {
    var u := UnitOf(w, m.id);
    if u.active != Active then w
    else if Stoppable(w, m) then WithUnit(w, m.id, Halted(u))
    else WithUnit(w, m.id, u.(frozen := false))
  }

  /** What it does on a quiet site. */
  ghost function StopActs(w: World, m: Member): seq<Event> {
    if UnitOf(w, m.id).active != Active then []
    else if Stoppable(w, m) then [Freezing(m), Froze(m), Terminated(m), StopRequested(m), Thawing(m)]
    else [Freezing(m), Froze(m), Thawing(m)]
  }

  /** Freeze, judge and thaw, one after the other. */
  lemma StopInSteps(w: World, m: Member, acts: seq<Event>)
    requires UnitOf(w, m.id).active == Active
    ensures var u := UnitOf(w, m.id);
            var frozen := WithUnit(w, m.id, u.(frozen := true));
            var judged := if Stoppable(w, m) then WithUnit(frozen, m.id, Halted(u).(frozen := true)) else frozen;
            && UnitOf(frozen, m.id) == u.(frozen := true)
            && Stoppable(frozen, m) == Stoppable(w, m) && FreezeAnswers(frozen, m) == FreezeAnswers(w, m)
            && UnitOf(judged, m.id).active in {Active, Changing}
            && WithUnit(judged, m.id, UnitOf(judged, m.id).(frozen := false)) == AfterStop(w, m)
    ensures acts + [Freezing(m), Froze(m)] + (if Stoppable(w, m) then [Terminated(m), StopRequested(m)] else [])
            + [Thawing(m)] == acts + StopActs(w, m)
  {
    hide Stoppable, FreezeAnswers, WithUnit;
    FrozenSame(w, m);
    var u := UnitOf(w, m.id);
    UnitTwice(w, m.id, u.(frozen := true), Halted(u).(frozen := true));
    UnitTwice(w, m.id, u.(frozen := true), u.(frozen := false));
    UnitTwice(WithUnit(w, m.id, u.(frozen := true)), m.id, Halted(u).(frozen := true), Halted(u));
    UnitTwice(w, m.id, u.(frozen := true), Halted(u));
  }

  lemma UnitTwice(w: World, id: string, u: Unit, v: Unit)
    ensures UnitOf(WithUnit(w, id, u), id) == u && WithUnit(WithUnit(w, id, u), id, v) == WithUnit(w, id, v)
  {
  }

  lemma FrozenSame(w: World, m: Member)
    ensures var frozen := WithUnit(w, m.id, UnitOf(w, m.id).(frozen := true));
            Stoppable(frozen, m) == Stoppable(w, m) && FreezeAnswers(frozen, m) == FreezeAnswers(w, m)
  {
    assert Named(WithUnit(w, m.id, UnitOf(w, m.id).(frozen := true)), m.name) == Named(w, m.name);
  }

  /** A unit on its way down. */
  function Halted(u: Unit): Unit {
    u.(signalled := true, stopping := true, active := Changing, frozen := false)
  }

  function UpAgain(u: Unit): Unit {
    u.(active := Active, main := true, stopping := false, signalled := false, procs := u.procs + IDLE_PROCESSES)
  }

  ghost function WithLabels(w: World, r: nat, tags: set<string>): World
    requires r in w.runners
  {
    w.(runners := w.runners[r := w.runners[r].(labels := Relabelled(w.runners[r].labels, tags))])
  }

  ghost function Launched(w: World, id: string): World {
    WithUnit(w, id, UpAgain(UnitOf(w, id)))
  }

  /** The labels of a runner once its custom ones were replaced. */
  function Relabelled(labels: set<Label>, tags: set<string>): (new_: set<Label>)
    ensures CustomNames(new_) == tags
  {
    var new_ := (set tag | tag in labels && !tag.custom) + (set tag | tag in tags :: Label(tag, true));
    assert forall tag :: tag in tags ==> Label(tag, true) in new_;
    new_
  }

  class Site {
    var world: World
    ghost var log: Log
    const quiet: bool

    /** A host on which the pool was never applied; anything else may be there. */
    constructor (world: World, quiet: bool)
      requires WorldOk(world) && world.pool == None
      requires forall r :: r in world.issued ==> world.issued[r].owner == None
      ensures Valid() && this.world == world && log == Empty && this.quiet == quiet
    {
      this.world, this.log, this.quiet := world, Empty, quiet;
    }

    ghost predicate Valid()
      reads this
    {
      Inv(world, log)
    }

    /** Any number of environment events. */
    method Interfere()
      requires Valid()
      modifies this`world
      ensures Valid() && Drift(old(world), world)
      ensures quiet ==> world == old(world)
    {
      var n: nat := *;
      while n > 0 && !quiet
        invariant Valid() && Drift(old(world), world)
        invariant quiet ==> world == old(world)
      {
        var e: EnvEvent := *;
        if Enabled(world, e) {
          HappenDrifts(world, e);
          DriftTransitive(old(world), world, Happen(world, e));
          DriftKeeps(world, Happen(world, e), log);
          world := Happen(world, e);
        }
        n := n - 1;
      }
    }

    // ---- State ----

    /** `State.write`: the file holds the old value or the whole new one. */
    method Write(state: PoolState) returns (r: Result<()>)
      requires Valid() && WriteOk(world.pool, state) && ReadyEarned(log, world.pool, state) && StateOk(state)
      requires RemovalEarned(log, world, world.pool, state)
      requires forall id :: id in state.members ==> RecordMatches(world, id, state.members[id])
      requires forall id :: id in state.members && !Recorded(world, id) ==> MarkersOf(world, id).runner.None?
      modifies this
      ensures Valid() && (r.Ok? || world == old(world) || world == old(world).(pool := Some(state)))
      ensures r.Ok? ==> world == old(world).(pool := Some(state)) && log == Then(old(log), Wrote(state), old(world))
      ensures Continues(old(log), log) && Acts(log) == Acts(old(log))
      ensures quiet ==> r.Ok?
    {
      hide Inv;
      var before := Fate(quiet);
      if before.Some? {
        return Stop(before.value);
      }
      WriteKeeps(world, log, state);
      log := Then(log, Wrote(state), world);
      world := world.(pool := Some(state));
      var after := Fate(quiet);
      return if after.Some? then Stop(after.value) else Ok(());
    }

    /** `State.read`. */
    method Read() returns (r: Result<Option<PoolState>>)
      requires Valid()
      ensures r.Ok? ==> r.value == world.pool
      ensures quiet ==> r.Ok?
    {
      var halt := Fate(quiet);
      return if halt.Some? then Stop(halt.value) else Ok(world.pool);
    }

    // ---- GitHub ----

    /** What one request can answer: every listed runner once, in any order. */
    method Rows() returns (list: seq<Found>)
      ensures Lists(world, list)
    {
      list := [];
      var rest := world.runners.Keys;
      while rest != {}
        invariant rest <= world.runners.Keys && |list| + |rest| == |world.runners.Keys|
        invariant forall id :: id in world.runners && id !in rest <==> HasRow(list, id)
        invariant forall f <- list :: f.id in world.runners && f.runner == world.runners[f.id]
        invariant OnceEach(list)
      {
        var id :| id in rest;
        assert !HasRow(list, id);
        ghost var was := list;
        list, rest := list + [Found(id, world.runners[id])], rest - {id};
        assert list[|was|].id == id;
        assert forall k :: HasRow(was, k) ==> HasRow(list, k);
      }
      assert |list| == |world.runners|;
    }

    /** One request. `steady` is the answer a quiet site gave before. */
    method Request(page: nat, rows: seq<Found>, steady: seq<Found>, ghost was: World, ghost before: Log,
                   ghost first: World)
        returns (r: Result<seq<Found>>, ghost seen: World)
      requires Valid() && page >= 1 && Reading(was, before, first, world, log, page, rows)
      requires quiet && page > 1 ==> Lists(world, steady)
      modifies this
      ensures Valid() && Drift(was, world) && ReadList(before, log) && Acts(log) == Acts(old(log))
      ensures r.Ok? ==> Reading(was, before, seen, world, log, page + 1, rows + PoolPages.PageOf(r.value, page))
      ensures r.Ok? ==> Lists(world, r.value) && |r.value| == |world.runners|
      ensures quiet ==> world == old(world) && r.Ok? && (page > 1 ==> r.value == steady)
    {
      hide Inv, Drift, RowStill, Lists, HasRow, Reading;
      ReadingSoFar(was, before, first, world, log, page, rows);
      Interfere();
      DriftTransitive(was, old(world), world);
      seen := first;
      var halt := Fate(quiet);
      if halt.Some? {
        return Stop(halt.value), seen;
      }
      seen := if page == 1 then world else first;
      var list := steady;
      if !quiet || page == 1 {
        list := Rows();
      }
      AsMany(world, list);
      ReadingGoesOn(was, before, first, old(world), world, log, page, rows, list, seen);
      CallKeeps(world, log, ListRead(page, |world.runners|, |seen.runners|));
      log := Then(log, ListRead(page, |world.runners|, |seen.runners|), world);
      return Ok(list), seen;
    }

    /** `runners`: the paged reading of GitHub's list, which goes on changing between the
        requests. */
    method Runners() returns (r: Result<seq<Found>>)
      requires Valid()
      modifies this
      ensures Valid() && Drift(old(world), world) && ReadList(old(log), log) && Acts(log) == Acts(old(log))
      // Every row was true when it was read, and there are as many as are listed at the end.
      ensures r.Ok? ==> |r.value| == |world.runners| && forall f <- r.value :: RowStill(world, f)
      ensures r.Ok? ==> Reliable(old(world), world, log, r.value)
      ensures quiet ==> world == old(world) && r.Ok? && Lists(world, r.value)
    {
      hide Inv, Drift, RowStill, Reading, SteadyReading, Lists, HasRow, Reliable, ReadList;
      NothingRead(world, log);
      var rows: seq<Found>, page, list: seq<Found> := [], 1, [];
      ghost var first := world;
      var patience: nat := |world.runners| + 2;
      if !quiet {
        patience := *;
      }
      while patience > 0
        invariant Valid() && page >= 1 && Reading(old(world), old(log), first, world, log, page, rows)
        invariant Drift(old(world), world) && ReadList(old(log), log) && Acts(log) == Acts(old(log))
        invariant quiet ==> world == old(world) && patience + page == |world.runners| + 3 && patience > 0
        invariant quiet ==> SteadyReading(world, list, page, rows) && (page > 1 ==> Lists(world, list))
      {
        ghost var shown := list;
        var answer, seen := Request(page, rows, list, old(world), old(log), first);
        if answer.Stop? {
          return Stop(answer.halt);
        }
        list, first := answer.value, seen;
        var more := PoolPages.PageOf(list, page);
        if quiet {
          SteadyRequest(world, shown, page, rows, list);
        }
        rows := rows + more;
        ReadingIsReliable(old(world), old(log), first, world, log, page + 1, rows);
        if |more| < PoolPages.PAGE {
          return if |rows| == |list| then Ok(rows) else Stop(Raised);
        }
        page, patience := page + 1, patience - 1;
      }
      return Stop(Died);
    }

    /** `observe`: the one listed runner with the member's name. */
    method Observe(m: Member) returns (r: Result<Option<Found>>)
      requires Valid()
      modifies this
      ensures Valid() && Drift(old(world), world) && ReadList(old(log), log) && Acts(log) == Acts(old(log))
      ensures r.Ok? && r.value.Some? ==> r.value.value.runner.name == m.name && RowStill(world, r.value.value)
      ensures r.Ok? && ShortLists(log) ==> Covered(old(world), world, m.name, r.value)
      ensures r.Ok? && r.value.Some? && Clean(log, m.name) ==> Covered(old(world), world, m.name, r.value)
      ensures quiet ==> world == old(world) && r.Survived()
      ensures quiet && |Named(world, m.name)| <= 1 ==> r.Ok? && r.value == TheNamed(world, m.name)
      ensures quiet && r.Ok? ==> |Named(world, m.name)| <= 1
    {
      hide Inv, Drift, RowStill;
      var rows :- Runners();
      var matches := Matching(rows, m.name);
      if quiet {
        OneRowEach(world, rows, m.name);
      }
      if |matches| > 1 {
        return Stop(Raised);
      }
      if CoversAll(old(world), world, rows) {
        Covers(old(world), world, log, rows, m.name);
      } else if matches != [] && Clean(log, m.name) {
        CoversAlone(old(world), world, log, rows, m.name);
      }
      return Ok(if matches == [] then None else Some(matches[0]));
    }

    /** `remote_absent`: no listed runner has the member's name or its recorded id. */
    method RemoteAbsent(m: Member, id: nat) returns (r: Result<bool>)
      requires Valid()
      modifies this
      ensures Valid() && Drift(old(world), world) && ReadList(old(log), log) && Acts(log) == Acts(old(log))
      ensures r == Ok(true) && ShortLists(log) ==> (id in old(world).issued ==> id !in world.runners)
      ensures quiet ==> world == old(world) && r == Ok(Named(world, m.name) == {} && id !in world.runners)
    {
      hide Inv, Drift, RowStill;
      var rows :- Runners();
      if quiet {
        OneRowEach(world, rows, m.name);
      }
      return Ok(Matching(rows, m.name) == [] && !HasRow(rows, id));
    }

    /** `in_group`, `qualify`, `attempts_idle`, `ephemeral`: answers from code and
        services that are not part of this model. */
    method Ask(question: Question) returns (r: Result<bool>)
      requires Valid()
      modifies this
      ensures Valid() && Drift(old(world), world) && (quiet ==> world == old(world) && r == Ok(true))
      ensures log == if r.Ok? then Then(old(log), Answered(question, r.value), world) else old(log)
      ensures forall k :: LeftFrozen(log, k) == LeftFrozen(old(log), k)
      ensures Acts(log) == Acts(old(log)) && (question != Qualified ==> Continues(old(log), log))
    {
      hide Inv;
      Interfere();
      var halt := Fate(quiet);
      if halt.Some? {
        return Stop(halt.value);
      }
      var answer: bool := *;
      answer := answer || quiet;
      CallKeeps(world, log, Answered(question, answer));
      log := Then(log, Answered(question, answer), world);
      return Ok(answer);
    }

    /** `GitHub.labels`: replaces the custom labels of one runner. */
    method PutLabels(m: Member, id: nat, tags: set<string>) returns (r: Result<()>)
      requires Valid() && Recorded(world, m.id) && world.pool.value.members[m.id].runnerId == Some(id)
      requires !InPhase(world, m.id, Remove)
      requires id in world.issued && world.issued[id] == Issue(m.name, Some(m.id)) && SeenInGroup(log, id)
      modifies this
      ensures Valid()
      ensures Continues(old(log), log)
      ensures quiet || r.Ok? ==> Acts(log) == Acts(old(log)) + [Labelled(m, id, tags)]
      ensures r.Ok? ==> world.pool == old(world).pool && world.markers == old(world).markers
      ensures r.Ok? ==> RunnersDriftExcept(old(world), world, id)
      ensures quiet ==> (r.Ok? <==> id in old(world).runners)
      ensures quiet ==> world == if r.Ok? then WithLabels(old(world), id, tags) else old(world)
      // A call that is not in the history did nothing.
      ensures Acts(log) == Acts(old(log)) ==> Drift(old(world), world)
    {
      hide Inv;
      Interfere();
      var before := Fate(quiet);
      if before.Some? {
        return Stop(before.value);
      }
      CallKeeps(world, log, Labelled(m, id, tags));
      log := Then(log, Labelled(m, id, tags), world);
      if id !in world.runners {
        return Stop(Raised);
      }
      ghost var w := world;
      var labels := Relabelled(world.runners[id].labels, tags);
      LabelsKeep(world, log, id, labels);
      world := world.(runners := world.runners[id := world.runners[id].(labels := labels)]);
      var after := Fate(quiet);
      return if after.Some? then Stop(after.value) else Ok(());
    }

    // ---- Host: local registration ----

    method LocalRegistration(m: Member) returns (r: Result<Option<nat>>)
      requires Valid()
      modifies this`world
      ensures Valid() && Drift(old(world), world) && (quiet ==> world == old(world))
      ensures r.Ok? ==> RegistrationOf(MarkersOf(world, m.id), m)
                        == (if r.value.Some? then Present(r.value.value) else Absent)
      ensures quiet ==> (r.Ok? <==> RegistrationOf(MarkersOf(old(world), m.id), m) != Ambiguous)
    {
      hide Inv;
      Interfere();
      var halt := Fate(quiet);
      if halt.Some? {
        return Stop(halt.value);
      }
      match RegistrationOf(MarkersOf(world, m.id), m)
      case Ambiguous => return Stop(Raised);
      case Absent => return Ok(None);
      case Present(id) => return Ok(Some(id));
    }

    /** config.sh, registering: it creates a key, the runner on GitHub, `.runner`
        and `.credentials` in this order and can end after any of them. */
    method Configure(m: Member) returns (r: Result<()>)
      requires Valid() && InPhase(world, m.id, Register) && Registrations(log, m.id) == 0
      requires Knows(world.pool.value.binding.members, m.id, m.name)
      requires MarkersOf(world, m.id) == NO_MARKERS && (ShortLists(log) ==> NoneOf(world, m.id))
      modifies this
      ensures Valid()
      ensures r.Ok? ==> world.pool == old(world).pool && FilesKeptBut(old(world), world, m.id)
      ensures Continues(old(log), log)
      ensures quiet || r.Ok? ==> Acts(log) == Acts(old(log)) + [Configured(m)]
      ensures quiet ==> JoinedOffline(old(world), world) && Aside(old(world), world, m)
      // A call that is not in the history did nothing.
      ensures Acts(log) == Acts(old(log)) ==> Drift(old(world), world)
    {
      hide Inv;
      Interfere();
      var before := Fate(quiet);
      if before.Some? {
        return Stop(before.value);
      }
      CallKeeps(world, log, Configured(m));
      log := Then(log, Configured(m), world);
      var stage: nat, id: nat := *, *;
      if stage == 0 {
        return Stop(Raised);
      }
      var created := Create(m, stage, id);
      var after := Fate(quiet);
      return if after.Some? then Stop(after.value) else if created then Ok(()) else Stop(Raised);
    }

    /** The steps of the registration that config.sh got to. */
    method Create(m: Member, stage: nat, id: nat) returns (created: bool)
      requires Valid() && InPhase(world, m.id, Register) && Knows(world.pool.value.binding.members, m.id, m.name)
      requires MarkersOf(world, m.id) == NO_MARKERS
      modifies this`world
      ensures Valid() && world.pool == old(world).pool && FilesKeptBut(old(world), world, m.id)
      ensures JoinedOffline(old(world), world) && Aside(old(world), world, m)
              && (created <==> MarkersOf(world, m.id).credentials)
    {
      hide Inv;
      ghost var w := world;
      var files := Markers(None, false, true);
      var runner := Runner(m.name, {Label(world.pool.value.binding.tag, true), Label(m.tag, true)}, false, false);
      if stage > 1 && id > 0 && id !in world.issued {
        if stage > 2 {
          files := files.(runner := Some(MarkerFile(id, m.name, true)), credentials := stage > 3);
        }
        world := world.(runners := world.runners[id := runner],
                        issued := world.issued[id := Issue(m.name, Some(m.id))]);
      }
      world := world.(markers := world.markers[m.id := files]);
      RegisteringKeeps(w, world, log, m, id, runner, files);
      ListedIsIssued(w, log);
      return files.credentials;
    }

    /** config.sh remove: it deletes the runner from GitHub, then the local files. */
    method Unconfigure(m: Member) returns (r: Result<()>)
      requires Valid() && InPhase(world, m.id, Remove) && Removals(log, m.id) == 0
      requires Dead(UnitOf(world, m.id))
      modifies this
      ensures Valid()
      ensures r.Ok? ==>
                Dead(UnitOf(world, m.id)) && world.pool == old(world).pool && FilesKeptBut(old(world), world, m.id)
      ensures Continues(old(log), log)
      ensures quiet || r.Ok? ==> Acts(log) == Acts(old(log)) + [Unconfigured(m)]
      ensures quiet && MarkersOf(old(world), m.id).runner.Some? ==>
                r.Ok? && world == Unregistered(old(world), m.id, MarkersOf(old(world), m.id).runner.value.agentId)
      // A call that is not in the history did nothing.
      ensures Acts(log) == Acts(old(log)) ==> Drift(old(world), world)
    {
      hide Inv;
      Interfere();
      var before := Fate(quiet);
      if before.Some? {
        return Stop(before.value);
      }
      ReservedIsDrained(world, log, m.id);
      CallKeeps(world, log, Unconfigured(m));
      log := Then(log, Unconfigured(m), world);
      var stage: nat := 4;
      if !quiet {
        stage := *;
      }
      if stage > 0 && MarkersOf(world, m.id).runner.Some? {
        UnlistKeeps(world, log, m.id);
        world := world.(runners := world.runners - {MarkersOf(world, m.id).runner.value.agentId});
      }
      var files := MarkersOf(world, m.id);
      var runner := if stage > 1 then None else files.runner;
      Delete(m, Markers(runner, files.credentials && stage <= 2, files.rsa && stage <= 3));
      var after := Fate(quiet);
      return if after.Some? then Stop(after.value) else if stage > 3 then Ok(()) else Stop(Raised);
    }

    /** config.sh remove --local: deletes local files only. */
    method Forget(m: Member) returns (r: Result<()>)
      requires Valid() && InPhase(world, m.id, Remove) && Dead(UnitOf(world, m.id))
      requires AttemptsIdleNow(log) && (ShortLists(log) ==> RunnerGone(world, m.id))
      modifies this
      ensures Valid()
      ensures r.Ok? ==> Dead(UnitOf(world, m.id)) && (ShortLists(log) ==> RunnerGone(world, m.id))
      ensures r.Ok? ==> world.pool == old(world).pool && FilesKeptBut(old(world), world, m.id)
      ensures Continues(old(log), log)
      ensures quiet || r.Ok? ==> Acts(log) == Acts(old(log)) + [Forgot(m)]
      ensures quiet ==> r.Ok? && world == old(world).(markers := old(world).markers[m.id := NO_MARKERS])
      // A call that is not in the history did nothing.
      ensures Acts(log) == Acts(old(log)) ==> Drift(old(world), world)
    {
      hide Inv;
      Interfere();
      var before := Fate(quiet);
      if before.Some? {
        return Stop(before.value);
      }
      ReservedIsDrained(world, log, m.id);
      CallKeeps(world, log, Forgot(m));
      log := Then(log, Forgot(m), world);
      var files := MarkersOf(world, m.id);
      var runner, credentials, rsa := false, false, false;
      if !quiet {
        runner, credentials, rsa := *, *, *;
      }
      Delete(m, Markers(if runner then files.runner else None, files.credentials && credentials, files.rsa && rsa));
      var after := Fate(quiet);
      return if after.Some? then Stop(after.value) else Ok(());
    }

    /** The member's files lose some of what they hold. */
    method Delete(m: Member, files: Markers)
      requires Valid() && Dead(UnitOf(world, m.id))
      requires files.runner.Some? ==> files.runner == MarkersOf(world, m.id).runner
      modifies this`world
      ensures Valid() && world == old(world).(markers := old(world).markers[m.id := files])
    {
      hide Inv;
      FilesKeep(world, log, m.id, files);
      world := world.(markers := world.markers[m.id := files]);
    }

    /** `Host.retire`: unit file and both trees. */
    method Retire(m: Member) returns (r: Result<()>)
      requires Valid() && InPhase(world, m.id, Remove) && Dead(UnitOf(world, m.id))
      requires ShortLists(log) ==> RunnerGone(world, m.id)
      requires !MetadataPresent(MarkersOf(world, m.id))
      modifies this
      ensures Valid()
      ensures r.Ok? ==> StoresDrift(old(world), world)
      ensures Continues(old(log), log)
      ensures quiet || r.Ok? ==> Acts(log) == Acts(old(log)) + [Retired(m)]
      ensures quiet ==> r.Ok? && world == old(world)
      // A call that is not in the history did nothing.
      ensures Acts(log) == Acts(old(log)) ==> Drift(old(world), world)
    {
      hide Inv;
      Interfere();
      var before := Fate(quiet);
      if before.Some? {
        return Stop(before.value);
      }
      ReservedIsDrained(world, log, m.id);
      CallKeeps(world, log, Retired(m));
      log := Then(log, Retired(m), world);
      var after := Fate(quiet);
      return if after.Some? then Stop(after.value) else Ok(());
    }

    // ---- Host: service ----

    method Service(m: Member) returns (r: Result<Unit>)
      requires Valid()
      modifies this`world
      ensures Valid() && Drift(old(world), world) && (quiet ==> world == old(world) && r.Ok?)
      ensures r.Ok? ==> r.value == UnitOf(world, m.id)
    {
      hide Inv;
      Interfere();
      var halt := Fate(quiet);
      return if halt.Some? then Stop(halt.value) else Ok(UnitOf(world, m.id));
    }

    /** `systemctl enable --now`. */
    method Start(m: Member) returns (r: Result<()>)
      requires Valid() && InPhase(world, m.id, Starting) && (Clean(log, m.name) ==> RunnerTagged(world, m))
      modifies this
      ensures Valid()
      ensures r.Ok? ==> StoresDrift(old(world), world)
      ensures Continues(old(log), log)
      ensures quiet || r.Ok? ==> Acts(log) == Acts(old(log)) + [Started(m)]
      ensures quiet ==>
                r.Ok? && world == if Terminal(UnitOf(old(world), m.id)) then Launched(old(world), m.id) else old(world)
      // A call that is not in the history did nothing.
      ensures Acts(log) == Acts(old(log)) ==> Drift(old(world), world)
    {
      hide Inv;
      Interfere();
      var before := Fate(quiet);
      if before.Some? {
        return Stop(before.value);
      }
      CallKeeps(world, log, Started(m));
      log := Then(log, Started(m), world);
      var u := UnitOf(world, m.id);
      if Terminal(u) {
        UnitKeeps(world, log, m.id, UpAgain(u));
        world := world.(units := world.units[m.id := UpAgain(u)]);
      }
      var after := Fate(quiet);
      return if after.Some? then Stop(after.value) else Ok(());
    }

    /** `systemctl freeze`. */
    method Freeze(m: Member) returns (r: Result<()>)
      requires Valid()
      modifies this
      ensures Valid()
      ensures r.Ok? ==> StoresDrift(old(world), world)
      ensures r.Ok? ==> UnitOf(world, m.id).stopping == UnitOf(old(world), m.id).stopping
      ensures forall k :: LeftFrozen(log, k) == (LeftFrozen(old(log), k) || (r.Ok? && k == m.id))
      ensures quiet ==> r.Ok? && world == WithUnit(old(world), m.id, UnitOf(old(world), m.id).(frozen := true))
      ensures Trusts(old(log), log)
      ensures quiet || r.Ok? ==> Acts(log) == Acts(old(log)) + [Freezing(m), Froze(m)]
      ensures AttemptsIdleNow(old(log)) ==> AttemptsIdleNow(log)
      // A call that is not in the history did nothing.
      ensures Acts(log) == Acts(old(log)) ==> Drift(old(world), world)
    {
      hide Inv;
      Interfere();
      var before := Fate(quiet);
      if before.Some? {
        return Stop(before.value);
      }
      CallKeeps(world, log, Freezing(m));
      log := Then(log, Freezing(m), world);
      NotStopping(world, log, m.id);
      SetUnit(m, UnitOf(world, m.id).(frozen := true));
      var after := Fate(quiet);
      if after.Some? {
        return Stop(after.value);
      }
      CallKeeps(world, log, Froze(m));
      log := Then(log, Froze(m), world);
      assert Trusts(log.before, log);
      return Ok(());
    }

    /** `removal_stopped`. */
    method Stopped(m: Member) returns (r: Result<bool>)
      requires Valid()
      modifies this`world
      ensures Valid() && (r.Ok? ==> Drift(old(world), world) && StoresDrift(old(world), world))
      ensures r.Ok? && r.value ==> Dead(UnitOf(world, m.id))
      ensures quiet ==> world == old(world) && r == Ok(RemovalStopped(UnitOf(world, m.id)))
      // Down, with no process known to systemd and none in the cgroup.
      ensures quiet ==>
                var u := UnitOf(old(world), m.id);
                r == Ok(u.active in {Inactive, Failed} && !u.main && !u.control && u.procs == {})
    {
      var u :- Service(m);
      return Ok(RemovalStopped(u));
    }

    /** `stopped` inside `stop_idle`: reads only, within one budget. */
    method AwaitStopped(m: Member, budget: nat) returns (r: Result<bool>)
      requires Valid()
      modifies this`world
      ensures Valid() && (r.Ok? ==> Drift(old(world), world) && StoresDrift(old(world), world))
      ensures r.Ok? && r.value ==> Dead(UnitOf(world, m.id))
      ensures quiet ==> world == old(world) && r == Ok(RemovalStopped(UnitOf(world, m.id)))
    {
      var remaining := budget;
      while true
        invariant Valid() && Drift(old(world), world) && (quiet ==> world == old(world))
        decreases remaining
      {
        ghost var w := world;
        var stopped :- Stopped(m);
        DriftTransitive(old(world), w, world);
        if stopped || remaining == 0 {
          return Ok(stopped);
        }
        remaining := remaining - 1;
      }
    }

    /** `systemctl kill --kill-whom=all --signal=SIGTERM`, on a unit proven idle and
        still frozen. */
    method Terminate(m: Member) returns (r: Result<()>)
      requires Valid() && InPhase(world, m.id, Draining) && (Clean(log, m.name) ==> RunnerDrained(world, m.id))
      requires IdleSinceFreeze(log, m.id) && AttemptsIdleNow(log)
      requires var u := UnitOf(world, m.id); u.frozen && !u.stopping && u.procs <= IDLE_PROCESSES
      modifies this
      ensures Valid()
      ensures r.Ok? ==> StoresDrift(old(world), world)
      ensures Continues(old(log), log)
      ensures quiet || r.Ok? ==> Acts(log) == Acts(old(log)) + [Terminated(m)]
      ensures quiet ==> r.Ok? && world == WithUnit(old(world), m.id, UnitOf(old(world), m.id).(signalled := true))
      // A call that is not in the history did nothing.
      ensures Acts(log) == Acts(old(log)) ==> Drift(old(world), world)
    {
      hide Inv;
      Interfere();
      var before := Fate(quiet);
      if before.Some? {
        return Stop(before.value);
      }
      if Clean(log, m.name) {
        DrainedMeansNoJob(world, log, m.id);
      }
      CallKeeps(world, log, Terminated(m));
      log := Then(log, Terminated(m), world);
      NotStopping(world, log, m.id);
      SetUnit(m, UnitOf(world, m.id).(signalled := true));
      var after := Fate(quiet);
      return if after.Some? then Stop(after.value) else Ok(());
    }

    /** `systemctl disable`, then `stop --no-block`. */
    method RequestStop(m: Member) returns (r: Result<()>)
      requires Valid()
      modifies this
      ensures Valid()
      ensures r.Ok? ==> StoresDrift(old(world), world)
      ensures Continues(old(log), log)
      ensures quiet || r.Ok? ==> Acts(log) == Acts(old(log)) + [StopRequested(m)]
      ensures quiet ==>
                && r.Ok?
                && var u := UnitOf(old(world), m.id);
                world == WithUnit(old(world), m.id, u.(stopping := true, active := if Terminal(u) then u.active
                                                                                  else Changing))
      // A call that is not in the history did nothing.
      ensures Acts(log) == Acts(old(log)) ==> Drift(old(world), world)
    {
      hide Inv;
      Interfere();
      var before := Fate(quiet);
      if before.Some? {
        return Stop(before.value);
      }
      CallKeeps(world, log, StopRequested(m));
      log := Then(log, StopRequested(m), world);
      var u := UnitOf(world, m.id);
      SetUnit(m, u.(stopping := true, active := if Terminal(u) then u.active else Changing));
      var after := Fate(quiet);
      return if after.Some? then Stop(after.value) else Ok(());
    }

    /** `remote_idle`: the read made while the unit is frozen. */
    method RemoteIdle(m: Member) returns (r: Result<bool>)
      requires Valid() && InPool(world, m)
      requires Clean(log, m.name) ==> RunnerUnlabelled(world, m.id)
      modifies this
      ensures Valid() && Drift(old(world), world) && Continues(old(log), log)
      ensures quiet ==> world == old(world) && (r.Ok? <==> |Named(world, m.name)| <= 1) && Acts(log) == Acts(old(log))
      ensures quiet ==> (r == Ok(true) <==> exists id :: Named(world, m.name) == {id} && !world.runners[id].busy)
      ensures quiet ==> r.Survived()
      ensures AttemptsIdleNow(old(log)) ==> AttemptsIdleNow(log)
      ensures r == Ok(true) ==> IdleSinceFreeze(log, m.id) && (Clean(log, m.name) ==> RunnerDrained(world, m.id))
    {
      hide Inv, Drift, RowStill, Covered;
      var observed := Observe(m);
      ReadContinues(old(log), log);
      if observed.Stop? {
        return Stop(observed.halt);
      }
      var remote := observed.value;
      ghost var read := log;
      DriftIsStoresDrift(old(world), world);
      var idle := remote.Some? && !remote.value.runner.busy;
      if idle && Clean(log, m.name) {
        IdleMeansDrained(old(world), world, log, m, remote.value);
      }
      CallKeeps(world, log, SawIdle(m, idle));
      log := Then(log, SawIdle(m, idle), world);
      assert Continues(read, log);
      return Ok(idle);
    }

    /** The body of the `try` in `stop_idle`. */
    method StopFrozen(m: Member) returns (r: Result<bool>)
      requires Valid() && InPhase(world, m.id, Draining) && InPool(world, m)
      requires !UnitOf(world, m.id).stopping && AttemptsIdleNow(log)
      requires Clean(log, m.name) ==> RunnerUnlabelled(world, m.id)
      modifies this
      ensures Valid()
      ensures r.Ok? ==> StoresDrift(old(world), world)
      ensures Continues(old(log), log)
      // On a quiet site an idle unit is signalled and its stop is queued, and no other one.
      ensures quiet ==> r.Survived()
      ensures quiet && UnitOf(old(world), m.id).frozen && !Terminal(UnitOf(old(world), m.id)) ==>
                && (r.Ok? <==> FreezeAnswers(old(world), m)) && (r.Ok? ==> r.value == old(Stoppable(world, m)))
                && world == (if old(Stoppable(world, m))
                             then WithUnit(old(world), m.id, Halted(UnitOf(old(world), m.id)).(frozen := true))
                             else old(world))
                && Acts(log)
                   == Acts(old(log)) + if old(Stoppable(world, m)) then [Terminated(m), StopRequested(m)] else []
    {
      hide Inv, RunnersDrift, RunnerUnlabelled, RunnerDrained, IsMember, Continues;
      SameHistory(log);
      var u :- Service(m);
      DriftIsStoresDrift(old(world), world);
      var grouped: bool := *;
      if !(grouped || quiet) || !u.frozen {
        return Stop(Raised);
      }
      if !(u.procs <= IDLE_PROCESSES) {
        return Ok(false);
      }
      UnlabelledStays(old(world), world, m.id);
      ghost var w := world;
      var idle :- RemoteIdle(m);
      DriftIsStoresDrift(w, world);
      StoresTwice(old(world), w, world);
      if !idle {
        return Ok(false);
      }
      ghost var looked := log;
      w := world;
      r := TerminateAndStop(m);
      ContinuesTwice(old(log), looked, log);
      if r.Ok? {
        StoresTwice(old(world), w, world);
      }
    }

    /** The signal, then the queued stop. */
    method TerminateAndStop(m: Member) returns (r: Result<bool>)
      requires Valid() && InPhase(world, m.id, Draining) && (Clean(log, m.name) ==> RunnerDrained(world, m.id))
      requires IdleSinceFreeze(log, m.id) && AttemptsIdleNow(log)
      requires var u := UnitOf(world, m.id); u.frozen && !u.stopping && u.procs <= IDLE_PROCESSES
      modifies this
      ensures Valid() && Continues(old(log), log) && (r.Ok? ==> r.value && StoresDrift(old(world), world))
      ensures (quiet ==> r.Ok?) && (r.Ok? ==> Acts(log) == Acts(old(log)) + [Terminated(m), StopRequested(m)])
      ensures quiet && !Terminal(UnitOf(old(world), m.id)) ==>
                world
                == WithUnit(old(world), m.id,
                     Halted(UnitOf(old(world), m.id)).(frozen := UnitOf(old(world), m.id).frozen))
    {
      hide Inv, RunnersDrift, Drift;
      var _ :- Terminate(m);
      ghost var w := world;
      var _ :- RequestStop(m);
      StoresTwice(old(world), w, world);
      return Ok(true);
    }

    /** The `finally` of `stop_idle` and what follows it. */
    method ThawAndAwait(m: Member, inner: Result<bool>, remaining: nat) returns (r: Result<bool>)
      requires Valid()
      modifies this
      ensures Valid()
      ensures r.Ok? ==> StoresDrift(old(world), world)
      ensures (r.Ok? && r.value ==> Dead(UnitOf(world, m.id))) && (inner.Stop? ==> r.Stop?)
      // A failed thaw is not passed over unless the unit is down.
      ensures r.Ok? ==> !UnitOf(world, m.id).frozen || Dead(UnitOf(world, m.id))
      ensures forall k :: LeftFrozen(log, k) == (k != m.id && LeftFrozen(old(log), k))
      ensures quiet && !Terminal(UnitOf(old(world), m.id)) ==> r == if inner.Ok? then Ok(false) else inner
      ensures quiet ==> world == WithUnit(old(world), m.id, UnitOf(old(world), m.id).(frozen := false))
      ensures quiet ==> Acts(log) == Acts(old(log)) + [Thawing(m)]
      ensures Trusts(old(log), log)
    {
      hide Inv, RunnersDrift;
      var thawed := Thaw(m);
      if thawed == Some(Died) {
        return Stop(Died);
      }
      ghost var w := world;
      if thawed.Some? {
        var stopped :- AwaitStopped(m, remaining);
        if !stopped {
          return Stop(Raised);
        }
        StoresTwice(old(world), w, world);
      }
      w := world;
      if inner.Stop? || !inner.value {
        return inner;
      }
      r := AwaitStopped(m, remaining);
      if r.Ok? {
        StoresTwice(old(world), w, world);
        ThawedStays(w, world, m.id);
      }
    }

    /** `systemctl thaw`: it may work and still be reported as failed. */
    method Thaw(m: Member) returns (halt: Option<Halt>)
      requires Valid()
      modifies this
      ensures Valid() && StoresDrift(old(world), world)
      ensures quiet ==> halt == None && world == WithUnit(old(world), m.id, UnitOf(old(world), m.id).(frozen := false))
      ensures Acts(log) == Acts(old(log)) + [Thawing(m)]
      ensures UnitOf(world, m.id) == UnitOf(old(world), m.id).(frozen := UnitOf(world, m.id).frozen)
      ensures halt.None? ==> !UnitOf(world, m.id).frozen
      ensures forall k :: LeftFrozen(log, k) == (k != m.id && LeftFrozen(old(log), k))
      ensures Trusts(old(log), log)
      // A call that is not in the history did nothing.
      ensures Acts(log) == Acts(old(log)) ==> Drift(old(world), world)
    {
      hide Inv;
      CallKeeps(world, log, Thawing(m));
      log := Then(log, Thawing(m), world);
      halt := Fate(quiet);
      var works: bool := *;
      if halt.None? || works {
        NotStopping(world, log, m.id);
        SetUnit(m, UnitOf(world, m.id).(frozen := false));
      }
    }

    /** `Host.stop_idle`. It answers true only once nothing of the unit is left. */
    method StopIdle(m: Member, budget: nat) returns (r: Result<bool>)
      requires Valid() && InPhase(world, m.id, Draining) && InPool(world, m) && AttemptsIdleNow(log)
      requires Clean(log, m.name) ==> RunnerUnlabelled(world, m.id)
      modifies this
      ensures Valid()
      ensures r.Ok? ==> StoresDrift(old(world), world)
      ensures r.Ok? && r.value ==> Dead(UnitOf(world, m.id))
      ensures r.Ok? ==> !UnitOf(world, m.id).frozen || Terminal(UnitOf(world, m.id))
      // A freeze that succeeded is followed by a thaw attempt unless the process died.
      ensures r.Survived() ==> forall k :: LeftFrozen(log, k) ==> LeftFrozen(old(log), k)
      // On a quiet site nothing exits, so only a unit that is down already is stopped by now.
      ensures quiet && Terminal(UnitOf(old(world), m.id)) ==> r == Ok(RemovalStopped(UnitOf(old(world), m.id)))
      ensures quiet && !Terminal(UnitOf(old(world), m.id)) ==>
                && (r.Ok? <==> UnitOf(old(world), m.id).active == Active && FreezeAnswers(old(world), m))
                && (r.Ok? ==> !r.value)
      // An active one is frozen, judged and thawed; an idle one is on its way down.
      ensures quiet ==> world == old(AfterStop(world, m)) && Acts(log) == Acts(old(log)) + old(StopActs(world, m))
      ensures Trusts(old(log), log)
    {
      hide Inv, Drift, StoresDrift, RunnersDrift, FreezeAnswers, RunnerUnlabelled, IsMember;
      var u :- Service(m);
      DriftIsStoresDrift(old(world), world);
      ghost var w := world;
      if Terminal(u) {
        r := Stopped(m);
        if r.Ok? {
          ThawedStays(w, world, m.id);
        }
      } else if u.active != Active {
        return Stop(Raised);
      } else {
        NotStopping(world, log, m.id);
        UnlabelledStays(old(world), world, m.id);
        r := StopActive(m, budget);
      }
      if r.Ok? {
        StoresTwice(old(world), w, world);
      }
    }

    /** Freeze, judge, thaw. */
    method StopActive(m: Member, budget: nat) returns (r: Result<bool>)
      requires Valid() && InPhase(world, m.id, Draining) && InPool(world, m) && AttemptsIdleNow(log)
      requires !UnitOf(world, m.id).stopping && (Clean(log, m.name) ==> RunnerUnlabelled(world, m.id))
      modifies this
      ensures Valid()
      ensures r.Ok? ==> StoresDrift(old(world), world)
      ensures r.Ok? && r.value ==> Dead(UnitOf(world, m.id))
      ensures r.Ok? ==> !UnitOf(world, m.id).frozen || Dead(UnitOf(world, m.id))
      ensures r.Survived() ==> forall k :: LeftFrozen(log, k) ==> LeftFrozen(old(log), k)
      ensures quiet && UnitOf(old(world), m.id).active == Active ==>
                && (r.Ok? <==> FreezeAnswers(old(world), m)) && (r.Ok? ==> !r.value)
                && world == old(AfterStop(world, m)) && Acts(log) == Acts(old(log)) + old(StopActs(world, m))
      ensures Trusts(old(log), log)
    {
      hide Inv, RunnersDrift, StoresDrift, Stoppable, FreezeAnswers, AfterStop, StopActs, Acts, WithUnit, Clean;
      if UnitOf(world, m.id).active == Active {
        StopInSteps(world, m, Acts(log));
      }
      var _ :- Freeze(m);
      DriftOfStores(old(world), world);
      UnlabelledStays(old(world), world, m.id);
      ghost var w := world;
      r := StopFrozen(m);
      if r.Ok? {
        StoresTwice(old(world), w, world);
      }
      w := world;
      if r.Survived() {
        r := ThawAndAwait(m, r, if r.Ok? && r.value then budget else 0);
        if r.Ok? {
          StoresTwice(old(world), w, world);
        }
      }
    }

    /** Replace one unit's control state without adding a process or a job. */
    method SetUnit(m: Member, u: Unit)
      requires Valid() && u.procs == UnitOf(world, m.id).procs && u.job == UnitOf(world, m.id).job
      requires u.stopping ==> u.active != Active
      modifies this`world
      ensures Valid() && world == old(world).(units := old(world).units[m.id := u])
    {
      hide Inv;
      UnitKeeps(world, log, m.id, u);
      world := world.(units := world.units[m.id := u]);
    }
  }

  lemma ListedIsIssued(w: World, log: Log)
    requires Inv(w, log)
    ensures forall r :: r in w.runners ==> r in w.issued
  {
  }

  lemma ThawedStays(w: World, w': World, id: string)
    requires Drift(w, w')
    ensures !UnitOf(w, id).frozen ==> !UnitOf(w', id).frozen
    ensures Dead(UnitOf(w, id)) ==> Dead(UnitOf(w', id))
    ensures Terminal(UnitOf(w, id)) ==> Terminal(UnitOf(w', id))
  {
    assert UnitDrift(UnitOf(w, id), UnitOf(w', id));
  }

  lemma ReservedIsDrained(w: World, log: Log, id: string)
    requires Inv(w, log) && InPhase(w, id, Remove)
    ensures CleanRemoval(log, w, id) ==> RunnerDrained(w, id)
  {
  }

  lemma NotStopping(w: World, log: Log, id: string)
    requires Inv(w, log)
    ensures UnitOf(w, id).active == Active ==> !UnitOf(w, id).stopping
  {
  }

  /** A listed runner the member owns carries the member's name. */
  lemma OwnRunnerNamed(w: World, log: Log, m: Member, r: nat)
    requires Inv(w, log) && w.pool.Some? && r in w.issued && w.issued[r].owner == Some(m.id)
    requires InPool(w, m)
    ensures w.issued[r] == Issue(m.name, Some(m.id))
    ensures r in w.runners ==> r in Named(w, m.name)
  {
    var members := w.pool.value.binding.members;
    assert Knows(members, m.id, w.issued[r].name);
    var i :| 0 <= i < |members| && members[i] == m;
    var j :| 0 <= j < |members| && members[j].id == m.id && members[j].name == w.issued[r].name;
    assert i == j;
  }

  lemma UnlabelledStays(w: World, w': World, id: string)
    requires w'.pool == w.pool && RunnersDrift(w, w')
    ensures RunnerUnlabelled(w, id) ==> RunnerUnlabelled(w', id)
    ensures RunnerDrained(w, id) ==> RunnerDrained(w', id)
  {
  }

  /** A member no job is assigned to runs none. */
  lemma DrainedMeansNoJob(w: World, log: Log, id: string)
    requires Inv(w, log) && RunnerDrained(w, id)
    ensures !UnitOf(w, id).job
  {
    assert RecordMatches(w, id, w.pool.value.members[id]);
  }

  /** A reading that covers the member and shows its row without labels and not busy. */
  lemma IdleMeansDrained(w: World, w': World, log: Log, m: Member, f: Found)
    requires Inv(w', log) && Drift(w, w') && InPool(w', m) && RunnerUnlabelled(w, m.id)
    requires Covered(w, w', m.name, Some(f)) && RowStill(w', f) && !f.runner.busy
    ensures RunnerDrained(w', m.id)
  {
    var r := w.pool.value.members[m.id].runnerId.value;
    assert RecordMatches(w', m.id, w'.pool.value.members[m.id]);
    OwnRunnerNamed(w', log, m, r);
  }

  /** Like RunnersDrift, but the labels of one runner may have been replaced. */
  ghost predicate RunnersDriftExcept(w: World, w': World, except: nat) {
    && (forall id :: id in w.issued ==> id in w'.issued && w'.issued[id] == w.issued[id])
    && (forall id :: id in w'.issued && id !in w.issued ==> w'.issued[id].owner == None)
    && (forall id :: id in w'.runners && id in w.issued ==>
          id in w.runners && (id != except ==> w'.runners[id].labels == w.runners[id].labels))
  }
}
