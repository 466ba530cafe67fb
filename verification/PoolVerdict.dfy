/** Exactly when a reading of GitHub's list can call a busy member idle.

    Draining asks GitHub whether the member's runner is idle, and takes the one row it finds
    under the member's name for the answer. The list goes on changing between the requests of
    one reading. */
module PoolVerdict {
  import opened PoolModel
  import opened PoolSite
  import PoolPages

  /** Between two requests the environment runs. */
  ghost predicate Follows(worlds: nat -> World, n: nat) {
    forall p: nat :: 1 <= p < n ==> Leads(worlds(p), worlds(p + 1))
  }

  ghost predicate Leads(w: World, w': World) {
    exists events: seq<EnvEvent> :: w' == Outcome(w, events)
  }

  /** A reading of n pages that `pages` accepts: the p-th request saw the list of the p-th world. */
  ghost predicate Accepted(worlds: nat -> World, server: nat -> seq<Found>, n: nat) {
    && PoolPages.EndsAt(server, n) && |PoolPages.Collected(server, n)| == |server(n)| && Follows(worlds, n)
    && forall p: nat :: 1 <= p <= n ==> Lists(worlds(p), server(p))
  }

  /** At no request two listed runners bear the name. */
  ghost predicate Unshared(worlds: nat -> World, n: nat, name: string) {
    forall p: nat :: 1 <= p <= n ==> |Named(worlds(p), name)| <= 1
  }

  /** The reading finds one row under the name, without labels and not busy. */
  ghost predicate FindsIdle(server: nat -> seq<Found>, n: nat, name: string) {
    var matches := Matching(PoolPages.Collected(server, n), name);
    |matches| == 1 && Unlabelled(matches[0].runner.labels) && !matches[0].runner.busy
  }

  /** However the list goes on changing after the first request saw this world, a reading that
      finds the runner idle is right about it. `shared`: others may bear its name. */
  ghost predicate JudgesRight(w: World, own: nat, shared: bool)
    requires own in w.runners
  {
    forall worlds: nat -> World, server: nat -> seq<Found>, n: nat ::
      && Accepted(worlds, server, n) && worlds(1) == w && (shared || Unshared(worlds, n, w.runners[own].name))
      && FindsIdle(server, n, w.runners[own].name) ==>
        StillIdle(worlds(n), own)
  }

  predicate StillIdle(w: World, own: nat) {
    own in w.runners ==> Unlabelled(w.runners[own].labels) && !w.runners[own].busy
  }

  // ---- When it is right ----

  lemma {:induction false} RequestsDrift(worlds: nat -> World, n: nat, p: nat, q: nat)
    requires Follows(worlds, n) && WorldOk(worlds(1)) && 1 <= p <= q <= n
    ensures WorldOk(worlds(q)) && Drift(worlds(p), worlds(q))
    decreases q
  {
    hide WorldOk, Drift, Outcome;
    if q == 1 {
      NothingHappened(worlds(1));
    } else {
      RequestsDrift(worlds, n, if p < q then p else q - 1, q - 1);
      assert worlds(q - 1 + 1) == worlds(q) && Leads(worlds(q - 1), worlds(q));
      var events :| worlds(q) == Outcome(worlds(q - 1), events);
      EveryRunDrifts(worlds(q - 1), events);
      NothingHappened(worlds(q));
      if p < q {
        DriftTransitive(worlds(p), worlds(q - 1), worlds(q));
      }
    }
  }

  lemma IdleStays(w: World, w': World, own: nat)
    requires Drift(w, w') && own in w.issued && StillIdle(w, own)
    ensures StillIdle(w', own)
  {
  }

  lemma IssuedStays(w: World, w': World, id: nat)
    requires Drift(w, w') && id in w.issued
    ensures id in w'.issued && (id in w'.runners ==> id in w.runners && w'.runners[id].labels == w.runners[id].labels)
  {
  }

  lemma ListedIssued(w: World, id: nat)
    requires WorldOk(w) && id in w.runners
    ensures id in w.issued && w.runners[id].name == w.issued[id].name
  {
  }

  /** One row, found, and it is the runner's own: what it showed still holds. */
  lemma OwnRowRight(worlds: nat -> World, server: nat -> seq<Found>, n: nat, p: nat, own: nat, f: Found)
    requires Accepted(worlds, server, n) && WorldOk(worlds(1)) && 1 <= p <= n && own in worlds(1).runners
    requires f in server(p) && f.id == own && Unlabelled(f.runner.labels) && !f.runner.busy
    ensures StillIdle(worlds(n), own)
  {
    hide WorldOk, Drift, OnceEach, HasRow, Follows;
    ListedIssued(worlds(1), own);
    RequestsDrift(worlds, n, 1, p);
    IssuedStays(worlds(1), worlds(p), own);
    RequestsDrift(worlds, n, p, n);
    assert Lists(worlds(p), server(p));
    IdleStays(worlds(p), worlds(n), own);
  }

  lemma ShortListJudgesRight(worlds: nat -> World, server: nat -> seq<Found>, n: nat, own: nat)
    requires Accepted(worlds, server, n) && WorldOk(worlds(1)) && own in worlds(1).runners
    requires |worlds(1).runners| <= PoolPages.PAGE && FindsIdle(server, n, worlds(1).runners[own].name)
    ensures StillIdle(worlds(n), own)
  {
    hide WorldOk, Drift, OnceEach, Follows, Lists, Matching, PoolPages.Collected;
    var f := RowOf(worlds(1), server(1), own);
    AsMany(worlds(1), server(1));
    PoolPages.FirstPageStays(server, n);
    assert PoolPages.PageOf(server(1), 1) == server(1);
    var matches := Matching(PoolPages.Collected(server, n), f.runner.name);
    assert f in matches && matches == [matches[0]];
    OwnRowRight(worlds, server, n, 1, own, f);
  }

  lemma RowOf(w: World, rows: seq<Found>, own: nat) returns (f: Found)
    requires Lists(w, rows) && own in w.runners
    ensures f in rows && f == Found(own, w.runners[own])
  {
    assert HasRow(rows, own);
    f :| f in rows && f.id == own;
  }

  lemma UnsharedJudgesRight(worlds: nat -> World, server: nat -> seq<Found>, n: nat, own: nat)
    requires Accepted(worlds, server, n) && WorldOk(worlds(1)) && own in worlds(1).runners
    requires Unshared(worlds, n, worlds(1).runners[own].name) && FindsIdle(server, n, worlds(1).runners[own].name)
    ensures StillIdle(worlds(n), own)
  {
    hide WorldOk, Drift, OnceEach, HasRow, Follows, Matching, PoolPages.EndsAt, PoolPages.Collected;
    var name := worlds(1).runners[own].name;
    var f := Matching(PoolPages.Collected(server, n), name)[0];
    assert f in Matching(PoolPages.Collected(server, n), name);
    var p := PoolPages.RequestOf(server, n, f);
    assert Lists(worlds(p), server(p)) && f.id in Named(worlds(p), name);
    if own in worlds(n).runners {
      NamedThroughout(worlds, n, p, own);
      OnlyOne(worlds(p), name, f.id);
      OwnRowRight(worlds, server, n, p, own, f);
    }
  }

  lemma NamedThroughout(worlds: nat -> World, n: nat, p: nat, own: nat)
    requires Follows(worlds, n) && WorldOk(worlds(1)) && 1 <= p <= n
    requires own in worlds(1).runners && own in worlds(n).runners
    ensures own in Named(worlds(p), worlds(1).runners[own].name)
  {
    hide Drift, Follows, WorldOk;
    ListedIssued(worlds(1), own);
    RequestsDrift(worlds, n, 1, p);
    RequestsDrift(worlds, n, p, n);
    SameName(worlds(1), worlds(p), own);
    IssuedStays(worlds(p), worlds(n), own);
    SameName(worlds(1), worlds(p), own);
  }

  lemma SameName(w: World, w': World, own: nat)
    requires WorldOk(w) && WorldOk(w') && Drift(w, w') && own in w.runners
    ensures own in w'.issued && (own in w'.runners ==> w'.runners[own].name == w.runners[own].name)
  {
  }

  // ---- When it is wrong ----

  /** Somebody else's runner with the wanted name, without labels and without a job. */
  function Fake(name: string): Runner {
    Runner(name, {}, false, true)
  }

  /** An idle runner leaves and a namesake joins. */
  function Changes(idle: nat, joins: nat, name: string): seq<EnvEvent> {
    [Withdraw(idle), Foreign(joins, Fake(name))]
  }

  lemma ChangesHappen(w: World, own: nat, idle: nat, joins: nat)
    requires own in w.runners && idle in w.runners && idle != own && !w.runners[idle].busy && joins !in w.issued
    requires WorldOk(w)
    ensures var name := w.runners[own].name;
            Outcome(w, Changes(idle, joins, name)).runners == (w.runners - {idle})[joins := Fake(name)]
  {
    var name := w.runners[own].name;
    var w1 := Happen(w, Withdraw(idle));
    assert Changes(idle, joins, name)[1..] == [Foreign(joins, Fake(name))];
    var w2 := Happen(w1, Foreign(joins, Fake(name)));
    assert Outcome(w2, []) == w2;
    assert [Foreign(joins, Fake(name))][1..] == [];
    assert Outcome(w1, [Foreign(joins, Fake(name))]) == w2;
  }

  /** The rows in an order that puts one runner first and another one right after a page. */
  lemma Arranged(w: World, rows: seq<Found>, idle: nat, own: nat) returns (list: seq<Found>)
    requires Lists(w, rows) && |rows| > PoolPages.PAGE && idle in w.runners && own in w.runners && idle != own
    ensures Lists(w, list) && list[0].id == idle && list[PoolPages.PAGE].id == own
  {
    assert HasRow(rows, idle) && HasRow(rows, own);
    var i :| 0 <= i < |rows| && rows[i].id == idle;
    var first := Swapped(rows, 0, i);
    SwapLists(w, rows, 0, i);
    assert HasRow(first, own);
    var k :| 0 <= k < |first| && first[k].id == own;
    list := Swapped(first, PoolPages.PAGE, k);
    SwapLists(w, first, PoolPages.PAGE, k);
  }

  function Swapped(rows: seq<Found>, i: nat, k: nat): (list: seq<Found>)
    requires i < |rows| && k < |rows|
  {
    rows[i := rows[k]][k := rows[i]]
  }

  lemma SwapLists(w: World, rows: seq<Found>, i: nat, k: nat)
    requires Lists(w, rows) && i < |rows| && k < |rows|
    ensures Lists(w, Swapped(rows, i, k))
  {
    hide HasRow;
    var list := Swapped(rows, i, k);
    forall j | 0 <= j < |list|
      ensures list[j] == rows[Other(i, k, j)] && list[j] in rows
    {
    }
    forall id | id in w.runners
      ensures HasRow(list, id)
    {
      SwappedHas(rows, i, k, RowAt(w, rows, id));
    }
  }

  function Other(i: nat, k: nat, j: nat): nat {
    if j == i then k else if j == k then i else j
  }

  lemma SwappedHas(rows: seq<Found>, i: nat, k: nat, j: nat)
    requires i < |rows| && k < |rows| && j < |rows|
    ensures HasRow(Swapped(rows, i, k), rows[j].id)
  {
    assert Swapped(rows, i, k)[Other(i, k, j)].id == rows[j].id;
  }

  /** The list after the changes: the first row is gone, the namesake is the last. */
  lemma ChangedLists(w: World, w': World, list: seq<Found>, joins: nat, runner: Runner)
    requires Lists(w, list) && list != [] && joins !in w.runners
    requires w'.runners == (w.runners - {list[0].id})[joins := runner]
    ensures Lists(w', PoolPages.Moved(list, [Found(joins, runner)]))
  {
    hide HasRow;
    var list' := PoolPages.Moved(list, [Found(joins, runner)]);
    assert w'.runners.Keys == w.runners.Keys - {list[0].id} + {joins};
    assert |w.runners.Keys - {list[0].id}| == |w.runners.Keys| - 1;
    forall k | 0 <= k < |list'|
      ensures list'[k].id in w'.runners && list'[k].runner == w'.runners[list'[k].id]
      ensures list'[k] == if k < |list| - 1 then list[k + 1] else Found(joins, runner)
    {
      assert k < |list| - 1 ==> list[k + 1] in list;
    }
    forall id | id in w'.runners
      ensures HasRow(list', id)
    {
      RowMoves(list, Found(joins, runner), id, if id == joins then 0 else RowAt(w, list, id));
    }
  }

  ghost function RowAt(w: World, list: seq<Found>, id: nat): (k: nat)
    requires Lists(w, list) && id in w.runners
    ensures k < |list| && list[k].id == id
  {
    assert HasRow(list, id);
    var k :| 0 <= k < |list| && list[k].id == id;
    k
  }

  lemma RowMoves(list: seq<Found>, last: Found, id: nat, k: nat)
    requires k < |list| && (id == last.id || (k > 0 && list[k].id == id))
    ensures HasRow(PoolPages.Moved(list, [last]), id)
  {
    var list' := PoolPages.Moved(list, [last]);
    assert list'[if id == last.id then |list| - 1 else k - 1].id == id;
  }

  /** The rows that were collected: only the last one bears the name. */
  lemma OnlyTheFake(w: World, list: seq<Found>, own: nat, fake: Found)
    requires Lists(w, list) && |list| > PoolPages.PAGE && list[PoolPages.PAGE].id == own
    requires Named(w, fake.runner.name) == {own}
    ensures Matching(list[..PoolPages.PAGE] + PoolPages.Moved(list, [fake])[PoolPages.PAGE..], fake.runner.name)
            == [fake]
  {
    var rows := list[..PoolPages.PAGE] + PoolPages.Moved(list, [fake])[PoolPages.PAGE..];
    hide Matching, HasRow;
    forall k | 0 <= k < |rows| - 1
      ensures rows[k].runner.name != fake.runner.name
    {
      var j := if k < PoolPages.PAGE then k else k + 1;
      assert rows[k] == list[j] && list[j].id != own;
      assert list[j] in list && list[j].id in w.runners && list[j].id !in Named(w, fake.runner.name);
    }
    MatchingLast(rows, fake.runner.name);
  }

  lemma {:induction false} MatchingLast(rows: seq<Found>, name: string)
    requires rows != [] && rows[|rows| - 1].runner.name == name
    requires forall k :: 0 <= k < |rows| - 1 ==> rows[k].runner.name != name
    ensures Matching(rows, name) == [rows[|rows| - 1]]
  {
    if |rows| > 1 {
      MatchingLast(rows[1..], name);
    }
  }

  /** The failing input, for every list of more than one page: an idle runner leaves after the
      first request, so that the busy one moves up to the page already read, and a namesake
      joins at the end. The reading is accepted and finds only the namesake. */
  lemma BusyReadAsIdle(w: World, rows: seq<Found>, own: nat, idle: nat, joins: nat)
      returns (worlds: nat -> World, server: nat -> seq<Found>, n: nat)
    requires WorldOk(w) && Lists(w, rows) && |w.runners| > PoolPages.PAGE
    requires own in w.runners && w.runners[own].busy && Named(w, w.runners[own].name) == {own}
    requires idle in w.runners && !w.runners[idle].busy && joins !in w.issued
    ensures Accepted(worlds, server, n) && worlds(1) == w && FindsIdle(server, n, w.runners[own].name)
    ensures own in worlds(n).runners && worlds(n).runners[own].busy
  {
    hide Lists, OnceEach, HasRow, Matching, Outcome, PoolPages.Moved, PoolPages.Collected, PoolPages.EndsAt;
    var name := w.runners[own].name;
    var fake := Found(joins, Fake(name));
    var events := Changes(idle, joins, name);
    var w' := Outcome(w, events);
    AsMany(w, rows);
    ChangesHappen(w, own, idle, joins);
    var list := Arranged(w, rows, idle, own);
    AsMany(w, list);
    ChangedLists(w, w', list, joins, Fake(name));
    PoolPages.MovingEnds(list, [fake]);
    OnlyTheFake(w, list, own, fake);
    worlds := p => if p <= 1 then w else w';
    server, n := PoolPages.Moving(list, [fake]), |list| / PoolPages.PAGE + 1;
    ThenStays(w, events);
    assert Follows(worlds, n);
  }

  /** The environment may also rest. */
  lemma ThenStays(w: World, events: seq<EnvEvent>)
    ensures Leads(w, Outcome(w, events)) && Leads(Outcome(w, events), Outcome(w, events))
  {
    var w' := Outcome(w, events);
    assert Outcome(w', []) == w';
  }

  /** A busy runner is never called idle if and only if the first request sees at most one page
      of runners or nobody else may bear its name. */
  lemma JudgesRightExactlyWhen(w: World, rows: seq<Found>, own: nat, idle: nat, joins: nat, shared: bool)
    requires WorldOk(w) && Lists(w, rows)
    requires own in w.runners && w.runners[own].busy && Named(w, w.runners[own].name) == {own}
    requires idle in w.runners && !w.runners[idle].busy && joins !in w.issued
    ensures JudgesRight(w, own, shared) <==> |w.runners| <= PoolPages.PAGE || !shared
  {
    hide Lists, Accepted, FindsIdle, Unshared, WorldOk, Named;
    if |w.runners| <= PoolPages.PAGE || !shared {
      forall worlds: nat -> World, server: nat -> seq<Found>, n: nat |
        && Accepted(worlds, server, n) && worlds(1) == w && (shared || Unshared(worlds, n, w.runners[own].name))
        && FindsIdle(server, n, w.runners[own].name)
        ensures StillIdle(worlds(n), own)
      {
        if |w.runners| <= PoolPages.PAGE {
          ShortListJudgesRight(worlds, server, n, own);
        } else {
          UnsharedJudgesRight(worlds, server, n, own);
        }
      }
    } else {
      var worlds, server, n := BusyReadAsIdle(w, rows, own, idle, joins);
    }
  }
}
