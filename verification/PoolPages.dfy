/** Reading GitHub's runner list page by page (`GitHub.pages`, deploy/managed_pool.py).
    The list can change between two requests; the reader only checks the count the
    last page reports. */
module PoolPages {
  import opened Effects

  const PAGE := 100

  /** The rows of one page of a list; pages count from 1. */
  function PageOf<T>(list: seq<T>, page: nat): (rows: seq<T>)
    requires page >= 1
    ensures |rows| <= PAGE
  {
    var from := (page - 1) * PAGE;
    if from >= |list| then [] else if from + PAGE <= |list| then list[from..from + PAGE] else list[from..]
  }

  /** What n requests collect when the p-th one sees the list `server(p)`. */
  function Collected<T>(server: nat -> seq<T>, n: nat): seq<T> {
    if n == 0 then [] else Collected(server, n - 1) + PageOf(server(n), n)
  }

  /** The n-th request is the first to see a short page. */
  ghost predicate EndsAt<T>(server: nat -> seq<T>, n: nat) {
    n >= 1 && |PageOf(server(n), n)| < PAGE && forall p :: 1 <= p < n ==> |PageOf(server(p), p)| == PAGE
  }

  /** `pages`, within a number of requests: None where the source raises or goes on. */
  method Pages<T>(server: nat -> seq<T>, budget: nat) returns (r: Option<seq<T>>)
    ensures r.Some? <==> exists n: nat :: n <= budget && EndsAt(server, n) && |Collected(server, n)| == |server(n)|
    ensures r.Some? ==>
              exists n: nat ::
                n <= budget && EndsAt(server, n) && r.value == Collected(server, n) && |r.value| == |server(n)|
  {
    var values: seq<T> := [];
    for page := 1 to budget + 1
      invariant values == Collected(server, page - 1)
      invariant forall p :: 1 <= p < page ==> |PageOf(server(p), p)| == PAGE
    {
      var rows := PageOf(server(page), page);
      values := values + rows;
      if |rows| < PAGE {
        assert EndsAt(server, page);
        assert forall n :: EndsAt(server, n) ==> n == page;
        return if |values| == |server(page)| then Some(values) else None;
      }
    }
    return None;
  }

  /** A server whose list does not change. */
  function Constant<T>(list: seq<T>): nat -> seq<T> {
    _ => list
  }

  /** As long as every request sees the same list, the result is that list. */
  lemma {:induction false} SteadyListIsWhole<T>(list: seq<T>, n: nat)
    ensures Collected(Constant(list), n) == if n * PAGE <= |list| then list[..n * PAGE] else list
  {
    if n > 0 {
      SteadyListIsWhole(list, n - 1);
      var from := (n - 1) * PAGE;
      assert Constant(list)(n) == list;
      if from + PAGE <= |list| {
        assert list[..from] + list[from..from + PAGE] == list[..from + PAGE];
      } else if from <= |list| {
        assert list[..from] + list[from..] == list;
      }
    }
  }

  lemma SteadyPages<T>(list: seq<T>, n: nat)
    requires EndsAt(Constant(list), n)
    ensures Collected(Constant(list), n) == list
  {
    SteadyListIsWhole(list, n);
    assert Constant(list)(n) == list;
  }

  /** More exactly: the result is the list the last request saw if and only if every
      page read was already the page that list has. */
  lemma {:induction false} WholeExactlyWhen<T>(server: nat -> seq<T>, n: nat)
    requires EndsAt(server, n)
    ensures Collected(server, n) == server(n)
            <==> forall p :: 1 <= p <= n ==> PageOf(server(p), p) == PageOf(server(n), p)
  {
    var list := server(n);
    if forall p :: 1 <= p <= n ==> PageOf(server(p), p) == PageOf(list, p) {
      SamePages(server, list, n);
      SteadyListIsWhole(list, n);
    }
    if Collected(server, n) == list {
      forall p | 1 <= p <= n
        ensures PageOf(server(p), p) == PageOf(list, p)
      {
        PageAt(server, n, p);
      }
    }
  }

  lemma {:induction false} SamePages<T>(server: nat -> seq<T>, list: seq<T>, n: nat)
    requires forall p :: 1 <= p <= n ==> PageOf(server(p), p) == PageOf(list, p)
    ensures Collected(server, n) == Collected(Constant(list), n)
  {
    if n > 0 {
      SamePages(server, list, n - 1);
      assert Constant(list)(n) == list;
    }
  }

  lemma PageOfPrefix<T>(a: seq<T>, b: seq<T>, p: nat)
    requires 1 <= p && p * PAGE <= |a|
    ensures PageOf(a + b, p) == PageOf(a, p)
  {
  }

  lemma LastPage<T>(a: seq<T>, rows: seq<T>, n: nat)
    requires n >= 1 && |a| == (n - 1) * PAGE && |rows| <= PAGE
    ensures PageOf(a + rows, n) == rows
  {
  }

  /** Page p of what was collected is what request p saw. */
  lemma {:induction false} PageAt<T>(server: nat -> seq<T>, n: nat, p: nat)
    requires 1 <= p <= n && forall k :: 1 <= k < n ==> |PageOf(server(k), k)| == PAGE
    ensures |Collected(server, n)| == (n - 1) * PAGE + |PageOf(server(n), n)|
    ensures PageOf(Collected(server, n), p) == PageOf(server(p), p)
    decreases n
  {
    hide PageOf;
    if n == 1 {
      LastPage([], PageOf(server(1), 1), 1);
      assert Collected(server, 1) == [] + PageOf(server(1), 1);
    } else {
      PageAt(server, n - 1, if p < n then p else 1);
      if p < n {
        PageOfPrefix(Collected(server, n - 1), PageOf(server(n), n), p);
      } else {
        LastPage(Collected(server, n - 1), PageOf(server(n), n), n);
      }
    }
  }

  /** The count check is not enough: here runner 100 is listed throughout, one runner
      leaves and one joins between the two requests, and the result, accepted, lacks it. */
  lemma CanMissARunner()
    ensures var before, after_ := seq(101, i => i), seq(101, i => i + 1);
            var server := (p: nat) => if p <= 1 then before else after_;
            && 100 in before && 100 in after_
            && EndsAt(server, 2) && |Collected(server, 2)| == |server(2)| && 100 !in Collected(server, 2)
  {
    var before, after_ := seq(101, i => i), seq(101, i => i + 1);
    var server := (p: nat) => if p <= 1 then before else after_;
    assert before[100] == 100 && after_[99] == 100;
    assert PageOf(before, 1) == before[..100] && PageOf(after_, 2) == [101];
    assert Collected(server, 0) == [];
    assert Collected(server, 1) == before[..100];
    assert Collected(server, 2) == before[..100] + [101];
  }

  // ---- Exactly when nobody is missed ----

  ghost predicate Distinct(list: seq<nat>) {
    forall i, k :: 0 <= i < k < |list| ==> list[i] != list[k]
  }

  /** An accepted reading of n pages that began with the list `first`; no answer names a
      runner twice. */
  ghost predicate Accepted(server: nat -> seq<nat>, n: nat, first: seq<nat>) {
    && EndsAt(server, n) && |Collected(server, n)| == |server(n)| && server(1) == first
    && forall p :: 1 <= p <= n ==> Distinct(server(p))
  }

  /** The runner was listed at every request. */
  ghost predicate Throughout(server: nat -> seq<nat>, n: nat, id: nat) {
    forall p :: 1 <= p <= n ==> id in server(p)
  }

  /** However the list goes on changing after the first request, an accepted reading has
      every runner that was listed at every request. */
  ghost predicate MissesNobody(first: seq<nat>) {
    forall server: nat -> seq<nat>, n: nat, id: nat ::
      Accepted(server, n, first) && Throughout(server, n, id) ==> id in Collected(server, n)
  }

  /** Nobody is missed if and only if the first request sees at most one page of runners. */
  lemma MissesNobodyExactlyWhen(first: seq<nat>)
    requires Distinct(first)
    ensures MissesNobody(first) <==> |first| <= PAGE
  {
    if |first| <= PAGE {
      forall server: nat -> seq<nat>, n: nat, id: nat | Accepted(server, n, first) && Throughout(server, n, id)
        ensures id in Collected(server, n)
      {
        FirstPageStays(server, n);
        assert PageOf(server(1), 1) == first && id in server(1);
      }
    } else {
      Overtaken(first, PAGE);
      assert !(first[PAGE] in Collected(Moving(first, Joining(first, 1)), |first| / PAGE + 1));
    }
  }

  lemma {:induction false} FirstPageStays<T>(server: nat -> seq<T>, n: nat)
    requires n >= 1
    ensures PageOf(server(1), 1) <= Collected(server, n)
  {
    if n == 1 {
      assert Collected(server, 1) == [] + PageOf(server(1), 1);
    } else {
      FirstPageStays(server, n - 1);
    }
  }

  /** A number above all of a list. */
  function Fresh(list: seq<nat>): (id: nat)
    ensures forall x <- list :: x < id
  {
    if list == [] then 0
    else
      var last, rest := list[|list| - 1], list[..|list| - 1];
      assert list == rest + [last];
      if last >= Fresh(rest) then last + 1 else Fresh(rest)
  }

  /** New runners. */
  function Joining(first: seq<nat>, d: nat): (ids: seq<nat>)
    ensures |ids| == d && Distinct(ids) && forall id <- ids :: id !in first
    ensures forall k :: 0 <= k < d ==> ids[k] == Fresh(first) + k
  {
    if d == 0 then [] else Joining(first, d - 1) + [Fresh(first) + d - 1]
  }

  /** After the first request as many rows at the front leave as join at the end. */
  function Moved<T>(first: seq<T>, joining: seq<T>): (list: seq<T>)
    requires |joining| <= |first|
    ensures |list| == |first|
  {
    first[|joining|..] + joining
  }

  function Moving<T>(first: seq<T>, joining: seq<T>): (server: nat -> seq<T>)
    requires |joining| <= |first|
    ensures forall p: nat :: server(p) == if p <= 1 then first else Moved(first, joining)
  {
    p => if p <= 1 then first else Moved(first, joining)
  }

  /** The number of rows on the first k pages of a list. */
  function UpTo(rows: nat, k: nat): (n: nat)
    ensures n <= rows && (rows > PAGE && k >= 1 ==> n >= PAGE) && (k * PAGE >= rows ==> n == rows)
  {
    if k * PAGE <= rows then k * PAGE else rows
  }

  lemma NextPage<T>(list: seq<T>, k: nat)
    requires |list| > PAGE && k >= 2
    ensures list[PAGE..UpTo(|list|, k - 1)] + PageOf(list, k) == list[PAGE..UpTo(|list|, k)]
  {
  }

  lemma FirstPage<T>(list: seq<T>)
    requires |list| > PAGE
    ensures PageOf(list, 1) == list[..PAGE] && UpTo(|list|, 1) == PAGE
  {
  }

  lemma Regroup<T>(a: seq<T>, b: seq<T>, c: seq<T>)
    ensures a + b + c == a + (b + c) && a + [] == a && [] + a == a
  {
  }

  /** What the reading collects of it: the first page of the old list, the rest of the new. */
  lemma {:induction false} MovingCollects<T>(first: seq<T>, joining: seq<T>, k: nat)
    requires |first| > PAGE && |joining| <= |first| && k >= 1
    ensures Collected(Moving(first, joining), k) == first[..PAGE] + Moved(first, joining)[PAGE..UpTo(|first|, k)]
  {
    hide PageOf, UpTo, Moved;
    var list, server := Moved(first, joining), Moving(first, joining);
    if k == 1 {
      FirstPage(first);
      assert Collected(server, 0) == [] && list[PAGE..PAGE] == [];
      Regroup(first[..PAGE], [], []);
      assert Collected(server, 1) == [] + PageOf(server(1), 1);
    } else {
      MovingCollects(first, joining, k - 1);
      FirstPage(first);
      NextPage(list, k);
      Regroup(first[..PAGE], list[PAGE..UpTo(|list|, k - 1)], PageOf(list, k));
      assert server(k) == list;
    }
  }

  /** The reading ends, and its count is right. */
  lemma MovingEnds<T>(first: seq<T>, joining: seq<T>)
    requires |first| > PAGE && |joining| <= |first|
    ensures var server, n := Moving(first, joining), |first| / PAGE + 1;
            && EndsAt(server, n) && n >= 2 && server(n) == Moved(first, joining)
            && Collected(server, n) == first[..PAGE] + Moved(first, joining)[PAGE..]
            && |Collected(server, n)| == |server(n)|
  {
    hide Moved, Collected;
    var server, n := Moving(first, joining), |first| / PAGE + 1;
    forall p: nat | 1 <= p <= n
      ensures |PageOf(server(p), p)| == if p < n then PAGE else |first| - (n - 1) * PAGE
    {
    }
    MovingCollects(first, joining, n);
  }

  lemma MovedIsDistinct(first: seq<nat>, d: nat)
    requires Distinct(first) && d <= |first|
    ensures var list := Moved(first, Joining(first, d));
            && Distinct(list) && (forall k :: 0 <= k < |first| - d ==> list[k] == first[k + d])
            && forall k :: |first| - d <= k < |first| ==> list[k] == Joining(first, d)[k - (|first| - d)]
  {
    hide Joining;
    var joining := Joining(first, d);
    var list, m := Moved(first, joining), |first| - d;
    forall i, k | 0 <= i < k < |list|
      ensures list[i] != list[k]
    {
      if k < m {
        assert list[i] == first[i + d] && list[k] == first[k + d];
      } else if i < m {
        assert list[i] == first[i + d] && list[k] == joining[k - m] && first[i + d] in first;
      } else {
        assert list[i] == joining[i - m] && list[k] == joining[k - m];
      }
    }
  }

  lemma DifferentRows(list: seq<nat>, i: nat, k: nat)
    requires Distinct(list) && i < |list| && k < |list| && i != k
    ensures list[i] != list[k]
  {
  }

  lemma Overtakes(first: seq<nat>, i: nat)
    requires PAGE <= i < |first| && Distinct(first)
    ensures var list := Moved(first, Joining(first, i - PAGE + 1));
            first[i] in list && first[i] !in first[..PAGE] && first[i] !in list[PAGE..]
  {
    var d := i - PAGE + 1;
    var list := Moved(first, Joining(first, d));
    hide Moved, Distinct, Joining;
    MovedIsDistinct(first, d);
    assert list[PAGE - 1] == first[i];
    OnlyAt(list, PAGE - 1, PAGE);
    OnlyAt(first, i, PAGE);
  }

  /** A row occurs on one side of any cut only. */
  lemma OnlyAt(list: seq<nat>, i: nat, cut: nat)
    requires Distinct(list) && i < |list| && cut <= |list|
    ensures i < cut ==> list[i] !in list[cut..]
    ensures i >= cut ==> list[i] !in list[..cut]
  {
    hide Distinct;
    forall k: nat | k < |list| && k != i
      ensures list[k] != list[i]
    {
      DifferentRows(list, i, k);
    }
  }

  /** For every longer list and every runner beyond its first page, a change hides that runner,
      although it is listed at every request and the count is right. */
  lemma Overtaken(first: seq<nat>, i: nat)
    requires PAGE <= i < |first| && Distinct(first)
    ensures var server, n := Moving(first, Joining(first, i - PAGE + 1)), |first| / PAGE + 1;
            && Accepted(server, n, first) && Throughout(server, n, first[i]) && first[i] !in Collected(server, n)
  {
    hide Moved, Joining, Distinct, EndsAt, Collected;
    var joining := Joining(first, i - PAGE + 1);
    MovedIsDistinct(first, i - PAGE + 1);
    MovingEnds(first, joining);
    Overtakes(first, i);
  }

  // ---- Exactly when nobody is mistaken for somebody else ----

  /** The rows that bear a name, in order. */
  function Bearing(rows: seq<nat>, name: nat -> string, wanted: string): (ids: seq<nat>)
    ensures forall id :: id in ids <==> id in rows && name(id) == wanted
  {
    if rows == [] then []
    else (if name(rows[0]) == wanted then [rows[0]] else []) + Bearing(rows[1..], name, wanted)
  }

  /** No request is answered with another runner of this runner's name. */
  ghost predicate BearsAlone(server: nat -> seq<nat>, n: nat, name: nat -> string, own: nat) {
    forall p, id :: 1 <= p <= n && id in server(p) && name(id) == name(own) ==> id == own
  }

  /** However the list goes on changing after the first request, if a runner is listed at
      every request and an accepted reading finds exactly one row of its name, then it is
      that row. `shared`: other runners may bear the name. */
  ghost predicate NeverMistaken(first: seq<nat>, own: nat, shared: bool) {
    forall server: nat -> seq<nat>, n: nat, name: nat -> string, found: nat ::
      && Accepted(server, n, first) && Throughout(server, n, own) && (shared || BearsAlone(server, n, name, own))
      && Bearing(Collected(server, n), name, name(own)) == [found] ==>
        found == own
  }

  /** A runner is never mistaken for another one if and only if it is on the first page of the
      first request or no other listed runner may bear its name. */
  lemma NeverMistakenExactlyWhen(first: seq<nat>, i: nat, shared: bool)
    requires Distinct(first) && i < |first|
    ensures NeverMistaken(first, first[i], shared) <==> i < PAGE || !shared
  {
    if i < PAGE || !shared {
      forall server: nat -> seq<nat>, n: nat, name: nat -> string, found: nat |
        && Accepted(server, n, first) && Throughout(server, n, first[i])
        && (shared || BearsAlone(server, n, name, first[i]))
        && Bearing(Collected(server, n), name, name(first[i])) == [found]
        ensures found == first[i]
      {
        FoundIsOwn(server, n, name, first, i, found);
      }
    } else {
      Mistaken(first, i);
    }
  }

  lemma FoundIsOwn(server: nat -> seq<nat>, n: nat, name: nat -> string, first: seq<nat>, i: nat, found: nat)
    requires i < |first| && Accepted(server, n, first) && (i < PAGE || BearsAlone(server, n, name, first[i]))
    requires Bearing(Collected(server, n), name, name(first[i])) == [found]
    ensures found == first[i]
  {
    hide Distinct;
    assert found in [found];
    if i < PAGE {
      FirstPageStays(server, n);
      assert PageOf(first, 1)[i] == first[i];
      assert first[i] in Bearing(Collected(server, n), name, name(first[i]));
    } else {
      var p := RequestOf(server, n, found);
    }
  }

  /** Every collected row was listed at some request. */
  lemma {:induction false} RequestOf<T>(server: nat -> seq<T>, n: nat, row: T) returns (p: nat)
    requires row in Collected(server, n)
    ensures 1 <= p <= n && row in server(p)
  {
    if row in PageOf(server(n), n) {
      p := n;
    } else {
      p := RequestOf(server, n - 1, row);
    }
  }

  /** The failing family: the wanted runner moves up to the page already read, and the last
      runner to join bears its name. */
  lemma Mistaken(first: seq<nat>, i: nat)
    requires Distinct(first) && PAGE <= i < |first|
    ensures !NeverMistaken(first, first[i], true)
  {
    hide Accepted, Throughout, Collected, Bearing, Moved, Moving, Distinct;
    var own, joining, n := first[i], Joining(first, i - PAGE + 1), |first| / PAGE + 1;
    var fake := joining[|joining| - 1];
    var server, name := Moving(first, joining), (id: nat) => if id == own || id == fake then "wanted" else "other";
    Overtaken(first, i);
    OnlyFake(first, i, name);
    assert Bearing(Collected(server, n), name, name(own)) == [fake] && fake != own;
  }

  lemma OnlyFake(first: seq<nat>, i: nat, name: nat -> string)
    requires Distinct(first) && PAGE <= i < |first|
    requires var joining := Joining(first, i - PAGE + 1);
             forall id :: name(id) == if id == first[i] || id == joining[|joining| - 1] then "wanted" else "other"
    ensures var joining, n := Joining(first, i - PAGE + 1), |first| / PAGE + 1;
            Bearing(Collected(Moving(first, joining), n), name, "wanted") == [joining[|joining| - 1]]
  {
    hide Moved, Joining, Distinct, EndsAt, Collected, Bearing;
    var joining := Joining(first, i - PAGE + 1);
    var list, rows := Moved(first, joining), Collected(Moving(first, joining), |first| / PAGE + 1);
    MovedIsDistinct(first, i - PAGE + 1);
    MovingEnds(first, joining);
    Overtakes(first, i);
    var fake, last := joining[|joining| - 1], |rows| - 1;
    assert rows[last] == list[|list| - 1] == fake;
    forall k | 0 <= k < last
      ensures name(rows[k]) != "wanted"
    {
      if k < PAGE {
        assert rows[k] == first[k] && first[k] in first[..PAGE] && fake !in first;
      } else {
        assert rows[k] == list[k] && list[k] in list[PAGE..];
        DifferentRows(list, k, |list| - 1);
      }
    }
    BearingLast(rows, name, "wanted");
  }

  lemma {:induction false} BearingLast(rows: seq<nat>, name: nat -> string, wanted: string)
    requires rows != [] && name(rows[|rows| - 1]) == wanted
    requires forall k :: 0 <= k < |rows| - 1 ==> name(rows[k]) != wanted
    ensures Bearing(rows, name, wanted) == [rows[|rows| - 1]]
  {
    if |rows| > 1 {
      BearingLast(rows[1..], name, wanted);
    }
  }

  /** Nobody is mistaken if and only if the first request sees at most one page, or no name is
      shared. */
  lemma MistakesNobodyExactlyWhen(first: seq<nat>, shared: bool)
    requires Distinct(first)
    ensures (forall own <- first :: NeverMistaken(first, own, shared)) <==> |first| <= PAGE || !shared
  {
    hide NeverMistaken, Distinct;
    forall i: nat | i < |first|
      ensures NeverMistaken(first, first[i], shared) <==> i < PAGE || !shared
    {
      NeverMistakenExactlyWhen(first, i, shared);
    }
    if |first| > PAGE {
      assert first[PAGE] in first;
    }
  }
}
