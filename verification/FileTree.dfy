/** A filesystem as a map from paths to nodes, with the steps the deployment
    helpers take on it: rename of a whole subtree, mkdir, exclusive create,
    replace, unlink. */
module FileTree {
  import opened Effects

  type Path = seq<string>

  /** Symbolic links are files here: nothing below is reached through one. */
  datatype Node<T> = Dir | File(data: T)

  type Tree<T> = map<Path, Node<T>>

  predicate Under(p: Path, root: Path) {
    |root| <= |p| && p[..|root|] == root
  }

  function Get<T>(fs: Tree<T>, p: Path): Option<Node<T>> {
    if p in fs then Some(fs[p]) else None
  }

  /** Something exists at the path or below it. */
  predicate Present<T>(fs: Tree<T>, p: Path) {
    exists q <- fs :: Under(q, p)
  }

  predicate Apart(a: Path, b: Path) {
    !Under(a, b) && !Under(b, a)
  }

  lemma DifferAt(a: Path, b: Path, k: nat)
    requires k < |a| && k < |b| && a[k] != b[k]
    ensures Apart(a, b)
  {
  }

  lemma Nested(a: Path, b: Path, p: Path)
    requires Under(p, a) && Under(p, b)
    ensures Under(a, b) || Under(b, a)
  {
    if |a| <= |b| {
      assert b[..|a|] == p[..|b|][..|a|];
    } else {
      assert a[..|b|] == p[..|a|][..|b|];
    }
  }

  /** Paths that part stay apart further down. */
  lemma ApartBelow(a: Path, b: Path, p: Path)
    requires Apart(a, b) && Under(p, a)
    ensures !Under(p, b)
  {
    if Under(p, b) {
      Nested(a, b, p);
    }
  }

  /** Where a node ends up when the subtree at `a` is renamed to `b`. */
  function Shift(p: Path, a: Path, b: Path): Path {
    if Under(p, a) then b + p[|a|..] else p
  }

  function Renamed<T>(fs: Tree<T>, a: Path, b: Path): Tree<T>
    requires Apart(a, b) && !Present(fs, b)
  {
    map p | p in (set q | q in fs :: Shift(q, a, b)) && Shift(p, b, a) in fs :: fs[Shift(p, b, a)]
  }

  /** A rename moves the subtree, empties the old place and touches nothing else. */
  lemma RenamedGet<T>(fs: Tree<T>, a: Path, b: Path, p: Path)
    requires Apart(a, b) && !Present(fs, b)
    ensures Get(Renamed(fs, a, b), p)
            == if Under(p, b) then Get(fs, a + p[|b|..]) else if Under(p, a) then None else Get(fs, p)
  {
    if Under(p, b) {
      var q := a + p[|b|..];
      assert Shift(p, b, a) == q && q[..|a|] == a && q[|a|..] == p[|b|..];
      assert p == b + p[|b|..];
      assert Shift(q, a, b) == p;
    } else if Under(p, a) {
      forall q | q in fs
        ensures Shift(q, a, b) != p
      {
        if Under(q, a) {
          assert Shift(q, a, b)[..|b|] == b;
        }
      }
    } else if p in fs {
      assert Shift(p, a, b) == p;
    }
  }

  /** The subtree at `a` is now at `b`; nothing else changed. */
  ghost predicate Moves<T(!new)>(fs: Tree<T>, fs': Tree<T>, a: Path, b: Path) {
    forall p: Path ::
      Get(fs', p) == if Under(p, b) then Get(fs, a + p[|b|..]) else if Under(p, a) then None else Get(fs, p)
  }

  lemma RenamedMoves<T(!new)>(fs: Tree<T>, a: Path, b: Path)
    requires Apart(a, b) && !Present(fs, b)
    ensures Moves(fs, Renamed(fs, a, b), a, b)
  {
    forall p: Path
      ensures Get(Renamed(fs, a, b), p)
              == if Under(p, b) then Get(fs, a + p[|b|..]) else if Under(p, a) then None else Get(fs, p)
    {
      RenamedGet(fs, a, b, p);
    }
  }

  /** Nothing is below this path. */
  ghost predicate OneLeaf<T(!new)>(fs: Tree<T>, p: Path) {
    forall q :: q in fs && Under(q, p) ==> q == p
  }

  /** Renaming a file moves that one entry. */
  lemma RenamedLeaf<T(!new)>(fs: Tree<T>, a: Path, b: Path)
    requires Apart(a, b) && !Present(fs, b) && a in fs && OneLeaf(fs, a)
    ensures Renamed(fs, a, b) == (fs - {a})[b := fs[a]]
  {
    var fs' := Renamed(fs, a, b);
    forall p: Path
      ensures Get(fs', p) == Get((fs - {a})[b := fs[a]], p)
    {
      RenamedGet(fs, a, b, p);
      if Under(p, b) {
        var q := a + p[|b|..];
        assert Under(q, a) && q[|a|..] == p[|b|..];
        assert p == b + p[|b|..];
        assert q == a ==> p[|b|..] == [];
        assert p == b ==> q == a + [] == a;
      }
    }
    SameTree(fs', (fs - {a})[b := fs[a]]);
  }

  lemma SameTree<T(!new)>(fs: Tree<T>, fs': Tree<T>)
    requires forall p: Path :: Get(fs, p) == Get(fs', p)
    ensures fs == fs'
  {
    forall p: Path
      ensures p in fs <==> p in fs'
      ensures p in fs ==> fs[p] == fs'[p]
    {
      assert Get(fs, p) == Get(fs', p);
    }
  }
}
