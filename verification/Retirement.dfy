/** Retiring an installed runtime (deploy/clean_reinstall.py): `decommission` moves
    everything aside under a durable journal, `_complete` files the journal away,
    `recover` disposes of an interrupted pair of records. Any instruction can be
    the last one. */
module Retirement {
  import opened Effects
  import opened FileTree

  // ---- Files ----

  datatype Stage = Reserved | ServicesStopped | RuntimeRetired | Decommissioned | Complete

  /** The journal; `binding` stands for the digest of the configuration and the
      recorded comparison, `transition` is the service action under way. */
  datatype Journal = Journal(stage: Stage, source: string, target: string, binding: string,
                             runners: seq<Path>, markers: seq<string>, units: seq<string>,
                             transition: Option<(string, Action)>)

  datatype Content = Bytes(text: string) | Record(journal: Journal) | Apply(target: string) | Torn(whole: Content)

  datatype Action = StopUnit | DisableUnit

  type Disk = Tree<Content>

  datatype Job = Job(namespace: string, source: string, target: string, binding: string, specs: seq<Path>)

  const ALL: Path := []

  const MARKERS := ["reviewer-activation-authorized", "reviewer-recovery-requires-activation"]

  // ---- namespace_paths and the archive of this retirement ----

  function Install(j: Job): Path { ["opt", j.namespace] }
  function Config(j: Job): Path { ["etc", j.namespace] }
  function JournalPath(j: Job): Path { ["var", "lib", j.namespace + "-clean-reinstall.json"] }
  function NextPath(j: Job): Path { ["var", "lib", j.namespace + "-clean-reinstall.json" + ".next"] }
  function OperationPath(j: Job): Path { ["var", "lib", j.namespace + "-production-operation.json"] }
  function Archive(j: Job): Path { ["opt", "." + j.namespace + "-retired-" + j.source + "-" + j.target] }
  function Runtime(j: Job): Path { Archive(j) + ["runtime"] }

  /** A namespace starts with a letter; runner roots are not inside one another;
      relative paths are not empty. */
  ghost predicate JobOk(j: Job) {
    && j.namespace != "" && j.namespace[0] != '.'
    && (forall r <- j.specs :: r != [])
    && (forall a, b :: a in j.specs && b in j.specs && a != b ==> Apart(a, b))
  }

  /** `runner_specs`: relative roots; `slots` are the ids of the extra slots. */
  function RunnerSpecs(pool: bool, slots: seq<string>): seq<Path> {
    if pool then [["runner"]]
    else [["runner"], ["general-runner"]] + seq(|slots|, i requires 0 <= i < |slots| => ["slots", slots[i], "runner"])
  }

  /** The runner roots of any configuration with distinct slot ids are pairwise apart. */
  lemma RunnerSpecsApart(pool: bool, slots: seq<string>, a: nat, b: nat)
    requires forall i, k :: 0 <= i < k < |slots| ==> slots[i] != slots[k]
    requires a < b < |RunnerSpecs(pool, slots)|
    ensures Apart(RunnerSpecs(pool, slots)[a], RunnerSpecs(pool, slots)[b])
  {
    var specs := RunnerSpecs(pool, slots);
    assert "runner"[0] == 'r' && "general-runner"[0] == 'g' && "slots"[0] == 's';
    DifferAt(specs[a], specs[b], if a < 2 then 0 else 1);
  }

  /** No two of the places overlap. */
  ghost predicate Separate(j: Job) {
    && Apart(Install(j), Archive(j)) && Apart(Install(j), Config(j)) && Apart(Config(j), Archive(j))
    && Clear(j, JournalPath(j)) && Clear(j, NextPath(j)) && Clear(j, OperationPath(j))
    && JournalPath(j) != NextPath(j) && JournalPath(j) != OperationPath(j) && NextPath(j) != OperationPath(j)
  }

  ghost predicate Clear(j: Job, p: Path) {
    Apart(p, Install(j)) && Apart(p, Archive(j)) && Apart(p, Config(j))
  }

  lemma Layout(j: Job)
    requires JobOk(j)
    ensures Separate(j)
  {
    TreesApart(j);
    RecordNamesDiffer(j);
    assert JournalPath(j)[0] == NextPath(j)[0] == OperationPath(j)[0] == "var";
    hide Install, Archive, Config, JournalPath, NextPath, OperationPath, Clear, Apart;
    InVar(j, JournalPath(j));
    InVar(j, NextPath(j));
    InVar(j, OperationPath(j));
  }

  lemma TreesApart(j: Job)
    requires JobOk(j)
    ensures Apart(Install(j), Archive(j)) && Apart(Install(j), Config(j)) && Apart(Config(j), Archive(j))
  {
    assert Archive(j)[1][0] == '.';
    DifferAt(Install(j), Archive(j), 1);
    assert "opt"[0] == 'o' && "etc"[0] == 'e';
    DifferAt(Install(j), Config(j), 0);
    DifferAt(Config(j), Archive(j), 0);
  }

  lemma RecordNamesDiffer(j: Job)
    ensures JournalPath(j) != NextPath(j) && JournalPath(j) != OperationPath(j) && NextPath(j) != OperationPath(j)
    ensures |JournalPath(j)| == |NextPath(j)| == |OperationPath(j)| == 3
  {
    var n := |j.namespace|;
    assert JournalPath(j)[2][n + 1] == 'c' && NextPath(j)[2][n + 1] == 'c' && OperationPath(j)[2][n + 1] == 'p';
    assert |JournalPath(j)[2]| != |NextPath(j)[2]|;
  }

  lemma InVar(j: Job, p: Path)
    requires p != [] && p[0] == "var"
    ensures Clear(j, p)
  {
    assert "opt"[0] == 'o' && "etc"[0] == 'e' && "var"[0] == 'v';
    DifferAt(p, Install(j), 0);
    DifferAt(p, Archive(j), 0);
    DifferAt(p, Config(j), 0);
  }

  // ---- Where everything is ----

  predicate Home(q: Path, back: set<Path>) {
    exists r <- back :: Under(q, r)
  }

  /** A directory that only leads to a runner root. */
  predicate Scaffold(q: Path, runners: seq<Path>) {
    q == [] || exists r <- runners :: |q| < |r| && Under(r, q)
  }

  /** Every path of the original install tree is in its place (under `back`) or in
      the archive; the install root holds nothing else but leading directories. */
  ghost predicate Placed(was: Disk, fs: Disk, j: Job, runners: seq<Path>, back: set<Path>) {
    forall q: Path ::
      if Home(q, back) then Get(fs, Install(j) + q) == Get(was, Install(j) + q) && Get(fs, Runtime(j) + q) == None
      else
        && Get(fs, Runtime(j) + q) == Get(was, Install(j) + q)
        && (Get(fs, Install(j) + q) == None || (Get(fs, Install(j) + q) == Some(Dir) && Scaffold(q, runners)))
  }

  ghost predicate MarkersPlaced(was: Disk, fs: Disk, j: Job, markers: seq<string>, moved: set<string>) {
    forall m <- markers ::
      if m in moved then Get(fs, Archive(j) + [m]) == Get(was, Config(j) + [m]) && Get(fs, Config(j) + [m]) == None
      else Get(fs, Config(j) + [m]) == Get(was, Config(j) + [m]) && Get(fs, Archive(j) + [m]) == None
  }

  /** Nothing else changed. */
  ghost predicate Elsewhere(was: Disk, fs: Disk, j: Job, markers: seq<string>) {
    forall p: Path ::
      (!Under(p, Install(j)) && !Under(p, Archive(j)) && p !in {JournalPath(j), NextPath(j), OperationPath(j)}
       && (forall m <- markers :: !Under(p, Config(j) + [m]))) ==>
        Get(fs, p) == Get(was, p)
  }

  // ---- Steps ----

  datatype Call = Call(unit: string, action: Action, disk: Disk)

  /** Checks of code that is not part of this model. */
  datatype Check =
    | Inventory      // inventory, installed identity, resource boundary, runner owners
    | Quiescent      // unit states and idle workers, before anything happens
    | Stopped        // the same once every unit was stopped
    | Final          // final identity, verified admission, protected archive
    | Evidence       // archive, markers, runtimes, configuration, runner roots, processes, admission
    | Contained      // the same once the timer and the socket were stopped

  class Host {
    var fs: Disk
    ghost var calls: seq<Call>
    /** No call fails, and the outside checks answer as `agrees` says. */
    const quiet: bool
    const agrees: Check -> bool

    constructor (fs: Disk, quiet: bool, agrees: Check -> bool)
      ensures this.fs == fs && calls == [] && this.quiet == quiet && this.agrees == agrees
    {
      this.fs, this.calls, this.quiet, this.agrees := fs, [], quiet, agrees;
    }

    method Mkdir(p: Path) returns (r: Result<()>)
      modifies this`fs
      ensures quiet ==> (r.Ok? <==> p !in old(fs))
      ensures fs == old(fs) || (p !in old(fs) && fs == old(fs)[p := Dir])
      ensures r.Ok? ==> fs == old(fs)[p := Dir] && p !in old(fs)
    {
      var before := Fate(quiet);
      if before.Some? {
        return Stop(before.value);
      }
      if p in fs {
        return Stop(Raised);
      }
      fs := fs[p := Dir];
      var after := Fate(quiet);
      return if after.Some? then Stop(after.value) else Ok(());
    }

    method Rename(a: Path, b: Path) returns (r: Result<()>)
      requires Apart(a, b) && !Present(fs, b)
      modifies this`fs
      ensures quiet ==> (r.Ok? <==> Present(old(fs), a))
      ensures fs == old(fs) || fs == Renamed(old(fs), a, b)
      ensures r.Ok? ==> fs == Renamed(old(fs), a, b) && Present(old(fs), a)
    {
      var before := Fate(quiet);
      if before.Some? {
        return Stop(before.value);
      }
      if !Present(fs, a) {
        return Stop(Raised);
      }
      fs := Renamed(fs, a, b);
      var after := Fate(quiet);
      return if after.Some? then Stop(after.value) else Ok(());
    }

    /** `write_new`: an exclusive create, then the bytes; a torn file can be left. */
    method WriteNew(p: Path, content: Content) returns (r: Result<()>)
      modifies this`fs
      ensures quiet ==> (r.Ok? <==> !Present(old(fs), p))
      ensures fs == old(fs) || (!Present(old(fs), p) && p in fs && fs == old(fs)[p := fs[p]])
      ensures r.Ok? ==> fs == old(fs)[p := File(content)] && !Present(old(fs), p)
      ensures p in fs && p !in old(fs) ==> fs[p] in {File(content), File(Torn(content))}
    {
      var before := Fate(quiet);
      if before.Some? {
        return Stop(before.value);
      }
      if Present(fs, p) {
        return Stop(Raised);
      }
      fs := fs[p := File(Torn(content))];
      var during := Fate(quiet);
      if during.Some? {
        return Stop(during.value);
      }
      fs := fs[p := File(content)];
      var after := Fate(quiet);
      return if after.Some? then Stop(after.value) else Ok(());
    }

    /** `os.replace` of one file by another. */
    method Replace(a: Path, b: Path) returns (r: Result<()>)
      requires a in fs && b in fs && a != b
      modifies this`fs
      ensures quiet ==> r.Ok?
      ensures fs == old(fs) || fs == (old(fs) - {a})[b := old(fs)[a]]
      ensures r.Ok? ==> fs == (old(fs) - {a})[b := old(fs)[a]]
    {
      var before := Fate(quiet);
      if before.Some? {
        return Stop(before.value);
      }
      fs := (fs - {a})[b := fs[a]];
      var after := Fate(quiet);
      return if after.Some? then Stop(after.value) else Ok(());
    }

    method Unlink(p: Path) returns (r: Result<()>)
      modifies this`fs
      ensures quiet ==> (r.Ok? <==> p in old(fs))
      ensures fs == old(fs) || fs == old(fs) - {p}
      ensures r.Ok? ==> fs == old(fs) - {p}
    {
      var before := Fate(quiet);
      if before.Some? || p !in fs {
        return Stop(if before.Some? then before.value else Raised);
      }
      fs := fs - {p};
      var after := Fate(quiet);
      return if after.Some? then Stop(after.value) else Ok(());
    }

    method Systemctl(unit: string, action: Action) returns (r: Result<()>)
      modifies this`calls
      ensures calls == old(calls) || calls == old(calls) + [Call(unit, action, fs)]
      ensures (r.Ok? ==> calls == old(calls) + [Call(unit, action, fs)]) && (quiet ==> r.Ok?)
    {
      var before := Fate(quiet);
      if before.Some? {
        return Stop(before.value);
      }
      calls := calls + [Call(unit, action, fs)];
      var after := Fate(quiet);
      return if after.Some? then Stop(after.value) else Ok(());
    }
  }

  // ---- Records beside the trees ----

  function Records(j: Job): set<Path> {
    {JournalPath(j), NextPath(j), OperationPath(j)}
  }

  /** Only the three record files differ. */
  ghost predicate OnlyRecords(a: Disk, b: Disk, j: Job) {
    forall p: Path :: p !in Records(j) ==> Get(b, p) == Get(a, p)
  }

  /** The situation of the trees: what is back in the install root, which markers moved. */
  ghost predicate Situated(was: Disk, fs: Disk, j: Job, runners: seq<Path>, markers: seq<string>,
                           back: set<Path>, moved: set<string>) {
    && Placed(was, fs, j, runners, back) && MarkersPlaced(was, fs, j, markers, moved) && Elsewhere(was, fs, j, markers)
    && Free(fs, j, markers, back, moved)
  }

  /** Nothing is in the way of what still has to move. */
  ghost predicate Free(fs: Disk, j: Job, markers: seq<string>, back: set<Path>, moved: set<string>) {
    && (forall m <- markers :: m !in moved ==> !Present(fs, Archive(j) + [m]))
    && (back == {ALL} ==> !Present(fs, Runtime(j)))
  }

  /** Files have nothing below them. */
  ghost predicate Leafy(fs: Disk) {
    forall p, q :: p in fs && q in fs && fs[p].File? && Under(q, p) ==> q == p
  }

  ghost predicate KnownMarkers(was: Disk, j: Job, markers: seq<string>) {
    && (forall m <- markers :: m in MARKERS && Config(j) + [m] in was && was[Config(j) + [m]].File?)
    && (forall a, b :: 0 <= a < b < |markers| ==> markers[a] != markers[b])
  }

  lemma RecordFree(j: Job, root: Path, p: Path)
    requires JobOk(j) && root in {Install(j), Archive(j), Config(j)} && Under(p, root)
    ensures p !in Records(j)
  {
    Layout(j);
    hide Install, Archive, Config, JournalPath, NextPath, OperationPath;
    ApartBelow(root, JournalPath(j), p);
    ApartBelow(root, NextPath(j), p);
    ApartBelow(root, OperationPath(j), p);
  }

  lemma RecordsApart(was: Disk, a: Disk, b: Disk, j: Job, runners: seq<Path>, markers: seq<string>,
                     back: set<Path>, moved: set<string>)
    requires JobOk(j) && Situated(was, a, j, runners, markers, back, moved) && OnlyRecords(a, b, j)
    ensures Situated(was, b, j, runners, markers, back, moved)
  {
    RecordsKeepTrees(was, a, b, j, runners, back);
    RecordsKeepMarkers(was, a, b, j, markers, back, moved);
  }

  lemma RecordsKeepTrees(was: Disk, a: Disk, b: Disk, j: Job, runners: seq<Path>, back: set<Path>)
    requires JobOk(j) && Placed(was, a, j, runners, back) && OnlyRecords(a, b, j)
    ensures Placed(was, b, j, runners, back)
  {
    hide Config, Archive, Install, Records, JobOk, Scaffold, Home;
    forall q: Path
      ensures Get(b, Install(j) + q) == Get(a, Install(j) + q) && Get(b, Runtime(j) + q) == Get(a, Runtime(j) + q)
    {
      RecordFree(j, Install(j), Install(j) + q);
      RecordFree(j, Archive(j), Runtime(j) + q);
    }
  }

  lemma RecordsKeepMarkers(was: Disk, a: Disk, b: Disk, j: Job, markers: seq<string>, back: set<Path>,
                           moved: set<string>)
    requires JobOk(j) && MarkersPlaced(was, a, j, markers, moved) && Free(a, j, markers, back, moved)
              && OnlyRecords(a, b, j)
    ensures MarkersPlaced(was, b, j, markers, moved) && Free(b, j, markers, back, moved)
  {
    hide Config, Archive, Records, JobOk;
    forall m <- markers
      ensures Get(b, Config(j) + [m]) == Get(a, Config(j) + [m]) && Get(b, Archive(j) + [m]) == Get(a, Archive(j) + [m])
      ensures m !in moved ==> !Present(b, Archive(j) + [m])
    {
      RecordFree(j, Config(j), Config(j) + [m]);
      RecordFree(j, Archive(j), Archive(j) + [m]);
      if m !in moved {
        RecordsStayFree(a, b, j, Archive(j), [m]);
      }
    }
    if back == {ALL} {
      RecordsStayFree(a, b, j, Archive(j), ["runtime"]);
    }
  }

  lemma RecordsStayFree(a: Disk, b: Disk, j: Job, root: Path, more: Path)
    requires JobOk(j) && root in {Install(j), Archive(j), Config(j)} && OnlyRecords(a, b, j) && !Present(a, root + more)
    ensures !Present(b, root + more)
  {
    forall q | Under(q, root + more)
      ensures q !in b
    {
      Deeper(q, root, more);
      RecordFree(j, root, q);
      assert Get(b, q) == Get(a, q);
    }
  }

  // ---- What each step does to the situation ----

  lemma AtStart(was: Disk, j: Job, runners: seq<Path>, markers: seq<string>)
    requires JobOk(j) && !Present(was, Archive(j))
    ensures Situated(was, was, j, runners, markers, {ALL}, {})
  {
    forall q: Path
      ensures Home(q, {ALL}) && Get(was, Runtime(j) + q) == None
    {
      assert Under(q, ALL);
      assert Under(Runtime(j) + q, Archive(j));
    }
    forall p | Under(p, Archive(j))
      ensures p !in was
    {
    }
    assert forall m <- markers :: Under(Archive(j) + [m], Archive(j));
    forall m <- markers
      ensures !Present(was, Archive(j) + [m])
    {
      forall q | q in was
        ensures !Under(q, Archive(j) + [m])
      {
        assert Under(q, Archive(j) + [m]) ==> Under(q, Archive(j)) by { Deeper(q, Archive(j), [m]); }
      }
    }
    forall q | q in was
      ensures !Under(q, Runtime(j))
    {
      Deeper(q, Archive(j), ["runtime"]);
    }
  }

  lemma Deeper(q: Path, root: Path, more: Path)
    ensures Under(q, root + more) ==> Under(q, root)
  {
    if Under(q, root + more) {
      assert q[..|root|] == (root + more)[..|root|];
    }
  }

  lemma MadeArchive(was: Disk, fs: Disk, j: Job, runners: seq<Path>, markers: seq<string>)
    requires JobOk(j) && Situated(was, fs, j, runners, markers, {ALL}, {}) && !Present(fs, Archive(j))
    ensures Situated(was, fs[Archive(j) := Dir], j, runners, markers, {ALL}, {})
  {
    Layout(j);
    var fs' := fs[Archive(j) := Dir];
    forall q: Path
      ensures Get(fs', Install(j) + q) == Get(fs, Install(j) + q) && Get(fs', Runtime(j) + q) == Get(fs, Runtime(j) + q)
    {
      ApartBelow(Install(j), Archive(j), Install(j) + q);
    }
    forall m <- markers
      ensures Get(fs', Config(j) + [m]) == Get(fs, Config(j) + [m])
                && Get(fs', Archive(j) + [m]) == Get(fs, Archive(j) + [m])
    {
      ApartBelow(Config(j), Archive(j), Config(j) + [m]);
    }
    assert Under(Archive(j), Archive(j));
  }

  lemma MovedMarker(was: Disk, fs: Disk, j: Job, runners: seq<Path>, markers: seq<string>, moved: set<string>,
                    m: string)
    requires JobOk(j) && Situated(was, fs, j, runners, markers, {ALL}, moved) && KnownMarkers(was, j, markers)
    requires m in markers && m !in moved
    ensures Apart(Config(j) + [m], Archive(j) + [m]) && !Present(fs, Archive(j) + [m])
    ensures Situated(was, Renamed(fs, Config(j) + [m], Archive(j) + [m]), j, runners, markers, {ALL}, moved + {m})
  {
    DifferAt(Config(j) + [m], Archive(j) + [m], 0);
    var fs' := Renamed(fs, Config(j) + [m], Archive(j) + [m]);
    RenamedMoves(fs, Config(j) + [m], Archive(j) + [m]);
    hide JobOk, Renamed, Moves;
    MarkerKeepsTrees(was, fs, fs', j, runners, m);
    MarkerKeepsMarkers(was, fs, fs', j, markers, moved, m);
    MarkerKeepsRest(was, fs, fs', j, markers, moved, m);
  }

  lemma MarkerKeepsTrees(was: Disk, fs: Disk, fs': Disk, j: Job, runners: seq<Path>, m: string)
    requires JobOk(j) && Placed(was, fs, j, runners, {ALL}) && m in MARKERS
    requires Moves(fs, fs', Config(j) + [m], Archive(j) + [m])
    ensures Placed(was, fs', j, runners, {ALL})
  {
    var a, b := Config(j) + [m], Archive(j) + [m];
    Layout(j);
    DifferAt(b, Runtime(j), 2);
    forall q: Path
      ensures Get(fs', Install(j) + q) == Get(fs, Install(j) + q) && Get(fs', Runtime(j) + q) == Get(fs, Runtime(j) + q)
    {
      ApartBelow(Install(j), Config(j), Install(j) + q);
      ApartBelow(Install(j), Archive(j), Install(j) + q);
      ApartBelow(Runtime(j), b, Runtime(j) + q);
      Deeper(Install(j) + q, Config(j), [m]);
      Deeper(Install(j) + q, Archive(j), [m]);
      DifferAt(Runtime(j) + q, a, 0);
    }
    hide Install, Runtime, Scaffold;
  }

  lemma MarkerKeepsMarkers(was: Disk, fs: Disk, fs': Disk, j: Job, markers: seq<string>, moved: set<string>, m: string)
    requires JobOk(j) && MarkersPlaced(was, fs, j, markers, moved) && m in markers && m !in moved
    requires Moves(fs, fs', Config(j) + [m], Archive(j) + [m])
    ensures MarkersPlaced(was, fs', j, markers, moved + {m})
  {
    var a, b := Config(j) + [m], Archive(j) + [m];
    forall n <- markers
      ensures n != m ==>
                && Get(fs', Config(j) + [n]) == Get(fs, Config(j) + [n])
                && Get(fs', Archive(j) + [n]) == Get(fs, Archive(j) + [n])
      ensures n == m ==> Get(fs', Archive(j) + [n]) == Get(fs, Config(j) + [n]) && Get(fs', Config(j) + [n]) == None
    {
      DifferAt(Config(j) + [n], b, 0);
      DifferAt(Archive(j) + [n], a, 0);
      if n != m {
        DifferAt(Config(j) + [n], a, 2);
        DifferAt(Archive(j) + [n], b, 2);
      } else {
        assert Under(b, b) && a + b[|b|..] == a;
      }
    }
  }

  lemma MarkerKeepsRest(was: Disk, fs: Disk, fs': Disk, j: Job, markers: seq<string>, moved: set<string>, m: string)
    requires JobOk(j) && Elsewhere(was, fs, j, markers) && Free(fs, j, markers, {ALL}, moved) && m in markers
              && m in MARKERS
    requires Moves(fs, fs', Config(j) + [m], Archive(j) + [m])
    ensures Elsewhere(was, fs', j, markers) && Free(fs', j, markers, {ALL}, moved + {m})
  {
    var a, b := Config(j) + [m], Archive(j) + [m];
    forall p: Path | !Under(p, Archive(j)) && !Under(p, a)
      ensures Get(fs', p) == Get(fs, p)
    {
      Deeper(p, Archive(j), [m]);
    }
    forall n | n in markers && n !in moved + {m}
      ensures !Present(fs', Archive(j) + [n])
    {
      DifferAt(Archive(j) + [n], b, 2);
      DifferAt(Archive(j) + [n], a, 0);
      StaysFree(fs, fs', a, b, Archive(j) + [n]);
    }
    DifferAt(Runtime(j), b, 2);
    DifferAt(Runtime(j), a, 0);
    StaysFree(fs, fs', a, b, Runtime(j));
  }

  lemma StaysFree(fs: Disk, fs': Disk, a: Path, b: Path, p: Path)
    requires Moves(fs, fs', a, b) && Apart(p, b) && !Present(fs, p)
    ensures !Present(fs', p)
  {
    forall q | q in fs' && Under(q, p)
      ensures false
    {
      ApartBelow(p, b, q);
    }
  }

  lemma MovedRuntime(was: Disk, fs: Disk, j: Job, runners: seq<Path>, markers: seq<string>, moved: set<string>)
    requires JobOk(j) && Situated(was, fs, j, runners, markers, {ALL}, moved)
    requires forall m <- markers :: m in MARKERS && m in moved
    ensures Apart(Install(j), Runtime(j)) && !Present(fs, Runtime(j))
    ensures Situated(was, Renamed(fs, Install(j), Runtime(j)), j, runners, markers, {}, moved)
  {
    DifferAt(Install(j), Runtime(j), 1);
    var fs' := Renamed(fs, Install(j), Runtime(j));
    RenamedMoves(fs, Install(j), Runtime(j));
    hide Renamed, Moves, JobOk;
    RuntimeKeepsRest(was, fs, fs', j, markers, moved);
    RuntimeTrees(was, fs, fs', j, runners);
  }

  lemma RuntimeTrees(was: Disk, fs: Disk, fs': Disk, j: Job, runners: seq<Path>)
    requires JobOk(j) && Placed(was, fs, j, runners, {ALL}) && Moves(fs, fs', Install(j), Runtime(j))
    ensures Placed(was, fs', j, runners, {})
  {
    Layout(j);
    forall q: Path
      ensures Get(fs', Install(j) + q) == None && Get(fs', Runtime(j) + q) == Get(was, Install(j) + q)
    {
      assert Under(q, ALL) && Home(q, {ALL});
      DifferAt(Install(j) + q, Runtime(j), 1);
      assert Under(Runtime(j) + q, Runtime(j)) && (Runtime(j) + q)[|Runtime(j)|..] == q;
      assert Under(Install(j) + q, Install(j));
    }
  }

  lemma RuntimeKeepsRest(was: Disk, fs: Disk, fs': Disk, j: Job, markers: seq<string>, moved: set<string>)
    requires JobOk(j) && Elsewhere(was, fs, j, markers) && MarkersPlaced(was, fs, j, markers, moved)
    requires forall m <- markers :: m in MARKERS && m in moved
    requires Moves(fs, fs', Install(j), Runtime(j))
    ensures Elsewhere(was, fs', j, markers) && MarkersPlaced(was, fs', j, markers, moved)
    ensures Free(fs', j, markers, {}, moved)
  {
    Layout(j);
    forall p: Path | !Under(p, Archive(j)) && !Under(p, Install(j))
      ensures Get(fs', p) == Get(fs, p)
    {
      Deeper(p, Archive(j), ["runtime"]);
    }
    forall m <- markers
      ensures Get(fs', Config(j) + [m]) == Get(fs, Config(j) + [m])
                && Get(fs', Archive(j) + [m]) == Get(fs, Archive(j) + [m])
    {
      DifferAt(Config(j) + [m], Install(j), 0);
      DifferAt(Config(j) + [m], Runtime(j), 0);
      DifferAt(Archive(j) + [m], Runtime(j), 2);
      DifferAt(Archive(j) + [m], Install(j), 1);
    }
  }

  /** A new directory that leads to a runner root not yet back. */
  lemma MadeScaffold(was: Disk, fs: Disk, j: Job, runners: seq<Path>, markers: seq<string>, back: set<Path>,
                     moved: set<string>, q: Path)
    requires JobOk(j) && Situated(was, fs, j, runners, markers, back, moved) && Scaffold(q, runners) && !Home(q, back)
    requires Get(fs, Install(j) + q) == None && ALL !in back
    ensures Situated(was, fs[Install(j) + q := Dir], j, runners, markers, back, moved)
  {
    var fs' := fs[Install(j) + q := Dir];
    Layout(j);
    assert Under(Install(j) + q, Install(j));
    forall s: Path
      ensures s != q ==> Get(fs', Install(j) + s) == Get(fs, Install(j) + s)
      ensures Get(fs', Runtime(j) + s) == Get(fs, Runtime(j) + s)
    {
      assert (Install(j) + s)[|Install(j)|..] == s && (Install(j) + q)[|Install(j)|..] == q;
      DifferAt(Install(j) + q, Runtime(j) + s, 1);
    }
    forall m <- markers
      ensures Get(fs', Config(j) + [m]) == Get(fs, Config(j) + [m])
                && Get(fs', Archive(j) + [m]) == Get(fs, Archive(j) + [m])
      ensures m !in moved ==> !Present(fs', Archive(j) + [m])
    {
      DifferAt(Install(j) + q, Config(j) + [m], 0);
      DifferAt(Install(j) + q, Archive(j) + [m], 1);
    }
  }

  /** A runner root that is not back yet has nothing in its way. */
  lemma WayIsFree(was: Disk, fs: Disk, j: Job, runners: seq<Path>, back: set<Path>, r: Path)
    requires JobOk(j) && Placed(was, fs, j, runners, back) && r in runners && (forall s <- runners :: s in j.specs)
    requires r !in back && (forall s <- back :: s in runners)
    ensures !Present(fs, Install(j) + r) && !Home(r, back)
  {
    forall p | p in fs && Under(p, Install(j) + r)
      ensures false
    {
      var q := p[|Install(j)|..];
      Deeper(p, Install(j), r);
      assert p == Install(j) + q && Under(q, r);
      if Home(q, back) {
        var s :| s in back && Under(q, s);
        Nested(r, s, q);
      } else {
        assert Scaffold(q, runners);
        var s :| s in runners && |q| < |s| && Under(s, q);
        Nested(q, r, q);
        Through(s, q, r);
      }
    }
  }

  lemma Through(s: Path, q: Path, r: Path)
    requires Under(s, q) && Under(q, r)
    ensures Under(s, r)
  {
    assert s[..|r|] == s[..|q|][..|r|];
  }

  lemma MovedRunner(was: Disk, fs: Disk, j: Job, runners: seq<Path>, markers: seq<string>, back: set<Path>,
                    moved: set<string>, r: Path)
    requires JobOk(j) && Situated(was, fs, j, runners, markers, back, moved)
    requires r in runners && (forall s <- runners :: s in j.specs) && r !in back && (forall s <- back :: s in runners)
    requires forall m <- markers :: m in MARKERS && m in moved
    ensures Apart(Runtime(j) + r, Install(j) + r) && !Present(fs, Install(j) + r)
    ensures Situated(was, Renamed(fs, Runtime(j) + r, Install(j) + r), j, runners, markers, back + {r}, moved)
  {
    WayIsFree(was, fs, j, runners, back, r);
    DifferAt(Runtime(j) + r, Install(j) + r, 1);
    var fs' := Renamed(fs, Runtime(j) + r, Install(j) + r);
    RenamedMoves(fs, Runtime(j) + r, Install(j) + r);
    hide Renamed, Moves, JobOk, Home;
    RunnerTrees(was, fs, fs', j, runners, back, r);
    RunnerKeepsRest(was, fs, fs', j, markers, moved, r);
    assert ALL !in back + {r};
  }

  lemma RunnerTrees(was: Disk, fs: Disk, fs': Disk, j: Job, runners: seq<Path>, back: set<Path>, r: Path)
    requires JobOk(j) && Placed(was, fs, j, runners, back) && Moves(fs, fs', Runtime(j) + r, Install(j) + r)
    requires r in runners && (forall s <- runners :: s in j.specs) && r !in back && (forall s <- back :: s in runners)
    ensures Placed(was, fs', j, runners, back + {r})
  {
    var a, b := Runtime(j) + r, Install(j) + r;
    forall q: Path
      ensures Home(q, back + {r}) == (Home(q, back) || Under(q, r))
      ensures Under(q, r) ==>
                Get(fs', Install(j) + q) == Get(fs, Runtime(j) + q) && Get(fs', Runtime(j) + q) == None
                    && !Home(q, back)
      ensures !Under(q, r) ==>
                Get(fs', Install(j) + q) == Get(fs, Install(j) + q)
                    && Get(fs', Runtime(j) + q) == Get(fs, Runtime(j) + q)
    {
      RunnerPath(fs, fs', j, r, q);
      if Under(q, r) && Home(q, back) {
        var s :| s in back && Under(q, s);
        Nested(r, s, q);
      }
    }
    hide Home, Scaffold;
  }

  lemma RunnerPath(fs: Disk, fs': Disk, j: Job, r: Path, q: Path)
    requires JobOk(j) && Moves(fs, fs', Runtime(j) + r, Install(j) + r)
    ensures Under(q, r) ==> Get(fs', Install(j) + q) == Get(fs, Runtime(j) + q) && Get(fs', Runtime(j) + q) == None
    ensures !Under(q, r) ==>
              Get(fs', Install(j) + q) == Get(fs, Install(j) + q) && Get(fs', Runtime(j) + q) == Get(fs, Runtime(j) + q)
  {
    var a, b := Runtime(j) + r, Install(j) + r;
    DifferAt(Install(j) + q, a, 1);
    DifferAt(Runtime(j) + q, b, 1);
    Shared(Install(j), q, r);
    Shared(Runtime(j), q, r);
    if Under(q, r) {
      assert a + (Install(j) + q)[|b|..] == Runtime(j) + q;
    }
  }

  lemma Shared(root: Path, q: Path, r: Path)
    ensures Under(root + q, root + r) <==> Under(q, r)
  {
    if Under(root + q, root + r) {
      assert q[..|r|] == (root + q)[..|root + r|][|root|..];
    }
    if Under(q, r) {
      assert (root + q)[..|root + r|] == root + q[..|r|];
    }
  }

  lemma RunnerKeepsRest(was: Disk, fs: Disk, fs': Disk, j: Job, markers: seq<string>, moved: set<string>, r: Path)
    requires JobOk(j) && Elsewhere(was, fs, j, markers) && MarkersPlaced(was, fs, j, markers, moved)
    requires forall m <- markers :: m in MARKERS && m in moved
    requires Moves(fs, fs', Runtime(j) + r, Install(j) + r)
    ensures Elsewhere(was, fs', j, markers) && MarkersPlaced(was, fs', j, markers, moved)
    ensures forall back: set<Path> :: ALL !in back ==> Free(fs', j, markers, back, moved)
  {
    forall p: Path | !Under(p, Archive(j)) && !Under(p, Install(j))
      ensures Get(fs', p) == Get(fs, p)
    {
      Deeper(p, Archive(j), ["runtime"] + r);
      assert Runtime(j) + r == Archive(j) + (["runtime"] + r);
      Deeper(p, Install(j), r);
    }
    forall m <- markers
      ensures Get(fs', Config(j) + [m]) == Get(fs, Config(j) + [m])
                && Get(fs', Archive(j) + [m]) == Get(fs, Archive(j) + [m])
    {
      DifferAt(Config(j) + [m], Install(j) + r, 0);
      DifferAt(Config(j) + [m], Runtime(j) + r, 0);
      DifferAt(Archive(j) + [m], Runtime(j) + r, 2);
      DifferAt(Archive(j) + [m], Install(j) + r, 1);
    }
  }

  // ---- decommission ----

  function RunnersOf(fs: Disk, j: Job, n: nat): (runners: seq<Path>)
    requires n <= |j.specs|
    ensures forall r <- runners :: r in j.specs && Present(fs, Install(j) + r)
    ensures forall r <- j.specs[..n] :: Present(fs, Install(j) + r) ==> r in runners
  {
    if n == 0 then []
    else RunnersOf(fs, j, n - 1) + if Present(fs, Install(j) + j.specs[n - 1]) then [j.specs[n - 1]] else []
  }

  function MarkersOf(fs: Disk, j: Job): (markers: seq<string>)
    ensures forall m <- markers :: m in MARKERS && Present(fs, Config(j) + [m])
    ensures forall m <- MARKERS :: Present(fs, Config(j) + [m]) ==> m in markers
    ensures forall a, b :: 0 <= a < b < |markers| ==> markers[a] != markers[b]
  {
    assert MARKERS[0][9] != MARKERS[1][9];
    (if Present(fs, Config(j) + [MARKERS[0]]) then [MARKERS[0]] else [])
    + (if Present(fs, Config(j) + [MARKERS[1]]) then [MARKERS[1]] else [])
  }

  function Elements<T>(s: seq<T>): set<T> {
    set x | x in s
  }

  ghost predicate Fits(runners: seq<Path>, back: set<Path>) {
    back == {ALL} || forall s <- back :: s in runners
  }

  /** Every tree and every marker is in one of its two places. */
  ghost predicate Somewhere(was: Disk, fs: Disk, j: Job, runners: seq<Path>, markers: seq<string>) {
    exists back, moved: set<string> :: Fits(runners, back) && Situated(was, fs, j, runners, markers, back, moved)
  }

  lemma Here(was: Disk, fs: Disk, j: Job, runners: seq<Path>, markers: seq<string>, back: set<Path>, moved: set<string>)
    requires Fits(runners, back) && Situated(was, fs, j, runners, markers, back, moved)
    ensures Somewhere(was, fs, j, runners, markers)
  {
  }

  /** When a unit was acted on, the journal on disk named that very action. */
  predicate Announced(call: Call, j: Job) {
    && Get(call.disk, JournalPath(j)).Some? && call.disk[JournalPath(j)].File? && call.disk[JournalPath(j)].data.Record?
    && call.disk[JournalPath(j)].data.journal.transition == Some((call.unit, call.action))
  }

  predicate Journalled(before: seq<Call>, calls: seq<Call>, j: Job) {
    before <= calls && forall i :: |before| <= i < |calls| ==> Announced(calls[i], j)
  }

  /** The i-th action on the listed units: stop, then disable, each in turn. */
  function ActionAt(units: seq<string>, i: nat): (string, Action)
    requires i < 2 * |units|
  {
    (units[i / 2], if i % 2 == 0 then StopUnit else DisableUnit)
  }

  /** The calls added are the first n actions. */
  predicate DidFirst(before: seq<Call>, calls: seq<Call>, units: seq<string>, n: nat) {
    && before <= calls && |calls| == |before| + n && n <= 2 * |units|
    && forall i :: 0 <= i < n ==> (calls[|before| + i].unit, calls[|before| + i].action) == ActionAt(units, i)
  }

  predicate Reserving(fs: Disk, j: Job) {
    Present(fs, JournalPath(j)) || Present(fs, NextPath(j)) || Present(fs, OperationPath(j))
  }

  lemma InTree(fs: Disk, p: Path)
    requires p in fs
    ensures Present(fs, p)
  {
    assert Under(p, p);
  }

  lemma RecordsDiffer(j: Job)
    requires JobOk(j)
    ensures Apart(JournalPath(j), NextPath(j)) && Apart(OperationPath(j), NextPath(j))
              && Apart(JournalPath(j), OperationPath(j))
  {
    Layout(j);
    DifferAt(JournalPath(j), NextPath(j), 2);
    DifferAt(OperationPath(j), NextPath(j), 2);
    DifferAt(JournalPath(j), OperationPath(j), 2);
  }

  // ---- What the journal's stage tells ----

  /** The journal is being created, or says that nothing was moved for good yet. */
  predicate JournalEarly(fs: Disk, j: Job) {
    && Get(fs, JournalPath(j)).Some? && fs[JournalPath(j)].File?
    && match fs[JournalPath(j)].data
       case Record(journal) => journal.stage in {Reserved, ServicesStopped}
       case Torn(_) => true
       case _ => false
  }

  /** The install root is where it was, or in the archive as a whole with every marker. */
  ghost predicate Unrestored(was: Disk, fs: Disk, j: Job, runners: seq<Path>, markers: seq<string>) {
    || (exists moved: set<string> :: Situated(was, fs, j, runners, markers, {ALL}, moved))
    || Situated(was, fs, j, runners, markers, {}, Elements(markers))
  }

  /** Every marker and the install root are in the archive; some runner trees are back. */
  ghost predicate Restoring(was: Disk, fs: Disk, j: Job, runners: seq<Path>, markers: seq<string>) {
    exists back: set<Path> ::
      (forall s <- back :: s in runners) && Situated(was, fs, j, runners, markers, back, Elements(markers))
  }

  /** At every point after the reservation the journal's stage says how far the moves are. */
  ghost predicate StageTells(was: Disk, fs: Disk, j: Job, runners: seq<Path>, markers: seq<string>) {
    && Get(fs, JournalPath(j)).Some? && fs[JournalPath(j)].File?
    && match fs[JournalPath(j)].data
       case Record(journal) =>
         (match journal.stage
          case Reserved => OnlyRecords(was, fs, j)
          case ServicesStopped => Unrestored(was, fs, j, runners, markers)
          case RuntimeRetired => Restoring(was, fs, j, runners, markers)
          case Decommissioned => Situated(was, fs, j, runners, markers, Elements(runners), Elements(markers))
          case Complete => false)
       case Torn(_) => OnlyRecords(was, fs, j)
       case _ => false
  }

  lemma EarlyTells(was: Disk, fs: Disk, j: Job, runners: seq<Path>, markers: seq<string>)
    requires OnlyRecords(was, fs, j) && Situated(was, fs, j, runners, markers, {ALL}, {}) && JournalEarly(fs, j)
    ensures StageTells(was, fs, j, runners, markers)
  {
  }

  /** The journal says so, and nothing but a record changes. */
  predicate Says(fs: Disk, j: Job, stage: Stage) {
    && Get(fs, JournalPath(j)).Some? && fs[JournalPath(j)].File? && fs[JournalPath(j)].data.Record?
    && fs[JournalPath(j)].data.journal.stage == stage
  }

  /** `update_journal`. */
  method UpdateJournal(h: Host, j: Job, journal: Journal) returns (r: Result<()>)
    requires JobOk(j) && JournalPath(j) in h.fs
    modifies h`fs
    ensures OnlyRecords(old(h.fs), h.fs, j) && JournalPath(j) in h.fs
    ensures h.fs[JournalPath(j)] in {old(h.fs)[JournalPath(j)], File(Record(journal))}
    ensures OperationPath(j) in old(h.fs) ==>
              OperationPath(j) in h.fs && h.fs[OperationPath(j)] == old(h.fs)[OperationPath(j)]
    ensures r.Ok? ==>
              && h.fs[JournalPath(j)] == File(Record(journal))
              && (!Present(old(h.fs), NextPath(j)) ==> !Present(h.fs, NextPath(j)))
    ensures h.quiet && !Present(old(h.fs), NextPath(j)) ==> r.Ok?
  {
    Layout(j);
    var _ :- h.WriteNew(NextPath(j), Record(journal));
    RecordsDiffer(j);
    r := h.Replace(NextPath(j), JournalPath(j));
  }

  /** The two durable reservations. */
  method Reserve(h: Host, j: Job, journal: Journal) returns (r: Result<()>)
    requires JobOk(j)
    modifies h`fs
    ensures OnlyRecords(old(h.fs), h.fs, j) && (h.fs == old(h.fs) || JournalPath(j) in h.fs)
    ensures h.fs != old(h.fs) ==> h.fs[JournalPath(j)] in {File(Record(journal)), File(Torn(Record(journal)))}
    ensures r.Ok? ==> JournalPath(j) in h.fs && h.fs[JournalPath(j)] == File(Record(journal))
    ensures r.Ok? ==> OperationPath(j) in h.fs && h.fs[OperationPath(j)] == File(Apply(j.target))
    ensures !Present(old(h.fs), NextPath(j)) ==> !Present(h.fs, NextPath(j))
    ensures h.quiet && !Reserving(old(h.fs), j) ==> r.Ok?
  {
    Layout(j);
    RecordsDiffer(j);
    r := h.WriteNew(JournalPath(j), Record(journal));
    if r.Ok? {
      r := h.WriteNew(OperationPath(j), Apply(j.target));
    }
  }

  lemma RecordsTwice(a: Disk, b: Disk, c: Disk, j: Job)
    requires OnlyRecords(a, b, j) && OnlyRecords(b, c, j)
    ensures OnlyRecords(a, c, j)
  {
  }

  /** Stop and disable every unit, each action named in the journal first. */
  method StopUnits(h: Host, j: Job, journal: Journal) returns (r: Result<()>)
    requires JobOk(j) && JournalPath(j) in h.fs && OperationPath(j) in h.fs && !Present(h.fs, NextPath(j))
    modifies h
    ensures OnlyRecords(old(h.fs), h.fs, j) && JournalPath(j) in h.fs
    ensures JournalEarly(old(h.fs), j) ==> JournalEarly(h.fs, j)
    ensures OperationPath(j) in h.fs && h.fs[OperationPath(j)] == old(h.fs)[OperationPath(j)]
    ensures Journalled(old(h.calls), h.calls, j)
    ensures r.Ok? ==> DidFirst(old(h.calls), h.calls, journal.units, 2 * |journal.units|) && !Present(h.fs, NextPath(j))
    ensures h.quiet ==> r.Ok?
    ensures journal.units == [] ==> h.fs == old(h.fs) && h.calls == old(h.calls)
  {
    var actions := [StopUnit, DisableUnit];
    assert OnlyRecords(h.fs, h.fs, j);
    hide OnlyRecords, JobOk;
    for i := 0 to 2 * |journal.units|
      invariant OnlyRecords(old(h.fs), h.fs, j) && JournalPath(j) in h.fs && !Present(h.fs, NextPath(j))
      invariant JournalEarly(old(h.fs), j) ==> JournalEarly(h.fs, j)
      invariant OperationPath(j) in h.fs && h.fs[OperationPath(j)] == old(h.fs)[OperationPath(j)]
      invariant Journalled(old(h.calls), h.calls, j) && DidFirst(old(h.calls), h.calls, journal.units, i)
      invariant i == 0 ==> h.fs == old(h.fs) && h.calls == old(h.calls)
    {
      var unit, action := journal.units[i / 2], actions[i % 2];
      ghost var fs := h.fs;
      r := UpdateJournal(h, j, journal.(stage := Reserved, transition := Some((unit, action))));
      RecordsTwice(old(h.fs), fs, h.fs, j);
      if r.Stop? {
        return;
      }
      var _ :- h.Systemctl(unit, action);
    }
    return Ok(());
  }

  lemma MarkerWaits(was: Disk, fs: Disk, j: Job, runners: seq<Path>, markers: seq<string>, moved: set<string>,
                    m: string)
    requires Situated(was, fs, j, runners, markers, {ALL}, moved) && KnownMarkers(was, j, markers) && m in markers
              && m !in moved
    ensures Present(fs, Config(j) + [m])
  {
    InTree(fs, Config(j) + [m]);
  }

  /** Rename the markers into the archive. */
  method MoveMarkers(h: Host, j: Job, runners: seq<Path>, markers: seq<string>, ghost was: Disk) returns (r: Result<()>)
    requires JobOk(j) && Situated(was, h.fs, j, runners, markers, {ALL}, {}) && KnownMarkers(was, j, markers)
    modifies h`fs
    ensures Somewhere(was, h.fs, j, runners, markers) && Unrestored(was, h.fs, j, runners, markers)
    ensures r.Ok? ==> Situated(was, h.fs, j, runners, markers, {ALL}, Elements(markers))
    ensures RecordsStay(old(h.fs), h.fs, j) && (h.quiet ==> r.Ok?)
    ensures Get(h.fs, Archive(j)) == Get(old(h.fs), Archive(j))
  {
    ghost var moved: set<string> := {};
    hide Situated, JobOk;
    Here(was, h.fs, j, runners, markers, {ALL}, {});
    for i := 0 to |markers|
      invariant Situated(was, h.fs, j, runners, markers, {ALL}, moved) && Somewhere(was, h.fs, j, runners, markers)
      invariant moved == Elements(markers[..i])
      invariant RecordsStay(old(h.fs), h.fs, j) && Get(h.fs, Archive(j)) == Get(old(h.fs), Archive(j))
    {
      var m := markers[i];

      MovedMarker(was, h.fs, j, runners, markers, moved, m);
      MarkerWaits(was, h.fs, j, runners, markers, moved, m);
      JournalStays(h.fs, j, Config(j) + [m], Archive(j) + [m]);
      MarkerLeavesArchive(h.fs, j, m);
      Here(was, Renamed(h.fs, Config(j) + [m], Archive(j) + [m]), j, runners, markers, {ALL}, moved + {m});
      var _ :- h.Rename(Config(j) + [m], Archive(j) + [m]);
      moved := moved + {m};
    }
    assert markers[..|markers|] == markers;
    return Ok(());
  }

  /** The two records are as they were, and no half-written one appeared. */
  predicate RecordsStay(a: Disk, b: Disk, j: Job) {
    && Get(b, JournalPath(j)) == Get(a, JournalPath(j)) && Get(b, OperationPath(j)) == Get(a, OperationPath(j))
    && (!Present(a, NextPath(j)) ==> !Present(b, NextPath(j)))
  }

  /** No rename of a tree or a marker disturbs the records. */
  lemma JournalStays(fs: Disk, j: Job, a: Path, b: Path)
    requires Apart(a, b) && !Present(fs, b) && a != [] && b != [] && a[0] in {"opt", "etc"} && b[0] in {"opt", "etc"}
    ensures RecordsStay(fs, Renamed(fs, a, b), j)
  {
    assert "opt"[0] == 'o' && "etc"[0] == 'e' && "var"[0] == 'v';
    DifferAt(JournalPath(j), a, 0);
    DifferAt(JournalPath(j), b, 0);
    DifferAt(OperationPath(j), a, 0);
    DifferAt(OperationPath(j), b, 0);
    DifferAt(NextPath(j), b, 0);
    RenamedGet(fs, a, b, JournalPath(j));
    RenamedGet(fs, a, b, OperationPath(j));
    RenamedMoves(fs, a, b);
    if !Present(fs, NextPath(j)) {
      StaysFree(fs, Renamed(fs, a, b), a, b, NextPath(j));
    }
  }

  /** Nor is the archive itself. */
  lemma ArchiveStands(fs: Disk, j: Job, a: Path, b: Path)
    requires Apart(a, b) && !Present(fs, b) && !Under(Archive(j), a) && !Under(Archive(j), b)
    ensures Get(Renamed(fs, a, b), Archive(j)) == Get(fs, Archive(j))
  {
    RenamedGet(fs, a, b, Archive(j));
  }

  lemma MarkerLeavesArchive(fs: Disk, j: Job, m: string)
    requires Apart(Config(j) + [m], Archive(j) + [m]) && !Present(fs, Archive(j) + [m])
    ensures Get(Renamed(fs, Config(j) + [m], Archive(j) + [m]), Archive(j)) == Get(fs, Archive(j))
  {
    ArchiveStands(fs, j, Config(j) + [m], Archive(j) + [m]);
  }

  /** Nor does a new directory. */
  lemma DirectoryStays(fs: Disk, j: Job, p: Path)
    requires p != [] && p[0] in {"opt", "etc"}
    ensures RecordsStay(fs, fs[p := Dir], j)
  {
    assert "opt"[0] == 'o' && "etc"[0] == 'e' && "var"[0] == 'v';
  }

  /** Rename the install root into the archive. */
  method MoveRuntime(h: Host, j: Job, runners: seq<Path>, markers: seq<string>, ghost was: Disk) returns (r: Result<()>)
    requires JobOk(j) && Situated(was, h.fs, j, runners, markers, {ALL}, Elements(markers))
    requires (forall m <- markers :: m in MARKERS) && Get(was, Install(j)) == Some(Dir)
    modifies h`fs
    ensures Somewhere(was, h.fs, j, runners, markers) && RecordsStay(old(h.fs), h.fs, j)
    ensures Unrestored(was, h.fs, j, runners, markers) && Get(h.fs, Archive(j)) == Get(old(h.fs), Archive(j))
    ensures r.Ok? ==> Situated(was, h.fs, j, runners, markers, {}, Elements(markers)) && !Present(h.fs, Install(j))
    ensures h.quiet ==> r.Ok?
  {
    ghost var moved := Elements(markers);
    MovedRuntime(was, h.fs, j, runners, markers, moved);
    JournalStays(h.fs, j, Install(j), Runtime(j));
    ArchiveStands(h.fs, j, Install(j), Runtime(j));
    RuntimeWaits(was, h.fs, j, runners);
    hide Situated, JobOk, Renamed;
    Here(was, h.fs, j, runners, markers, {ALL}, moved);
    Here(was, Renamed(h.fs, Install(j), Runtime(j)), j, runners, markers, {}, moved);
    r := h.Rename(Install(j), Runtime(j));
  }

  lemma RuntimeWaits(was: Disk, fs: Disk, j: Job, runners: seq<Path>)
    requires JobOk(j) && Placed(was, fs, j, runners, {ALL}) && Get(was, Install(j)) == Some(Dir)
    requires Apart(Install(j), Runtime(j)) && !Present(fs, Runtime(j))
    ensures Present(fs, Install(j)) && !Present(Renamed(fs, Install(j), Runtime(j)), Install(j))
  {
    assert Under(ALL, ALL) && Home(ALL, {ALL}) && Install(j) + ALL == Install(j);
    InTree(fs, Install(j));
    var fs' := Renamed(fs, Install(j), Runtime(j));
    forall q | q in fs'
      ensures !Under(q, Install(j))
    {
      RenamedGet(fs, Install(j), Runtime(j), q);
      if Under(q, Install(j)) {
        ApartBelow(Install(j), Runtime(j), q);
      }
    }
  }

  /** The install root and the directories that lead to a runner root. */
  method MakeScaffold(h: Host, j: Job, runners: seq<Path>, markers: seq<string>, ghost was: Disk,
                      ghost back: set<Path>, ghost moved: set<string>, q: Path) returns (r: Result<()>)
    requires JobOk(j) && Situated(was, h.fs, j, runners, markers, back, moved)
    requires Scaffold(q, runners) && !Home(q, back) && ALL !in back && Fits(runners, back)
    modifies h`fs
    ensures Situated(was, h.fs, j, runners, markers, back, moved) && Somewhere(was, h.fs, j, runners, markers)
    ensures RecordsStay(old(h.fs), h.fs, j) && (h.quiet ==> (r.Ok? <==> Install(j) + q !in old(h.fs)))
    ensures h.fs == old(h.fs) || h.fs == old(h.fs)[Install(j) + q := Dir]
    ensures r.Ok? ==> h.fs == old(h.fs)[Install(j) + q := Dir]
  {
    hide Scaffold, Home;
    DirectoryStays(h.fs, j, Install(j) + q);
    if Install(j) + q !in h.fs {
      MadeScaffold(was, h.fs, j, runners, markers, back, moved, q);
    }
    hide Situated, JobOk;
    r := h.Mkdir(Install(j) + q);
    Here(was, h.fs, j, runners, markers, back, moved);
  }

  /** A directory that leads to a runner root, unless it is there. */
  method MakeLeading(h: Host, j: Job, runners: seq<Path>, markers: seq<string>, ghost was: Disk,
                     ghost back: set<Path>, ghost moved: set<string>, q: Path) returns (r: Result<()>)
    requires JobOk(j) && Situated(was, h.fs, j, runners, markers, back, moved)
    requires Scaffold(q, runners) && !Home(q, back) && ALL !in back && forall s <- back :: s in runners
    modifies h`fs
    ensures Situated(was, h.fs, j, runners, markers, back, moved) && Somewhere(was, h.fs, j, runners, markers)
    ensures moved == Elements(markers) ==> Restoring(was, h.fs, j, runners, markers)
    ensures RecordsStay(old(h.fs), h.fs, j) && OnlyMore(old(h.fs), h.fs) && (h.quiet ==> r.Ok?)
    ensures Get(h.fs, Archive(j)) == Get(old(h.fs), Archive(j))
    ensures r.Ok? ==> Get(h.fs, Install(j) + q) == Some(Dir)
  {
    NotArchive(j, q);
    RecordsStayTwice(h.fs, h.fs, h.fs, j);
    if Install(j) + q in h.fs {
      ScaffoldIsDir(was, h.fs, j, runners, markers, back, moved, q);
      Here(was, h.fs, j, runners, markers, back, moved);
      HereRestoring(was, h.fs, j, runners, markers, back, moved);
      return Ok(());
    }
    hide Situated, JobOk, Scaffold, Home, RecordsStay;
    r := MakeScaffold(h, j, runners, markers, was, back, moved, q);
    HereRestoring(was, h.fs, j, runners, markers, back, moved);
  }

  /** Rename one runner tree back. */
  method BringBack(h: Host, j: Job, runners: seq<Path>, markers: seq<string>, ghost was: Disk,
                   ghost back: set<Path>, ghost moved: set<string>, root: Path) returns (r: Result<()>)
    requires JobOk(j) && Situated(was, h.fs, j, runners, markers, back, moved) && Present(was, Install(j) + root)
    requires root in runners && (forall s <- runners :: s in j.specs) && root !in back
              && (forall s <- back :: s in runners)
    requires forall m <- markers :: m in MARKERS && m in moved
    modifies h`fs
    ensures Somewhere(was, h.fs, j, runners, markers) && RecordsStay(old(h.fs), h.fs, j) && (h.quiet ==> r.Ok?)
    ensures moved == Elements(markers) ==> Restoring(was, h.fs, j, runners, markers)
    ensures r.Ok? ==> Situated(was, h.fs, j, runners, markers, back + {root}, moved)
    ensures Get(h.fs, Install(j)) == Get(old(h.fs), Install(j)) && Get(h.fs, Archive(j)) == Get(old(h.fs), Archive(j))
    ensures forall s <- back + {root} :: Led(old(h.fs), j, s) ==> Led(h.fs, j, s)
  {
    MovedRunner(was, h.fs, j, runners, markers, back, moved, root);
    RunnerWaits(was, h.fs, j, runners, markers, back, moved, root);
    JournalStays(h.fs, j, Runtime(j) + root, Install(j) + root);
    RenamedMoves(h.fs, Runtime(j) + root, Install(j) + root);
    LedStays(h.fs, Renamed(h.fs, Runtime(j) + root, Install(j) + root), j, root, back + {root});
    hide Situated, JobOk, Renamed, Moves, Led;
    Here(was, h.fs, j, runners, markers, back, moved);
    HereRestoring(was, h.fs, j, runners, markers, back, moved);
    Here(was, Renamed(h.fs, Runtime(j) + root, Install(j) + root), j, runners, markers, back + {root}, moved);
    HereRestoring(was, Renamed(h.fs, Runtime(j) + root, Install(j) + root), j, runners, markers, back + {root}, moved);
    RecordsStayTwice(h.fs, h.fs, h.fs, j);
    r := h.Rename(Runtime(j) + root, Install(j) + root);
  }

  /** Bring one runner tree back, below the directories that lead to it. */
  method RestoreRunner(h: Host, j: Job, runners: seq<Path>, markers: seq<string>, ghost was: Disk,
                       ghost back: set<Path>, ghost moved: set<string>, root: Path) returns (r: Result<()>)
    requires JobOk(j) && Situated(was, h.fs, j, runners, markers, back, moved)
    requires root in runners && (forall s <- runners :: s in j.specs) && root !in back
              && (forall s <- back :: s in runners) && ALL !in back
    requires forall m <- markers :: m in MARKERS && m in moved
    requires Present(was, Install(j) + root) && Get(h.fs, Install(j)) == Some(Dir)
    modifies h`fs
    ensures Somewhere(was, h.fs, j, runners, markers) && RecordsStay(old(h.fs), h.fs, j)
    ensures moved == Elements(markers) ==> Restoring(was, h.fs, j, runners, markers)
    ensures r.Ok? ==> Situated(was, h.fs, j, runners, markers, back + {root}, moved)
    // The directories that lead to the runner root are there, and every directory that was.
    ensures r.Ok? ==> Led(h.fs, j, root) && Get(h.fs, Install(j)) == Some(Dir)
    ensures r.Ok? ==> forall s <- back :: Led(old(h.fs), j, s) ==> Led(h.fs, j, s)
    ensures Get(h.fs, Archive(j)) == Get(old(h.fs), Archive(j))
    ensures h.quiet ==> r.Ok?
  {
    hide Situated, JobOk, RecordsStay, Somewhere, Restoring, Led, OnlyMore, Scaffold, Home;
    LedNothing(h.fs, j, root);
    RecordsStayTwice(h.fs, h.fs, h.fs, j);
    MoreTwice(h.fs, h.fs, h.fs);
    Here(was, h.fs, j, runners, markers, back, moved);
    for k := 0 to |root|
      invariant Situated(was, h.fs, j, runners, markers, back, moved) && Somewhere(was, h.fs, j, runners, markers)
      invariant RecordsStay(old(h.fs), h.fs, j) && OnlyMore(old(h.fs), h.fs)
      invariant LedTo(h.fs, j, root, k) && Get(h.fs, Archive(j)) == Get(old(h.fs), Archive(j))
    {
      ghost var fs := h.fs;
      LeadsOnly(j, runners, back, root, k);
      r := MakeLeading(h, j, runners, markers, was, back, moved, root[..k]);
      RecordsStayTwice(old(h.fs), fs, h.fs, j);
      MoreTwice(old(h.fs), fs, h.fs);
      if r.Stop? {
        return;
      }
      LedMore(fs, h.fs, j, root, k);
    }
    ghost var fs := h.fs;
    LedStill(old(h.fs), h.fs, j, root, back);
    r := BringBack(h, j, runners, markers, was, back, moved, root);
    RecordsStayTwice(old(h.fs), fs, h.fs, j);
  }

  lemma HereRestoring(was: Disk, fs: Disk, j: Job, runners: seq<Path>, markers: seq<string>, back: set<Path>,
                      moved: set<string>)
    requires (forall s <- back :: s in runners) && Situated(was, fs, j, runners, markers, back, moved)
    ensures moved == Elements(markers) ==> Restoring(was, fs, j, runners, markers)
  {
  }

  /** The directories that lead to this runner root. */
  ghost predicate Led(fs: Disk, j: Job, r: Path) {
    LedTo(fs, j, r, |r|)
  }

  ghost predicate LedTo(fs: Disk, j: Job, r: Path, n: nat) {
    n <= |r| && forall k :: 0 <= k < n ==> Get(fs, Install(j) + r[..k]) == Some(Dir)
  }

  lemma LedNothing(fs: Disk, j: Job, r: Path)
    ensures LedTo(fs, j, r, 0) && Install(j) + r[..0] == Install(j)
  {
  }

  lemma LedMore(a: Disk, b: Disk, j: Job, r: Path, n: nat)
    requires LedTo(a, j, r, n) && OnlyMore(a, b) && n < |r| && Get(b, Install(j) + r[..n]) == Some(Dir)
    ensures LedTo(b, j, r, n + 1)
  {
  }

  lemma LedStill(a: Disk, b: Disk, j: Job, root: Path, back: set<Path>)
    requires OnlyMore(a, b) && LedTo(b, j, root, |root|) && Get(a, Install(j)) == Some(Dir)
    ensures Led(b, j, root) && Get(b, Install(j)) == Some(Dir)
    ensures forall s <- back :: Led(a, j, s) ==> Led(b, j, s)
  {
  }

  /** Whatever was there still is. */
  ghost predicate OnlyMore(a: Disk, b: Disk) {
    forall p :: p in a ==> p in b && b[p] == a[p]
  }

  lemma MoreTwice(a: Disk, b: Disk, c: Disk)
    ensures OnlyMore(a, a)
    ensures OnlyMore(a, b) && OnlyMore(b, c) ==> OnlyMore(a, c)
  {
  }

  lemma NotArchive(j: Job, q: Path)
    requires JobOk(j)
    ensures Install(j) + q != Archive(j)
  {
    DifferAt(Install(j), Archive(j), 1);
    assert Under(Install(j) + q, Install(j));
  }

  lemma ScaffoldIsDir(was: Disk, fs: Disk, j: Job, runners: seq<Path>, markers: seq<string>, back: set<Path>,
                      moved: set<string>, q: Path)
    requires Situated(was, fs, j, runners, markers, back, moved) && !Home(q, back) && Install(j) + q in fs
    ensures Get(fs, Install(j) + q) == Some(Dir)
  {
  }

  /** Bringing a runner root back leaves the leading directories and the archive alone. */
  lemma LedStays(fs: Disk, fs': Disk, j: Job, root: Path, back: set<Path>)
    requires JobOk(j) && root in j.specs && (forall s <- back :: s in j.specs)
    requires Moves(fs, fs', Runtime(j) + root, Install(j) + root)
    ensures forall s <- back :: Led(fs, j, s) ==> Led(fs', j, s)
    ensures Get(fs', Install(j)) == Get(fs, Install(j)) && Get(fs', Archive(j)) == Get(fs, Archive(j))
  {
    forall s, k | s in back && 0 <= k < |s|
      ensures Get(fs', Install(j) + s[..k]) == Get(fs, Install(j) + s[..k])
    {
      NotUnderRoot(j, root, s, k);
    }
    Layout(j);
    assert Install(j) != [] && |Runtime(j) + root| > |Archive(j)| && |Install(j) + root| > |Install(j)|;
    DifferAt(Install(j), Runtime(j) + root, 1);
    DifferAt(Archive(j), Install(j) + root, 1);
  }

  lemma NotUnderRoot(j: Job, root: Path, s: Path, k: nat)
    requires JobOk(j) && root in j.specs && s in j.specs && k < |s|
    ensures !Under(Install(j) + s[..k], Install(j) + root) && !Under(Install(j) + s[..k], Runtime(j) + root)
  {
    Layout(j);
    DifferAt(Install(j) + s[..k], Runtime(j) + root, 1);
    Shared(Install(j), s[..k], root);
    if Under(s[..k], root) {
      Through(s, s[..k], root);
    }
  }

  lemma RunnerWaits(was: Disk, fs: Disk, j: Job, runners: seq<Path>, markers: seq<string>, back: set<Path>,
                    moved: set<string>, r: Path)
    requires JobOk(j) && Situated(was, fs, j, runners, markers, back, moved) && Present(was, Install(j) + r)
    requires r in runners && (forall s <- runners :: s in j.specs) && r !in back && (forall s <- back :: s in runners)
    ensures Present(fs, Runtime(j) + r)
  {
    hide MarkersPlaced, Elsewhere, Free;
    var p :| p in was && Under(p, Install(j) + r);
    Deeper(p, Install(j), r);
    var q := p[|Install(j)|..];
    assert p == Install(j) + q;
    Shared(Install(j), q, r);
    if s :| s in back && Under(q, s) {
      Nested(r, s, q);
    }
    assert !Home(q, back) && Get(fs, Runtime(j) + q).Some?;
    Shared(Runtime(j), q, r);
  }

  lemma LeadsOnly(j: Job, runners: seq<Path>, back: set<Path>, r: Path, k: nat)
    requires JobOk(j) && r in runners && (forall s <- runners :: s in j.specs) && r !in back
              && (forall s <- back :: s in runners)
    requires k < |r|
    ensures Scaffold(r[..k], runners) && !Home(r[..k], back)
  {
    assert Under(r, r[..k]);
    forall s | s in back && Under(r[..k], s)
      ensures false
    {
      Through(r, r[..k], s);
    }
  }

  lemma RecordsStayTwice(a: Disk, b: Disk, c: Disk, j: Job)
    ensures RecordsStay(a, a, j)
    ensures RecordsStay(a, b, j) && RecordsStay(b, c, j) ==> RecordsStay(a, c, j)
  {
  }

  lemma NextElement<T>(s: seq<T>, i: nat)
    requires i < |s|
    ensures Elements(s[..i + 1]) == Elements(s[..i]) + {s[i]}
  {
    assert s[..i + 1] == s[..i] + [s[i]];
  }

  lemma RootLeads(fs: Disk, j: Job, runners: seq<Path>)
    requires JobOk(j) && !Present(fs, Install(j)) && forall s <- runners :: s in j.specs
    ensures Install(j) + ALL == Install(j) && Install(j) != Archive(j) && Install(j) !in fs
    ensures Scaffold(ALL, runners) && !Home(ALL, {}) && forall s <- runners :: s != ALL
  {
    NotArchive(j, ALL);
    assert Install(j) + ALL == Install(j) && Under(Install(j), Install(j));
  }

  lemma NoElement<T>(s: seq<T>)
    ensures Elements(s[..0]) == {}
  {
  }

  lemma ElementsWithin<T>(s: seq<T>, i: nat)
    requires i <= |s|
    ensures forall x :: x in Elements(s[..i]) <==> exists k :: 0 <= k < i && s[k] == x
  {
  }

  method RestoreRunners(h: Host, j: Job, runners: seq<Path>, markers: seq<string>, ghost was: Disk,
                        ghost moved: set<string>) returns (r: Result<()>)
    requires JobOk(j) && Situated(was, h.fs, j, runners, markers, {}, moved)
    requires (forall s <- runners :: s in j.specs) && forall a, b :: 0 <= a < b < |runners| ==> runners[a] != runners[b]
    requires forall m <- markers :: m in MARKERS && m in moved
    requires !Present(h.fs, Install(j)) && forall s <- runners :: Present(was, Install(j) + s)
    modifies h`fs
    ensures Somewhere(was, h.fs, j, runners, markers) && RecordsStay(old(h.fs), h.fs, j)
    ensures moved == Elements(markers) ==> Restoring(was, h.fs, j, runners, markers)
    ensures r.Ok? ==> Situated(was, h.fs, j, runners, markers, Elements(runners), moved)
    ensures r.Ok? ==> Get(h.fs, Install(j)) == Some(Dir) && forall s <- runners :: Led(h.fs, j, s)
    ensures Get(h.fs, Archive(j)) == Get(old(h.fs), Archive(j))
    ensures h.quiet ==> r.Ok?
  {
    hide Situated, JobOk, Scaffold, RecordsStay, Led, Restoring, Somewhere, Elements, Home, Present;
    ghost var back: set<Path> := {};
    RootLeads(h.fs, j, runners);
    RecordsStayTwice(h.fs, h.fs, h.fs, j);
    r := MakeScaffold(h, j, runners, markers, was, back, moved, ALL);
    HereRestoring(was, h.fs, j, runners, markers, back, moved);
    if r.Stop? {
      return;
    }
    NoElement(runners);
    for i := 0 to |runners|
      invariant Situated(was, h.fs, j, runners, markers, back, moved) && Somewhere(was, h.fs, j, runners, markers)
      invariant moved == Elements(markers) ==> Restoring(was, h.fs, j, runners, markers)
      invariant RecordsStay(old(h.fs), h.fs, j) && Get(h.fs, Archive(j)) == Get(old(h.fs), Archive(j))
      invariant back == Elements(runners[..i]) && Get(h.fs, Install(j)) == Some(Dir)
      invariant forall s <- back :: Led(h.fs, j, s)
    {
      ElementsWithin(runners, i);
      ghost var fs := h.fs;
      r := RestoreRunner(h, j, runners, markers, was, back, moved, runners[i]);
      RecordsStayTwice(old(h.fs), fs, h.fs, j);
      if r.Stop? {
        return;
      }
      NextElement(runners, i);
      back := back + {runners[i]};
    }
    assert runners[..|runners|] == runners;
    ElementsWithin(runners, |runners|);
    return Ok(());
  }

  /** What `decommission` needs of the disk. */
  predicate Retirable(fs: Disk, j: Job) {
    && Get(fs, Install(j)) == Some(Dir) && j.source != j.target && !Present(fs, Archive(j))
    && !Present(fs, JournalPath(j)) && !Present(fs, NextPath(j)) && !Present(fs, OperationPath(j))
    && forall m <- MARKERS :: Present(fs, Config(j) + [m]) ==> Config(j) + [m] in fs && fs[Config(j) + [m]].File?
  }

  /** What moves, and when a path is asked for. */
  method Prepare(h: Host, j: Job, runners: seq<Path>, markers: seq<string>, units: seq<string>)
      returns (r: Result<Journal>)
    requires markers == MarkersOf(h.fs, j)
    ensures r.Ok? ==> KnownMarkers(h.fs, j, markers) && !Present(h.fs, Archive(j)) && !Reserving(h.fs, j)
    ensures r.Ok? ==> r.value == Journal(Reserved, j.source, j.target, j.binding, runners, markers, units, None)
    ensures r.Ok? ==> Retirable(h.fs, j)
    ensures h.quiet ==> (r.Ok? <==> Retirable(h.fs, j) && h.agrees(Inventory) && h.agrees(Quiescent))
  {
    var proven :- Ask(h.quiet, h.agrees(Inventory));
    if !proven || Get(h.fs, Install(j)) != Some(Dir) || Reserving(h.fs, j) {
      return Stop(Raised);
    }
    if j.source == j.target || Present(h.fs, Archive(j)) {
      return Stop(Raised);
    }
    if exists m <- markers :: Config(j) + [m] !in h.fs || !h.fs[Config(j) + [m]].File? {
      return Stop(Raised);
    }
    var quiescent :- Ask(h.quiet, h.agrees(Quiescent));
    if !quiescent {
      return Stop(Raised);
    }
    return Ok(Journal(Reserved, j.source, j.target, j.binding, runners, markers, units, None));
  }

  /** Both reservations are on disk. */
  predicate StillReserved(fs: Disk, j: Job, journal: Journal) {
    Get(fs, JournalPath(j)) == Some(File(Record(journal))) && Get(fs, OperationPath(j)) == Some(File(Apply(j.target)))
  }

  /** From the reservation to stopped services. */
  method StopServices(h: Host, j: Job, journal: Journal) returns (r: Result<()>)
    requires JobOk(j) && !Reserving(h.fs, j) && journal.stage == Reserved
    modifies h
    ensures OnlyRecords(old(h.fs), h.fs, j) && (h.fs == old(h.fs) || JournalPath(j) in h.fs)
    ensures Journalled(old(h.calls), h.calls, j)
    ensures r.Ok? ==>
              JournalPath(j) in h.fs && OperationPath(j) in h.fs && h.fs[OperationPath(j)] == File(Apply(j.target))
    ensures r.Ok? ==> DidFirst(old(h.calls), h.calls, journal.units, 2 * |journal.units|) && !Present(h.fs, NextPath(j))
    ensures (r.Ok? ==> journal.units != []) && (h.quiet ==> (r.Ok? <==> journal.units != [] && h.agrees(Stopped)))
    ensures r.Ok? ==> Get(h.fs, JournalPath(j)) == Some(File(Record(journal.(stage := ServicesStopped))))
    ensures h.fs != old(h.fs) ==> JournalEarly(h.fs, j)
    ensures h.quiet ==>
              && DidFirst(old(h.calls), h.calls, journal.units, 2 * |journal.units|) && JournalPath(j) in h.fs
              && Get(h.fs, OperationPath(j)) == Some(File(Apply(j.target)))
    ensures h.quiet && journal.units == [] ==>
              r.Stop? && StillReserved(h.fs, j, journal) && h.calls == old(h.calls)
  {
    hide OnlyRecords;
    var _ :- Reserve(h, j, journal);
    ghost var fs := h.fs;
    r := StopUnits(h, j, journal);
    RecordsTwice(old(h.fs), fs, h.fs, j);
    if r.Stop? {
      return;
    }
    var stopped :- Ask(h.quiet, h.agrees(Stopped));
    if !stopped || journal.units == [] {   // without a unit there is no transition to take out
      return Stop(Raised);
    }
    fs := h.fs;
    r := UpdateJournal(h, j, journal.(stage := ServicesStopped));
    RecordsTwice(old(h.fs), fs, h.fs, j);
  }

  /** `update_journal` in the middle of the moves. */
  method Advance(h: Host, j: Job, journal: Journal, runners: seq<Path>, markers: seq<string>, ghost was: Disk,
                 ghost back: set<Path>, ghost moved: set<string>) returns (r: Result<()>)
    requires JobOk(j) && Situated(was, h.fs, j, runners, markers, back, moved) && Fits(runners, back)
    requires JournalPath(j) in h.fs && OperationPath(j) in h.fs && !Present(h.fs, NextPath(j))
    modifies h`fs
    ensures Situated(was, h.fs, j, runners, markers, back, moved) && Somewhere(was, h.fs, j, runners, markers)
    ensures JournalPath(j) in h.fs && OperationPath(j) in h.fs
              && (!Present(old(h.fs), Install(j)) ==> !Present(h.fs, Install(j)))
    ensures h.fs[JournalPath(j)] in {old(h.fs)[JournalPath(j)], File(Record(journal))}
    ensures OnlyRecords(old(h.fs), h.fs, j)
    ensures h.fs[OperationPath(j)] == old(h.fs)[OperationPath(j)] && (h.quiet ==> r.Ok?)
    ensures r.Ok? ==> h.fs[JournalPath(j)] == File(Record(journal)) && !Present(h.fs, NextPath(j))
  {
    hide Situated, OnlyRecords;
    r := UpdateJournal(h, j, journal);
    assert Install(j) + [] == Install(j);
    if !Present(old(h.fs), Install(j)) {
      RecordsStayFree(old(h.fs), h.fs, j, Install(j), []);
    }
    RecordsApart(was, old(h.fs), h.fs, j, runners, markers, back, moved);
    Here(was, h.fs, j, runners, markers, back, moved);
  }

  lemma SaysStays(a: Disk, b: Disk, j: Job, stage: Stage)
    requires RecordsStay(a, b, j) && Says(a, j, stage)
    ensures Says(b, j, stage)
  {
  }

  lemma StoppedTells(was: Disk, fs: Disk, j: Job, runners: seq<Path>, markers: seq<string>)
    requires Says(fs, j, ServicesStopped) && Unrestored(was, fs, j, runners, markers)
    ensures StageTells(was, fs, j, runners, markers)
  {
  }

  lemma RetiredTells(was: Disk, fs: Disk, j: Job, runners: seq<Path>, markers: seq<string>)
    requires Says(fs, j, RuntimeRetired) && Restoring(was, fs, j, runners, markers)
    ensures StageTells(was, fs, j, runners, markers)
  {
  }

  lemma NotMovedYet(was: Disk, fs: Disk, j: Job, runners: seq<Path>, markers: seq<string>)
    requires Situated(was, fs, j, runners, markers, {ALL}, {})
    ensures Unrestored(was, fs, j, runners, markers)
  {
  }

  lemma AllMoved(was: Disk, fs: Disk, j: Job, runners: seq<Path>, markers: seq<string>)
    requires Situated(was, fs, j, runners, markers, {}, Elements(markers))
    ensures Unrestored(was, fs, j, runners, markers) && Restoring(was, fs, j, runners, markers)
  {
    var back: set<Path> := {};
    assert Situated(was, fs, j, runners, markers, back, Elements(markers));
  }

  lemma AllBack(was: Disk, fs: Disk, j: Job, runners: seq<Path>, markers: seq<string>)
    requires Situated(was, fs, j, runners, markers, Elements(runners), Elements(markers))
    ensures Restoring(was, fs, j, runners, markers)
  {
  }

  /** Markers and install root go into a new archive. */
  method Retire(h: Host, j: Job, journal: Journal, runners: seq<Path>, markers: seq<string>, ghost was: Disk)
      returns (r: Result<()>)
    requires JobOk(j) && Situated(was, h.fs, j, runners, markers, {ALL}, {}) && KnownMarkers(was, j, markers)
    requires Says(h.fs, j, ServicesStopped) && Get(h.fs, OperationPath(j)) == Some(File(Apply(j.target)))
    requires !Present(h.fs, NextPath(j)) && !Present(h.fs, Archive(j)) && Get(was, Install(j)) == Some(Dir)
    modifies h`fs
    ensures Somewhere(was, h.fs, j, runners, markers) && StageTells(was, h.fs, j, runners, markers)
    ensures (h.quiet ==> r.Ok?) && (r.Ok? ==> !Present(h.fs, NextPath(j)) && Get(h.fs, Archive(j)) == Some(Dir))
    ensures r.Ok? ==> Situated(was, h.fs, j, runners, markers, {}, Elements(markers)) && !Present(h.fs, Install(j))
    ensures r.Ok? ==> Get(h.fs, JournalPath(j)) == Some(File(Record(journal.(stage := RuntimeRetired))))
    ensures r.Ok? ==> Get(h.fs, OperationPath(j)) == Some(File(Apply(j.target)))
  {
    hide Situated, JobOk, Unrestored, Restoring, Somewhere, StageTells, RecordsStay, Says, OnlyRecords;
    ghost var fs := h.fs;
    r := MakeArchive(h, j, runners, markers, was);
    SaysStays(fs, h.fs, j, ServicesStopped);
    NotMovedYet(was, h.fs, j, runners, markers);
    StoppedTells(was, h.fs, j, runners, markers);
    if r.Stop? {
      return;
    }
    ghost var fs1 := h.fs;
    r := MoveMarkers(h, j, runners, markers, was);
    SaysStays(fs1, h.fs, j, ServicesStopped);
    StoppedTells(was, h.fs, j, runners, markers);
    if r.Stop? {
      return;
    }
    ghost var fs2 := h.fs;
    r := MoveRuntime(h, j, runners, markers, was);
    SaysStays(fs2, h.fs, j, ServicesStopped);
    StoppedTells(was, h.fs, j, runners, markers);
    if r.Stop? {
      return;
    }
    ghost var fs3 := h.fs;
    RecordsTriple(fs, fs1, fs2, fs3, j);
    RecordsAre(fs, fs3, j);
    r := Advance(h, j, journal.(stage := RuntimeRetired), runners, markers, was, {}, Elements(markers));
    AllMoved(was, h.fs, j, runners, markers);
    AdvanceTells(was, fs3, h.fs, j, runners, markers, journal);
    RecordsLeaveTrees(fs3, h.fs, j, []);
  }

  lemma RecordsTriple(a: Disk, b: Disk, c: Disk, d: Disk, j: Job)
    requires RecordsStay(a, b, j) && RecordsStay(b, c, j) && RecordsStay(c, d, j)
    ensures RecordsStay(a, d, j)
  {
  }

  lemma RecordsAre(a: Disk, b: Disk, j: Job)
    requires RecordsStay(a, b, j)
    ensures Get(b, JournalPath(j)) == Get(a, JournalPath(j)) && Get(b, OperationPath(j)) == Get(a, OperationPath(j))
    ensures !Present(a, NextPath(j)) ==> !Present(b, NextPath(j))
  {
  }

  lemma AdvanceTells(was: Disk, a: Disk, b: Disk, j: Job, runners: seq<Path>, markers: seq<string>, journal: Journal)
    requires Says(a, j, ServicesStopped) && JournalPath(j) in b
    requires b[JournalPath(j)] in {a[JournalPath(j)], File(Record(journal.(stage := RuntimeRetired)))}
    requires Unrestored(was, b, j, runners, markers) && Restoring(was, b, j, runners, markers)
    ensures StageTells(was, b, j, runners, markers)
  {
    hide Unrestored, Restoring;
  }

  lemma FinishTells(was: Disk, a: Disk, b: Disk, j: Job, runners: seq<Path>, markers: seq<string>, journal: Journal)
    requires Says(a, j, RuntimeRetired) && JournalPath(j) in b
    requires b[JournalPath(j)] in {a[JournalPath(j)], File(Record(journal.(stage := Decommissioned)))}
    requires Situated(was, b, j, runners, markers, Elements(runners), Elements(markers))
    ensures StageTells(was, b, j, runners, markers)
  {
    AllBack(was, b, j, runners, markers);
    hide Situated, Restoring;
  }

  lemma RecordsLeaveTrees(a: Disk, b: Disk, j: Job, runners: seq<Path>)
    requires JobOk(j) && OnlyRecords(a, b, j)
    ensures Get(b, Install(j)) == Get(a, Install(j)) && Get(b, Archive(j)) == Get(a, Archive(j))
    ensures forall s <- runners :: Led(a, j, s) ==> Led(b, j, s)
  {
    assert Under(Install(j), Install(j)) && Under(Archive(j), Archive(j));
    RecordFree(j, Install(j), Install(j));
    RecordFree(j, Archive(j), Archive(j));
    forall s, k | s in runners && 0 <= k < |s|
      ensures Get(b, Install(j) + s[..k]) == Get(a, Install(j) + s[..k])
    {
      assert Under(Install(j) + s[..k], Install(j));
      RecordFree(j, Install(j), Install(j) + s[..k]);
    }
  }

  /** The moves themselves. */
  method MoveAside(h: Host, j: Job, journal: Journal, runners: seq<Path>, markers: seq<string>, ghost was: Disk)
      returns (r: Result<()>)
    requires JobOk(j) && Situated(was, h.fs, j, runners, markers, {ALL}, {}) && KnownMarkers(was, j, markers)
    requires (forall s <- runners :: s in j.specs) && forall a, b :: 0 <= a < b < |runners| ==> runners[a] != runners[b]
    requires Says(h.fs, j, ServicesStopped) && Get(h.fs, OperationPath(j)) == Some(File(Apply(j.target)))
    requires !Present(h.fs, NextPath(j)) && !Present(h.fs, Archive(j)) && Get(was, Install(j)) == Some(Dir)
              && forall s <- runners :: Present(was, Install(j) + s)
    modifies h`fs
    ensures h.quiet ==> r.Ok?
    ensures Somewhere(was, h.fs, j, runners, markers) && StageTells(was, h.fs, j, runners, markers)
    ensures r.Ok? ==> Situated(was, h.fs, j, runners, markers, Elements(runners), Elements(markers))
    ensures r.Ok? ==> Get(h.fs, JournalPath(j)) == Some(File(Record(journal.(stage := Decommissioned))))
                      && Get(h.fs, OperationPath(j)) == Some(File(Apply(j.target)))
    ensures r.Ok? ==> Get(h.fs, Archive(j)) == Some(Dir) && Get(h.fs, Install(j)) == Some(Dir)
                      && forall s <- runners :: Led(h.fs, j, s)
  {
    hide Situated, JobOk, Restoring, Somewhere, StageTells, RecordsStay, OnlyRecords, Led, KnownMarkers, Elements;
    var _ :- Retire(h, j, journal, runners, markers, was);
    MarkersMoved(was, j, markers);
    ghost var fs := h.fs;
    r := RestoreRunners(h, j, runners, markers, was, Elements(markers));
    RecordsAre(fs, h.fs, j);
    RetiredTells(was, h.fs, j, runners, markers);
    if r.Stop? {
      return;
    }
    ghost var fs1 := h.fs;
    WithinRunners(runners);
    r := Advance(h, j, journal.(stage := Decommissioned), runners, markers, was, Elements(runners), Elements(markers));
    FinishTells(was, fs1, h.fs, j, runners, markers, journal);
    RecordsLeaveTrees(fs1, h.fs, j, runners);
  }

  lemma WithinRunners(runners: seq<Path>)
    ensures Fits(runners, Elements(runners))
  {
  }

  lemma MarkersMoved(was: Disk, j: Job, markers: seq<string>)
    requires KnownMarkers(was, j, markers)
    ensures forall m <- markers :: m in MARKERS && m in Elements(markers)
  {
  }

  method MakeArchive(h: Host, j: Job, runners: seq<Path>, markers: seq<string>, ghost was: Disk) returns (r: Result<()>)
    requires JobOk(j) && Situated(was, h.fs, j, runners, markers, {ALL}, {}) && !Present(h.fs, Archive(j))
    modifies h`fs
    ensures Situated(was, h.fs, j, runners, markers, {ALL}, {}) && Somewhere(was, h.fs, j, runners, markers)
    ensures RecordsStay(old(h.fs), h.fs, j) && (h.quiet ==> r.Ok?)
    ensures r.Ok? ==> Get(h.fs, Archive(j)) == Some(Dir)
  {
    DirectoryStays(h.fs, j, Archive(j));
    MadeArchive(was, h.fs, j, runners, markers);
    assert Under(Archive(j), Archive(j));
    hide Situated, JobOk;
    r := h.Mkdir(Archive(j));
    Here(was, h.fs, j, runners, markers, {ALL}, {});
  }

  /** `decommission`. */
  method Decommission(h: Host, j: Job, blockers: seq<string>, units: seq<string>) returns (r: Result<()>)
    requires JobOk(j) && forall a, b :: 0 <= a < b < |j.specs| ==> j.specs[a] != j.specs[b]
    modifies h
    // Wherever it ends, every tree and marker is in exactly one of its places.
    ensures h.fs == old(h.fs)
            || Somewhere(old(h.fs), h.fs, j, RunnersOf(old(h.fs), j, |j.specs|), MarkersOf(old(h.fs), j))
    // How far it came, the journal's stage tells.
    ensures h.fs == old(h.fs)
            || StageTells(old(h.fs), h.fs, j, RunnersOf(old(h.fs), j, |j.specs|), MarkersOf(old(h.fs), j))
    // Nothing changes before the journal exists; no unit is touched before it exists.
    ensures h.fs == old(h.fs) || JournalPath(j) in h.fs
    ensures Journalled(old(h.calls), h.calls, j)
    // An earlier reservation, or any blocker, stops it before it does anything.
    ensures blockers != [] || !Retirable(old(h.fs), j) ==> r.Stop? && h.fs == old(h.fs) && h.calls == old(h.calls)
    // So does an outside check that does not hold.
    ensures h.quiet && !(h.agrees(Inventory) && h.agrees(Quiescent)) ==>
              r.Stop? && h.fs == old(h.fs) && h.calls == old(h.calls)
    // After them it reserves and stops every unit, whatever the last check says.
    ensures h.quiet && blockers == [] && Retirable(old(h.fs), j) && h.agrees(Inventory) && h.agrees(Quiescent) ==>
              && DidFirst(old(h.calls), h.calls, units, 2 * |units|) && JournalPath(j) in h.fs
              && Get(h.fs, OperationPath(j)) == Some(File(Apply(j.target)))
    // Otherwise it goes through, unless a call fails or there is no unit to stop.
    ensures h.quiet ==>
              (r.Ok? <==> blockers == [] && Retirable(old(h.fs), j) && units != []
                          && h.agrees(Inventory) && h.agrees(Quiescent) && h.agrees(Stopped))
    // Without a unit it reserves, refuses, and leaves both reservations behind.
    ensures h.quiet && blockers == [] && Retirable(old(h.fs), j) && units == []
            && h.agrees(Inventory) && h.agrees(Quiescent) ==>
              && r.Stop? && h.calls == old(h.calls)
              && StillReserved(h.fs, j, Journal(Reserved, j.source, j.target, j.binding,
                   RunnersOf(old(h.fs), j, |j.specs|), MarkersOf(old(h.fs), j), units, None))
    ensures r.Ok? ==> DidFirst(old(h.calls), h.calls, units, 2 * |units|)
    ensures r.Ok? ==>
              && var runners, markers := RunnersOf(old(h.fs), j, |j.specs|), MarkersOf(old(h.fs), j);
              && Situated(old(h.fs), h.fs, j, runners, markers, Elements(runners), Elements(markers))
              && Get(h.fs, Archive(j)) == Some(Dir) && Get(h.fs, Install(j)) == Some(Dir)
              && (forall s <- runners :: Led(h.fs, j, s))
              && Get(h.fs, OperationPath(j)) == Some(File(Apply(j.target)))
              && Get(h.fs, JournalPath(j)) == Some(File(Record(
                   Journal(Decommissioned, j.source, j.target, j.binding, runners, markers, units, None))))
  {
    var runners, markers := RunnersOf(h.fs, j, |j.specs|), MarkersOf(h.fs, j);
    ghost var was := h.fs;
    hide Situated, OnlyRecords, Somewhere, KnownMarkers, StillReserved, StageTells, JournalEarly, Led, Elements;
    if blockers != [] {
      return Stop(Raised);
    }
    var journal :- Prepare(h, j, runners, markers, units);
    RunnersDistinct(was, j, |j.specs|);
    AtStart(was, j, runners, markers);
    r := StopServices(h, j, journal);
    RecordsApart(was, was, h.fs, j, runners, markers, {ALL}, {});
    Here(was, h.fs, j, runners, markers, {ALL}, {});
    if h.fs != was {
      EarlyTells(was, h.fs, j, runners, markers);
    }
    if r.Ok? {
      assert Archive(j) + [] == Archive(j);
      RecordsStayFree(was, h.fs, j, Archive(j), []);
      r := MoveAside(h, j, journal, runners, markers, was);
    }
  }

  lemma {:induction false} RunnersDistinct(fs: Disk, j: Job, n: nat)
    requires n <= |j.specs| && forall a, b :: 0 <= a < b < |j.specs| ==> j.specs[a] != j.specs[b]
    ensures forall i :: 0 <= i < |RunnersOf(fs, j, n)| ==> RunnersOf(fs, j, n)[i] in j.specs[..n]
    ensures forall a, b :: 0 <= a < b < |RunnersOf(fs, j, n)| ==> RunnersOf(fs, j, n)[a] != RunnersOf(fs, j, n)[b]
  {
    if n > 0 {
      RunnersDistinct(fs, j, n - 1);
      assert j.specs[..n] == j.specs[..n - 1] + [j.specs[n - 1]];
      assert j.specs[n - 1] !in j.specs[..n - 1];
    }
  }

  // ---- What the situation means ----

  /** Exactly one of the two places has the node, and it is the original node. */
  predicate OneOf(there: Option<Node<Content>>, a: Option<Node<Content>>, b: Option<Node<Content>>) {
    (a == there && b == None) || (a == None && b == there)
  }

  /** The whole subtree `r` of the install root is in one place and absent from the other. */
  ghost predicate TreeOnce(was: Disk, fs: Disk, j: Job, r: Path) {
    || (forall q: Path :: Under(q, r) ==>
        Get(fs, Install(j) + q) == Get(was, Install(j) + q) && Get(fs, Runtime(j) + q) == None)
    || (forall q: Path :: Under(q, r) ==>
        Get(fs, Runtime(j) + q) == Get(was, Install(j) + q) && Get(fs, Install(j) + q) == None)
  }

  predicate PathOnce(was: Disk, fs: Disk, j: Job, q: Path) {
    OneOf(Get(was, Install(j) + q), Get(fs, Install(j) + q), Get(fs, Runtime(j) + q))
  }

  /** A file, or a directory that does not only lead to a runner root. */
  predicate Movable(was: Disk, j: Job, runners: seq<Path>, q: Path) {
    Install(j) + q in was && (was[Install(j) + q].File? || !Scaffold(q, runners))
  }

  /** At every point each runner tree, each other file of the install root, each directory
      there that does not only lead to a runner root, and each marker exists exactly once,
      unchanged. */
  lemma ExactlyOnce(was: Disk, fs: Disk, j: Job, markers: seq<string>)
    requires JobOk(j) && Leafy(was) && (Install(j) in was ==> was[Install(j)].Dir?)
    requires Somewhere(was, fs, j, RunnersOf(was, j, |j.specs|), markers)
    ensures forall r <- RunnersOf(was, j, |j.specs|) :: TreeOnce(was, fs, j, r)
    ensures forall q: Path :: Movable(was, j, RunnersOf(was, j, |j.specs|), q) ==> PathOnce(was, fs, j, q)
    ensures forall m <- markers :: OneOf(Get(was, Config(j) + [m]), Get(fs, Config(j) + [m]), Get(fs, Archive(j) + [m]))
  {
    var runners := RunnersOf(was, j, |j.specs|);
    var back, moved: set<string> :| Fits(runners, back) && Situated(was, fs, j, runners, markers, back, moved);
    assert forall r <- runners :: r != [];
    hide TreeOnce, PathOnce, Placed, Elsewhere, Free, Leafy, JobOk, RunnersOf, Somewhere, Movable;
    forall r <- runners
      ensures TreeOnce(was, fs, j, r)
    {
      WholeTree(was, fs, j, runners, back, r);
    }
    forall q: Path | Movable(was, j, runners, q)
      ensures PathOnce(was, fs, j, q)
    {
      NodeOnce(was, fs, j, runners, back, q);
    }
  }

  lemma WholeTree(was: Disk, fs: Disk, j: Job, runners: seq<Path>, back: set<Path>, r: Path)
    requires JobOk(j) && Placed(was, fs, j, runners, back) && Fits(runners, back)
    requires r in runners && forall s <- runners :: s in j.specs
    ensures TreeOnce(was, fs, j, r)
  {
    if r in back || back == {ALL} {
      forall q: Path | Under(q, r)
        ensures Home(q, back)
      {
        assert r in back ==> Under(q, r);
        assert Under(q, ALL);
      }
    } else {
      WayIsFree(was, fs, j, runners, back, r);
      forall q: Path | Under(q, r)
        ensures !Home(q, back) && Install(j) + q !in fs
      {
        Shared(Install(j), q, r);
        if s :| s in back && Under(q, s) {
          Nested(r, s, q);
        }
      }
    }
  }

  lemma NodeOnce(was: Disk, fs: Disk, j: Job, runners: seq<Path>, back: set<Path>, q: Path)
    requires Leafy(was) && Placed(was, fs, j, runners, back) && Movable(was, j, runners, q)
    requires forall r <- runners :: Present(was, Install(j) + r) && r != []
    requires Install(j) in was ==> was[Install(j)].Dir?
    ensures PathOnce(was, fs, j, q)
  {
    assert Install(j) + [] == Install(j);
    if !Home(q, back) && Scaffold(q, runners) && q != [] {
      var r :| r in runners && |q| < |r| && Under(r, q);
      var p :| p in was && Under(p, Install(j) + r);
      Shared(Install(j), r, q);
      Through(p, Install(j) + r, Install(j) + q);
    }
  }

  // ---- Inventory and plan ----

  predicate OccursAt(s: string, part: string, i: nat) {
    i + |part| <= |s| && s[i..i + |part|] == part
  }

  predicate Contains(s: string, part: string) {
    exists i :: 0 <= i <= |s| && OccursAt(s, part, i)
  }

  const JOURNAL_BLOCKER := "clean-reinstall-" + "recovery" + "-present;inspect-before-retry"
  const OPERATION_BLOCKER := "production-operation-" + "recovery" + "-present;inspect-before-retry"
  const CONSUMER_BLOCKER := "installed-consumer-configuration-invalid"

  /** The blockers of `inspect` in deploy/inventory.py; `others` come from its other checks. */
  function Blockers(fs: Disk, j: Job, others: seq<string>): seq<string> {
    (if Present(fs, JournalPath(j)) then [JOURNAL_BLOCKER] else [])
    + (if Present(fs, OperationPath(j)) then [OPERATION_BLOCKER] else []) + others
  }

  /** `strategy_inventory` in deploy/intent_install.py. */
  function StrategyBlockers(blockers: seq<string>, installed: bool, consumerInvalid: bool): seq<string> {
    if blockers == [CONSUMER_BLOCKER] && installed && consumerInvalid then [] else blockers
  }

  datatype Verdict = RecoveryRequiresDiagnosis | TargetUnsafe | Continue

  /** The refusal at the head of `plan`. */
  function Plan(blockers: seq<string>, installed: bool, consumerInvalid: bool): Verdict {
    var left := StrategyBlockers(blockers, installed, consumerInvalid);
    if left == [] then Continue
    else if exists item <- left :: Contains(item, "recovery") then RecoveryRequiresDiagnosis
    else TargetUnsafe
  }

  lemma Inside(before: string, part: string, after: string)
    ensures Contains(before + part + after, part)
  {
    var s := before + part + after;
    assert OccursAt(s, part, |before|);
  }

  /** While a reservation exists, `plan` demands a diagnosis, whatever else inventory
      found; and the blocker stops `decommission` as well. */
  lemma ReservationBlocks(fs: Disk, j: Job, others: seq<string>, installed: bool, consumerInvalid: bool)
    requires Present(fs, JournalPath(j)) || Present(fs, OperationPath(j))
    ensures Plan(Blockers(fs, j, others), installed, consumerInvalid) == RecoveryRequiresDiagnosis
    ensures Blockers(fs, j, others) != []
  {
    Inside("clean-reinstall-", "recovery", "-present;inspect-before-retry");
    Inside("production-operation-", "recovery", "-present;inspect-before-retry");
    var blockers := Blockers(fs, j, others);
    assert blockers[0] in {JOURNAL_BLOCKER, OPERATION_BLOCKER} && blockers[0] in blockers;
    assert JOURNAL_BLOCKER[0] == 'c' && OPERATION_BLOCKER[0] == 'p' && CONSUMER_BLOCKER[0] == 'i';
  }

  // ---- _complete ----

  function FiledPath(j: Job): Path { Archive(j) + ["decommission.json"] }
  function JournalCopy(j: Job): Path { Archive(j) + ["recovery-journal.json"] }
  function OperationCopy(j: Job): Path { Archive(j) + ["failed-apply.json"] }

  predicate Finished(fs: Disk, j: Job) {
    && Get(fs, JournalPath(j)).Some? && fs[JournalPath(j)].File? && fs[JournalPath(j)].data.Record?
    && var journal := fs[JournalPath(j)].data.journal;
    journal.stage == Decommissioned && journal.source == j.source && journal.target == j.target
        && journal.binding == j.binding
  }

  /** The journal of this very retirement, at its last stage. */
  predicate AtItsEnd(journal: Journal, j: Job) {
    journal == Journal(Decommissioned, j.source, j.target, j.binding,
                       journal.runners, journal.markers, journal.units, journal.transition)
  }

  lemma FinishedMeans(fs: Disk, j: Job)
    ensures Finished(fs, j)
            <==> exists journal :: Get(fs, JournalPath(j)) == Some(File(Record(journal))) && AtItsEnd(journal, j)
  {
    if Finished(fs, j) {
      var journal := fs[JournalPath(j)].data.journal;
      assert Get(fs, JournalPath(j)) == Some(File(Record(journal)));
    }
  }

  /** The journal of the retirement is in exactly one place, still saying what it said. */
  predicate JournalKept(was: Disk, fs: Disk, j: Job)
    requires Finished(was, j)
  {
    var done := File(Record(was[JournalPath(j)].data.journal.(stage := Complete)));
    || (Get(fs, JournalPath(j)) in {Some(was[JournalPath(j)]), Some(done)}
        && Get(fs, FiledPath(j)) == Get(was, FiledPath(j)))
    || (Get(fs, JournalPath(j)) == None && Get(fs, FiledPath(j)) == Some(done) && Get(was, FiledPath(j)) == None)
  }

  /** `_complete`. */
  method CompleteRetirement(h: Host, j: Job) returns (r: Result<()>)
    requires JobOk(j) && OneLeaf(h.fs, JournalPath(j))
    modifies h`fs
    ensures !Finished(old(h.fs), j) || Present(old(h.fs), OperationPath(j)) || Present(old(h.fs), FiledPath(j)) ==>
              r.Stop? && h.fs == old(h.fs)
    ensures Finished(old(h.fs), j) ==> JournalKept(old(h.fs), h.fs, j)
    ensures forall p: Path :: p !in {JournalPath(j), NextPath(j), FiledPath(j)} ==> Get(h.fs, p) == Get(old(h.fs), p)
    ensures r.Ok? ==> JournalPath(j) !in h.fs && FiledPath(j) in h.fs
    ensures h.quiet ==> (r.Ok? <==> Finished(old(h.fs), j) && !Present(old(h.fs), OperationPath(j))
                                    && !Present(old(h.fs), FiledPath(j)) && !Present(old(h.fs), NextPath(j))
                                    && h.agrees(Final))
    ensures h.quiet && !h.agrees(Final) ==> h.fs == old(h.fs)
  {
    Layout(j);
    if !Finished(h.fs, j) || Present(h.fs, OperationPath(j)) {
      return Stop(Raised);
    }
    var proven :- Ask(h.quiet, h.agrees(Final));
    if !proven || Present(h.fs, FiledPath(j)) {
      return Stop(Raised);
    }
    assert Under(FiledPath(j), FiledPath(j));
    RecordFree(j, Archive(j), FiledPath(j));
    var journal := h.fs[JournalPath(j)].data.journal;
    r := FileJournal(h, j, journal.(stage := Complete));
  }

  method FileJournal(h: Host, j: Job, journal: Journal) returns (r: Result<()>)
    requires JobOk(j) && JournalPath(j) in h.fs && OneLeaf(h.fs, JournalPath(j)) && !Present(h.fs, FiledPath(j))
    modifies h`fs
    ensures || (Get(h.fs, JournalPath(j)) in {Get(old(h.fs), JournalPath(j)), Some(File(Record(journal)))}
              && Get(h.fs, FiledPath(j)) == None)
            || (Get(h.fs, JournalPath(j)) == None && Get(h.fs, FiledPath(j)) == Some(File(Record(journal))))
    ensures forall p: Path :: p !in {JournalPath(j), NextPath(j), FiledPath(j)} ==> Get(h.fs, p) == Get(old(h.fs), p)
    ensures r.Ok? ==> JournalPath(j) !in h.fs && FiledPath(j) in h.fs
    ensures h.quiet ==> (r.Ok? <==> !Present(old(h.fs), NextPath(j)))
  {
    Layout(j);
    assert Under(FiledPath(j), FiledPath(j));
    RecordFree(j, Archive(j), FiledPath(j));
    var _ :- h.WriteNew(NextPath(j), Record(journal));
    var _ :- h.Replace(NextPath(j), JournalPath(j));
    assert "opt"[0] == 'o' && "var"[0] == 'v';
    DifferAt(JournalPath(j), FiledPath(j), 0);
    RenamedLeaf(h.fs, JournalPath(j), FiledPath(j));
    r := h.Rename(JournalPath(j), FiledPath(j));
  }

  // ---- recover ----

  /** Each record is still active, or both have byte-identical copies in the archive;
      the journal goes first. */
  predicate EvidenceKept(was: Disk, fs: Disk, j: Job) {
    var copied := Get(fs, JournalCopy(j)) == Get(was, JournalPath(j))
        && Get(fs, OperationCopy(j)) == Get(was, OperationPath(j));
    && (Get(fs, JournalPath(j)) == Get(was, JournalPath(j)) || (Get(fs, JournalPath(j)) == None && copied))
    && (Get(fs, OperationPath(j)) == Get(was, OperationPath(j))
        || (Get(fs, OperationPath(j)) == None && Get(fs, JournalPath(j)) == None && copied))
  }

  predicate Copied(fs: Disk, j: Job) {
    Present(fs, JournalCopy(j)) || Present(fs, OperationCopy(j)) || Present(fs, FiledPath(j))
  }

  predicate Recoverable(fs: Disk, j: Job) {
    && Finished(fs, j) && Get(fs, OperationPath(j)) == Some(File(Apply(j.target)))
    && !Present(fs, NextPath(j)) && !Copied(fs, j)
  }

  function EvidencePaths(j: Job): set<Path> {
    {JournalPath(j), OperationPath(j), JournalCopy(j), OperationCopy(j)}
  }

  /** The timer and the socket, as far as they run. */
  function Running(timer: bool, socket: bool): seq<string> {
    (if timer then ["timer"] else []) + (if socket then ["socket"] else [])
  }

  /** The calls added stop the first n of the units, on this disk. */
  predicate StoppedFirst(before: seq<Call>, calls: seq<Call>, units: seq<string>, n: nat, fs: Disk) {
    && before <= calls && |calls| == |before| + n && n <= |units|
    && forall i :: 0 <= i < n ==> calls[|before| + i] == Call(units[i], StopUnit, fs)
  }

  lemma NothingYet(fs: Disk, calls: seq<Call>, j: Job, units: seq<string>)
    ensures StoppedFirst(calls, calls, units, 0, fs) && EvidenceKept(fs, fs, j)
  {
  }

  /** Stop the timer, then the socket. */
  method Contain(h: Host, timer: bool, socket: bool) returns (r: Result<()>)
    modifies h`calls
    ensures exists n: nat :: StoppedFirst(old(h.calls), h.calls, Running(timer, socket), n, h.fs)
    ensures r.Ok? ==>
              StoppedFirst(old(h.calls), h.calls, Running(timer, socket), |Running(timer, socket)|, h.fs)
    ensures h.quiet ==> r.Ok?
  {
    assert StoppedFirst(h.calls, h.calls, Running(timer, socket), 0, h.fs);
    if timer {
      r := h.Systemctl("timer", StopUnit);
      assert h.calls != old(h.calls) ==> StoppedFirst(old(h.calls), h.calls, Running(timer, socket), 1, h.fs);
      if r.Stop? {
        return;
      }
    }
    if socket {
      r := h.Systemctl("socket", StopUnit);
      ghost var n := |h.calls| - |old(h.calls)|;
      assert StoppedFirst(old(h.calls), h.calls, Running(timer, socket), n, h.fs);
      return;
    }
    return Ok(());
  }

  /** `recover`. */
  method Recover(h: Host, j: Job, timer: bool, socket: bool) returns (r: Result<()>)
    requires JobOk(j)
    modifies h
    ensures EvidenceKept(old(h.fs), h.fs, j)
    ensures forall p: Path :: p !in EvidencePaths(j) ==> Get(h.fs, p) == Get(old(h.fs), p)
    // A partial or finished archive is never replayed, and a half-written journal is in the way.
    ensures Present(old(h.fs), JournalCopy(j)) || Present(old(h.fs), OperationCopy(j))
            || Present(old(h.fs), FiledPath(j)) || Present(old(h.fs), NextPath(j)) ==>
              r.Stop? && h.fs == old(h.fs) && h.calls == old(h.calls)
    ensures !Recoverable(old(h.fs), j) ==> r.Stop? && h.fs == old(h.fs) && h.calls == old(h.calls)
    ensures h.quiet ==> (r.Ok? <==> Recoverable(old(h.fs), j) && h.agrees(Evidence) && h.agrees(Contained))
    ensures h.quiet && !h.agrees(Evidence) ==> h.fs == old(h.fs) && h.calls == old(h.calls)
    ensures h.quiet && !h.agrees(Contained) ==> h.fs == old(h.fs)
    // The running timer and the running socket are stopped, in this order, before any record is touched.
    ensures exists n: nat :: StoppedFirst(old(h.calls), h.calls, Running(timer, socket), n, old(h.fs))
    ensures r.Ok? || h.fs != old(h.fs) ==>
              StoppedFirst(old(h.calls), h.calls, Running(timer, socket), |Running(timer, socket)|, old(h.fs))
    ensures h.fs == old(h.fs) || JournalCopy(j) in h.fs
    ensures r.Ok? ==> JournalPath(j) !in h.fs && OperationPath(j) !in h.fs
  {
    hide StoppedFirst, EvidenceKept, Archive, JournalPath, OperationPath, NextPath, JobOk;
    NothingYet(h.fs, h.calls, j, Running(timer, socket));
    if Present(h.fs, NextPath(j)) || !Finished(h.fs, j) || Get(h.fs, OperationPath(j)) != Some(File(Apply(j.target))) {
      return Stop(Raised);
    }
    if Copied(h.fs, j) {
      return Stop(Raised);
    }
    var proven :- Ask(h.quiet, h.agrees(Evidence));
    if !proven {
      return Stop(Raised);
    }
    var _ :- Contain(h, timer, socket);
    proven :- Ask(h.quiet, h.agrees(Contained));
    if !proven {
      return Stop(Raised);
    }
    r := Dispose(h, j, h.fs[JournalPath(j)].data, h.fs[OperationPath(j)].data);
    assert StoppedFirst(old(h.calls), h.calls, Running(timer, socket), |Running(timer, socket)|, old(h.fs));
  }

  lemma CopiesFree(j: Job)
    requires JobOk(j)
    ensures Separate(j) && Apart(JournalCopy(j), OperationCopy(j))
    ensures JournalCopy(j) !in Records(j) && OperationCopy(j) !in Records(j)
  {
    Layout(j);
    RecordFree(j, Archive(j), JournalCopy(j));
    RecordFree(j, Archive(j), OperationCopy(j));
    var a, b := "recovery-journal.json", "failed-apply.json";
    assert |a| != |b| && JournalCopy(j)[2] == a && OperationCopy(j)[2] == b;
    DifferAt(JournalCopy(j), OperationCopy(j), 2);
  }

  /** Copy both records, look again, then remove the journal and at last the apply record. */
  method Dispose(h: Host, j: Job, journal: Content, operation: Content) returns (r: Result<()>)
    requires JobOk(j) && Get(h.fs, JournalPath(j)) == Some(File(journal))
              && Get(h.fs, OperationPath(j)) == Some(File(operation))
    modifies h`fs
    ensures EvidenceKept(old(h.fs), h.fs, j)
    ensures forall p: Path :: p !in EvidencePaths(j) ==> Get(h.fs, p) == Get(old(h.fs), p)
    ensures h.fs == old(h.fs) || JournalCopy(j) in h.fs
    ensures r.Ok? ==> JournalPath(j) !in h.fs && OperationPath(j) !in h.fs
    ensures h.quiet && !Present(old(h.fs), JournalCopy(j)) && !Present(old(h.fs), OperationCopy(j)) ==> r.Ok?
  {
    hide Archive, JournalPath, OperationPath, NextPath, JournalCopy, OperationCopy, JobOk;
    CopiesFree(j);
    var _ :- h.WriteNew(JournalCopy(j), journal);
    var _ :- h.WriteNew(OperationCopy(j), operation);
    if Get(h.fs, JournalCopy(j)) != Some(File(journal)) || Get(h.fs, OperationCopy(j)) != Some(File(operation))
       || Get(h.fs, JournalPath(j)) != Some(File(journal)) || Get(h.fs, OperationPath(j)) != Some(File(operation)) {
      return Stop(Raised);
    }
    var _ :- h.Unlink(JournalPath(j));
    r := h.Unlink(OperationPath(j));
  }
}
