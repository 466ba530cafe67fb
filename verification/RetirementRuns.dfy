/** What survives any sequence of `decommission`, `_complete` and `recover` for one job,
    each cut off anywhere. */
module RetirementRuns {
  import opened Effects
  import opened FileTree
  import opened Retirement

  datatype Step =
    | DoRetire(blockers: seq<string>, units: seq<string>)
    | DoComplete
    | DoRecover(timer: bool, socket: bool)

  /** What the three calls leave in the archive besides the trees and the markers. */
  function Filings(j: Job): set<Path> {
    {FiledPath(j), JournalCopy(j), OperationCopy(j)}
  }

  /** Nothing differs but the records and their copies in the archive. */
  ghost predicate OnlyPapers(a: Disk, b: Disk, j: Job) {
    forall p: Path :: p !in Records(j) && p !in Filings(j) ==> Get(b, p) == Get(a, p)
  }

  /** The journal is active, filed or copied. */
  predicate Traced(fs: Disk, j: Job) {
    JournalPath(j) in fs || FiledPath(j) in fs || JournalCopy(j) in fs
  }

  /** While there is such a trace, `decommission` refuses. */
  lemma TraceBlocks(fs: Disk, j: Job)
    requires Traced(fs, j)
    ensures !Retirable(fs, j)
  {
    if JournalPath(j) in fs {
      InTree(fs, JournalPath(j));
    } else if FiledPath(j) in fs {
      assert Under(FiledPath(j), Archive(j));
    } else {
      assert Under(JournalCopy(j), Archive(j));
    }
  }

  // ---- Papers do not disturb the trees ----

  lemma FilingNames(j: Job)
    ensures forall p <- Filings(j) :: |p| == 3 && p[..2] == Archive(j) && p[2] != "runtime" && p[2] !in MARKERS
  {
    assert "decommission.json"[0] == 'd' && "recovery-journal.json"[2] == 'c' && "failed-apply.json"[0] == 'f';
    assert "runtime"[0] == 'r' && "runtime"[1] == 'u' && "recovery-journal.json"[1] == 'e';
    assert MARKERS[0][2] == 'v' && MARKERS[1][2] == 'v' && MARKERS[0][0] == 'r' && MARKERS[1][0] == 'r';
  }

  /** Nothing of the install root, the archived runtime or a marker is a paper. */
  lemma NoPaper(j: Job, p: Path)
    requires JobOk(j)
    requires Under(p, Install(j)) || Under(p, Config(j)) || Under(p, Runtime(j))
             || (Under(p, Archive(j)) && exists m <- MARKERS :: Under(p, Archive(j) + [m]))
    ensures p !in Records(j) && p !in Filings(j)
  {
    FilingNames(j);
    Layout(j);
    if Under(p, Install(j)) {
      RecordFree(j, Install(j), p);
    } else if Under(p, Config(j)) {
      RecordFree(j, Config(j), p);
    } else {
      Deeper(p, Archive(j), ["runtime"]);
      RecordFree(j, Archive(j), p);
    }
    forall f | f in Filings(j)
      ensures p != f
    {
      if Under(p, Install(j)) {
        ApartBelow(Install(j), Archive(j), p);
        assert Under(f, Archive(j));
      } else if Under(p, Config(j)) {
        ApartBelow(Config(j), Archive(j), p);
        assert Under(f, Archive(j));
      } else if Under(p, Runtime(j)) {
        assert p[2] == p[..3][2] == "runtime";
      } else {
        var m :| m in MARKERS && Under(p, Archive(j) + [m]);
        assert p[2] == p[..3][2] == m;
      }
    }
  }

  lemma PapersKeepTrees(was: Disk, a: Disk, b: Disk, j: Job, runners: seq<Path>, markers: seq<string>,
                        back: set<Path>, moved: set<string>)
    requires JobOk(j) && Situated(was, a, j, runners, markers, back, moved) && OnlyPapers(a, b, j)
    requires forall m <- markers :: m in MARKERS
    ensures Situated(was, b, j, runners, markers, back, moved)
  {
    hide Scaffold, Home, JobOk, Records, Filings;
    PapersKeepPlaces(was, a, b, j, runners, back);
    PapersKeepMarkers(was, a, b, j, markers, back, moved);
    FilingsInArchive(j);
  }

  lemma FilingsInArchive(j: Job)
    ensures forall p <- Filings(j) :: Under(p, Archive(j))
    ensures Records(j) == {JournalPath(j), NextPath(j), OperationPath(j)}
  {
  }

  lemma PapersKeepPlaces(was: Disk, a: Disk, b: Disk, j: Job, runners: seq<Path>, back: set<Path>)
    requires JobOk(j) && Placed(was, a, j, runners, back) && OnlyPapers(a, b, j)
    ensures Placed(was, b, j, runners, back)
  {
    hide Scaffold, Home, JobOk, Records, Filings, Archive, Install;
    forall q: Path
      ensures Get(b, Install(j) + q) == Get(a, Install(j) + q) && Get(b, Runtime(j) + q) == Get(a, Runtime(j) + q)
    {
      NoPaper(j, Install(j) + q);
      NoPaper(j, Runtime(j) + q);
    }
  }

  lemma PapersKeepMarkers(was: Disk, a: Disk, b: Disk, j: Job, markers: seq<string>, back: set<Path>,
                          moved: set<string>)
    requires JobOk(j) && MarkersPlaced(was, a, j, markers, moved) && Free(a, j, markers, back, moved)
    requires OnlyPapers(a, b, j) && forall m <- markers :: m in MARKERS
    ensures MarkersPlaced(was, b, j, markers, moved) && Free(b, j, markers, back, moved)
  {
    hide JobOk, Records, Filings, Archive, Config;
    forall m <- markers
      ensures Get(b, Config(j) + [m]) == Get(a, Config(j) + [m]) && Get(b, Archive(j) + [m]) == Get(a, Archive(j) + [m])
      ensures !Present(a, Archive(j) + [m]) ==> !Present(b, Archive(j) + [m])
    {
      NoPaper(j, Config(j) + [m]);
      MarkerNoPaper(j, m, Archive(j) + [m]);
      forall q | Under(q, Archive(j) + [m])
        ensures Get(b, q) == Get(a, q)
      {
        MarkerNoPaper(j, m, q);
      }
      SameBelow(a, b, Archive(j) + [m]);
    }
    forall q | Under(q, Runtime(j))
      ensures Get(b, q) == Get(a, q)
    {
      NoPaper(j, q);
    }
    SameBelow(a, b, Runtime(j));
  }

  lemma SameBelow(a: Disk, b: Disk, p: Path)
    requires forall q :: Under(q, p) ==> Get(b, q) == Get(a, q)
    ensures Present(b, p) == Present(a, p)
  {
    if q :| q in a && Under(q, p) {
      assert Get(b, q) == Get(a, q);
    }
    if q :| q in b && Under(q, p) {
      assert Get(b, q) == Get(a, q);
    }
  }

  lemma MarkerNoPaper(j: Job, m: string, p: Path)
    requires JobOk(j) && m in MARKERS && Under(p, Archive(j) + [m])
    ensures p !in Records(j) && p !in Filings(j)
  {
    Deeper(p, Archive(j), [m]);
    NoPaper(j, p);
  }

  // ---- A call from a disk whose trees are still as at the start ----

  lemma SameStart(was: Disk, fs: Disk, j: Job, n: nat)
    requires JobOk(j) && OnlyRecords(was, fs, j) && n <= |j.specs|
    ensures RunnersOf(fs, j, n) == RunnersOf(was, j, n) && MarkersOf(fs, j) == MarkersOf(was, j)
  {
    SameRunners(was, fs, j, n);
    forall m <- MARKERS
      ensures Present(fs, Config(j) + [m]) == Present(was, Config(j) + [m])
    {
      SamePresent(was, fs, j, Config(j), [m]);
    }
  }

  lemma SamePresent(was: Disk, fs: Disk, j: Job, root: Path, more: Path)
    requires JobOk(j) && OnlyRecords(was, fs, j) && root in {Install(j), Archive(j), Config(j)}
    ensures Present(fs, root + more) == Present(was, root + more)
  {
    hide JobOk, Install, Archive, Config, Records;
    if !Present(was, root + more) {
      RecordsStayFree(was, fs, j, root, more);
    }
    if !Present(fs, root + more) {
      assert OnlyRecords(fs, was, j);
      RecordsStayFree(fs, was, j, root, more);
    }
  }

  lemma {:induction false} SameRunners(was: Disk, fs: Disk, j: Job, n: nat)
    requires JobOk(j) && OnlyRecords(was, fs, j) && n <= |j.specs|
    ensures RunnersOf(fs, j, n) == RunnersOf(was, j, n)
  {
    if n > 0 {
      SameRunners(was, fs, j, n - 1);
      SamePresent(was, fs, j, Install(j), j.specs[n - 1]);
    }
  }

  lemma Rebased(was: Disk, fs: Disk, fs': Disk, j: Job, runners: seq<Path>, markers: seq<string>)
    requires JobOk(j) && OnlyRecords(was, fs, j) && Somewhere(fs, fs', j, runners, markers)
    ensures Somewhere(was, fs', j, runners, markers)
  {
    var back, moved: set<string> :| Fits(runners, back) && Situated(fs, fs', j, runners, markers, back, moved);
    hide JobOk, Fits, Placed, MarkersPlaced, Free;
    RebasedTrees(was, fs, fs', j, runners, back);
    RebasedMarkers(was, fs, fs', j, markers, moved);
    Here(was, fs', j, runners, markers, back, moved);
  }

  lemma RebasedTrees(was: Disk, fs: Disk, fs': Disk, j: Job, runners: seq<Path>, back: set<Path>)
    requires JobOk(j) && OnlyRecords(was, fs, j) && Placed(fs, fs', j, runners, back)
    ensures Placed(was, fs', j, runners, back)
  {
    hide Home, Scaffold, JobOk, Install, Archive, Records;
    forall q: Path
      ensures Get(fs, Install(j) + q) == Get(was, Install(j) + q)
    {
      InItself(Install(j));
      RecordFree(j, Install(j), Install(j) + q);
    }
  }

  lemma RebasedMarkers(was: Disk, fs: Disk, fs': Disk, j: Job, markers: seq<string>, moved: set<string>)
    requires JobOk(j) && OnlyRecords(was, fs, j) && MarkersPlaced(fs, fs', j, markers, moved)
    ensures MarkersPlaced(was, fs', j, markers, moved)
  {
    hide JobOk, Archive, Config, Records;
    forall m <- markers
      ensures Get(fs, Config(j) + [m]) == Get(was, Config(j) + [m])
    {
      RecordFree(j, Config(j), Config(j) + [m]);
    }
  }

  // ---- The invariant of a run ----

  /** Each runner tree, each movable path and each marker is in one of its two places. */
  ghost predicate Conserved(was: Disk, fs: Disk, j: Job) {
    Somewhere(was, fs, j, RunnersOf(was, j, |j.specs|), MarkersOf(was, j))
  }

  /** If there was no archive, nothing is lost, and once anything but a record changed there is
      a trace; with an archive the trees stay as they are. */
  ghost predicate RunOk(was: Disk, fs: Disk, j: Job) {
    && OneLeaf(fs, JournalPath(j))
    && (Present(was, Archive(j)) ==> OnlyPapers(was, fs, j) && Present(fs, Archive(j)))
    && (!Present(was, Archive(j)) ==> Conserved(was, fs, j) && (OnlyRecords(was, fs, j) || Traced(fs, j)))
  }

  lemma RunStarts(fs: Disk, j: Job)
    requires JobOk(j) && OneLeaf(fs, JournalPath(j))
    ensures RunOk(fs, fs, j)
  {
    if !Present(fs, Archive(j)) {
      var runners, markers := RunnersOf(fs, j, |j.specs|), MarkersOf(fs, j);
      AtStart(fs, j, runners, markers);
      Here(fs, fs, j, runners, markers, {ALL}, {});
    }
  }

  /** A step that touches papers only, and none of the archive's away. */
  lemma PapersOk(was: Disk, a: Disk, b: Disk, j: Job)
    requires JobOk(j) && RunOk(was, a, j) && OnlyPapers(a, b, j)
    requires forall f <- Filings(j) :: f in a ==> f in b
    requires OnlyRecords(a, b, j) || Traced(b, j)
    requires Traced(a, j) ==> Traced(b, j)
    ensures RunOk(was, b, j)
  {
    hide JobOk, Traced, OnlyPapers, OnlyRecords, Filings, Records, Archive, RunnersOf, MarkersOf, Somewhere;
    LeafStays(a, b, j);
    if Present(was, Archive(j)) {
      PapersTwice(was, a, b, j);
      ArchiveStays(a, b, j);
    } else {
      if OnlyRecords(was, a, j) && OnlyRecords(a, b, j) {
        RecordsTwice(was, a, b, j);
      }
      ConservedStays(was, a, b, j);
    }
  }

  lemma PapersTwice(a: Disk, b: Disk, c: Disk, j: Job)
    requires OnlyPapers(a, b, j) && OnlyPapers(b, c, j)
    ensures OnlyPapers(a, c, j)
  {
  }

  lemma LeafStays(a: Disk, b: Disk, j: Job)
    requires JobOk(j) && OneLeaf(a, JournalPath(j)) && OnlyPapers(a, b, j)
    ensures OneLeaf(b, JournalPath(j))
  {
    hide JobOk, Records, Filings, Archive, Install, Config, JournalPath, NextPath, OperationPath;
    forall q | Under(q, JournalPath(j)) && q != JournalPath(j)
      ensures Get(b, q) == Get(a, q)
    {
      BelowJournal(j, q);
    }
    SameLeaf(a, b, JournalPath(j));
  }

  lemma SameLeaf(a: Disk, b: Disk, p: Path)
    requires OneLeaf(a, p) && forall q :: Under(q, p) && q != p ==> Get(b, q) == Get(a, q)
    ensures OneLeaf(b, p)
  {
    forall q | q in b && Under(q, p)
      ensures q == p
    {
      assert q == p || Get(b, q) == Get(a, q);
    }
  }

  /** Whatever lies below the journal's path is no paper and belongs to no tree. */
  lemma BelowJournal(j: Job, q: Path)
    requires JobOk(j) && Under(q, JournalPath(j)) && q != JournalPath(j)
    ensures q !in Records(j) && q !in Filings(j)
    ensures !Under(q, Install(j)) && !Under(q, Archive(j)) && !Under(q, Config(j))
  {
    hide Archive, Install, Config, JournalPath, NextPath, OperationPath;
    RecordsDiffer(j);
    Layout(j);
    ApartBelow(JournalPath(j), NextPath(j), q);
    ApartBelow(JournalPath(j), OperationPath(j), q);
    ApartBelow(JournalPath(j), Archive(j), q);
    ApartBelow(JournalPath(j), Install(j), q);
    ApartBelow(JournalPath(j), Config(j), q);
    InItself(NextPath(j));
    InItself(OperationPath(j));
    FilingsInArchive(j);
  }

  lemma InItself(p: Path)
    ensures Under(p, p)
  {
  }

  lemma ArchiveStays(a: Disk, b: Disk, j: Job)
    requires JobOk(j) && Present(a, Archive(j)) && OnlyPapers(a, b, j) && forall f <- Filings(j) :: f in a ==> f in b
    ensures Present(b, Archive(j))
  {
    var p :| p in a && Under(p, Archive(j));
    RecordFree(j, Archive(j), p);
    assert p !in Filings(j) ==> Get(b, p) == Get(a, p);
    assert p in b;
  }

  lemma ConservedStays(was: Disk, a: Disk, b: Disk, j: Job)
    requires JobOk(j) && Conserved(was, a, j) && OnlyPapers(a, b, j)
    ensures Conserved(was, b, j)
  {
    var runners, markers := RunnersOf(was, j, |j.specs|), MarkersOf(was, j);
    var back, moved: set<string> :| Fits(runners, back) && Situated(was, a, j, runners, markers, back, moved);
    hide Situated, JobOk, Fits;
    PapersKeepTrees(was, a, b, j, runners, markers, back, moved);
    Here(was, b, j, runners, markers, back, moved);
  }

  // ---- The four kinds of step ----

  /** Between two calls the operation record may come and go. */
  method Meddle(h: Host, j: Job, ghost was: Disk)
    requires JobOk(j) && RunOk(was, h.fs, j)
    modifies h`fs
    ensures RunOk(was, h.fs, j) && OnlyPapers(old(h.fs), h.fs, j)
    ensures Traced(h.fs, j) <==> Traced(old(h.fs), j)
  {
    hide RunOk, JobOk;
    var record: Option<Content> := *;
    ghost var fs := h.fs;
    h.fs := if record.Some? then h.fs[OperationPath(j) := File(record.value)] else h.fs - {OperationPath(j)};
    FilingsFree(j);
    PapersOk(was, fs, h.fs, j);
  }

  lemma FilingsFree(j: Job)
    requires JobOk(j)
    ensures forall f <- Filings(j) :: f !in Records(j)
    ensures JournalPath(j) != OperationPath(j)
  {
    Layout(j);
    forall f <- Filings(j)
      ensures f !in Records(j)
    {
      FilingsInArchive(j);
      RecordFree(j, Archive(j), f);
    }
  }

  /** `decommission`: it can only act on the trees as they were at the start. */
  method RetireStep(h: Host, j: Job, blockers: seq<string>, units: seq<string>, ghost was: Disk)
    requires JobOk(j) && RunOk(was, h.fs, j) && forall a, b :: 0 <= a < b < |j.specs| ==> j.specs[a] != j.specs[b]
    modifies h
    ensures RunOk(was, h.fs, j)
    ensures Traced(old(h.fs), j) || Present(was, Archive(j)) ==> h.fs == old(h.fs) && h.calls == old(h.calls)
    ensures h.fs == old(h.fs) || Traced(h.fs, j)
  {
    hide JobOk, Somewhere, Situated, OnlyRecords, OnlyPapers, RunnersOf, MarkersOf, StillReserved, DidFirst;
    ghost var fs := h.fs;
    if Traced(fs, j) {
      TraceBlocks(fs, j);
    }
    var r := Decommission(h, j, blockers, units);
    if h.fs != fs {
      Retired(was, fs, h.fs, j);
    }
  }

  lemma Retired(was: Disk, fs: Disk, fs': Disk, j: Job)
    requires JobOk(j) && !Present(was, Archive(j)) && OnlyRecords(was, fs, j) && OneLeaf(fs, JournalPath(j))
    requires Somewhere(fs, fs', j, RunnersOf(fs, j, |j.specs|), MarkersOf(fs, j)) && JournalPath(j) in fs'
    ensures RunOk(was, fs', j)
  {
    hide JobOk, Somewhere, OnlyRecords, RunnersOf, MarkersOf;
    SameStart(was, fs, j, |j.specs|);
    Rebased(was, fs, fs', j, RunnersOf(was, j, |j.specs|), MarkersOf(was, j));
    LeafAfterMoves(fs, fs', j, RunnersOf(was, j, |j.specs|), MarkersOf(was, j));
  }

  lemma LeafAfterMoves(was: Disk, fs: Disk, j: Job, runners: seq<Path>, markers: seq<string>)
    requires JobOk(j) && Somewhere(was, fs, j, runners, markers) && OneLeaf(was, JournalPath(j))
    ensures OneLeaf(fs, JournalPath(j))
  {
    var back, moved: set<string> :| Fits(runners, back) && Situated(was, fs, j, runners, markers, back, moved);
    hide JobOk, Placed, MarkersPlaced, Free, Archive, Install, Config, Filings, JournalPath, NextPath, OperationPath;
    forall q | Under(q, JournalPath(j)) && q != JournalPath(j)
      ensures Get(fs, q) == Get(was, q)
    {
      BelowJournal(j, q);
      forall m <- markers
        ensures !Under(q, Config(j) + [m])
      {
        Deeper(q, Config(j), [m]);
      }
    }
    SameLeaf(was, fs, JournalPath(j));
  }

  /** `_complete`. */
  method FileStep(h: Host, j: Job, ghost was: Disk)
    requires JobOk(j) && RunOk(was, h.fs, j)
    modifies h`fs
    ensures RunOk(was, h.fs, j) && OnlyPapers(old(h.fs), h.fs, j) && (Traced(old(h.fs), j) ==> Traced(h.fs, j))
  {
    ghost var fs := h.fs;
    var r := CompleteRetirement(h, j);
    hide RunOk, JobOk;
    if Finished(fs, j) {
      FiledPapers(fs, h.fs, j);
    } else {
      SamePapers(fs, j);
    }
    PapersOk(was, fs, h.fs, j);
  }

  lemma SamePapers(fs: Disk, j: Job)
    ensures OnlyPapers(fs, fs, j) && OnlyRecords(fs, fs, j)
  {
  }

  lemma FiledPapers(a: Disk, b: Disk, j: Job)
    requires JobOk(j) && Finished(a, j) && JournalKept(a, b, j)
    requires forall p: Path :: p !in {JournalPath(j), NextPath(j), FiledPath(j)} ==> Get(b, p) == Get(a, p)
    ensures OnlyPapers(a, b, j) && Traced(b, j) && forall f <- Filings(j) :: f in a ==> f in b
  {
    FilingsFree(j);
    hide Archive, JobOk, JournalPath, NextPath, OperationPath, FiledPath, JournalCopy, OperationCopy;
    forall f | f in Filings(j) && f in a
      ensures f in b
    {
      assert f == FiledPath(j) || Get(b, f) == Get(a, f);
    }
  }

  /** `recover`. */
  method DisposeStep(h: Host, j: Job, timer: bool, socket: bool, ghost was: Disk)
    requires JobOk(j) && RunOk(was, h.fs, j)
    modifies h
    ensures RunOk(was, h.fs, j) && OnlyPapers(old(h.fs), h.fs, j) && (Traced(old(h.fs), j) ==> Traced(h.fs, j))
  {
    ghost var fs := h.fs;
    var r := Recover(h, j, timer, socket);
    hide RunOk, JobOk, Recoverable;
    if h.fs == fs {
      SamePapers(fs, j);
    } else {
      CopiedPapers(fs, h.fs, j);
    }
    PapersOk(was, fs, h.fs, j);
  }

  lemma CopiedPapers(a: Disk, b: Disk, j: Job)
    requires JobOk(j) && JournalCopy(j) in b && !Copied(a, j)
    requires forall p: Path :: p !in EvidencePaths(j) ==> Get(b, p) == Get(a, p)
    ensures OnlyPapers(a, b, j) && Traced(b, j) && forall f <- Filings(j) :: f in a ==> f in b
  {
    forall f | f in Filings(j)
      ensures f !in a
    {
      if f in a {
        InTree(a, f);
      }
    }
  }

  // ---- Any run ----

  lemma StillPapers(acted: nat, was: Disk, a: Disk, b: Disk, j: Job)
    requires OnlyPapers(a, b, j)
    ensures acted == 0 && OnlyPapers(was, a, j) ==> OnlyPapers(was, b, j)
  {
  }

  /** An install root that was never retired, on an ordinary file system. */
  ghost predicate Ordinary(fs: Disk, j: Job) {
    !Present(fs, Archive(j)) && Leafy(fs) && (Install(j) in fs ==> fs[Install(j)].Dir?)
  }

  /** Each runner tree, each file, each directory that does not only lead to a runner root, and
      each marker exists exactly once, unchanged. */
  ghost predicate AllOnce(was: Disk, fs: Disk, j: Job) {
    && (forall r <- RunnersOf(was, j, |j.specs|) :: TreeOnce(was, fs, j, r))
    && (forall q: Path :: Movable(was, j, RunnersOf(was, j, |j.specs|), q) ==> PathOnce(was, fs, j, q))
    && (forall m <- MarkersOf(was, j) ::
          OneOf(Get(was, Config(j) + [m]), Get(fs, Config(j) + [m]), Get(fs, Archive(j) + [m])))
  }

  lemma RunMeans(was: Disk, fs: Disk, j: Job)
    requires JobOk(j) && RunOk(was, fs, j)
    ensures !Present(was, Archive(j)) ==> Conserved(was, fs, j)
    ensures Ordinary(was, j) ==> AllOnce(was, fs, j)
  {
    if Ordinary(was, j) {
      ExactlyOnce(was, fs, j, MarkersOf(was, j));
    }
  }

  /** Any sequence of the three, each cut off anywhere, with the operation record coming and
      going in between. Nothing is lost, what was moved always leaves a trace, a trace never
      disappears, and at most one `decommission` changes anything. */
  method Operate(h: Host, j: Job, steps: seq<Step>) returns (ghost acted: nat)
    requires JobOk(j) && OneLeaf(h.fs, JournalPath(j))
    requires forall a, b :: 0 <= a < b < |j.specs| ==> j.specs[a] != j.specs[b]
    modifies h
    ensures !old(Present(h.fs, Archive(j))) ==> Conserved(old(h.fs), h.fs, j)
    ensures old(Ordinary(h.fs, j)) ==> AllOnce(old(h.fs), h.fs, j)
    ensures old(Traced(h.fs, j)) || acted > 0 ==> Traced(h.fs, j)
    ensures acted <= 1 && (acted == 0 ==> OnlyPapers(old(h.fs), h.fs, j))
    ensures old(Traced(h.fs, j) || Present(h.fs, Archive(j))) ==> acted == 0
  {
    acted := 0;
    RunStarts(h.fs, j);
    SamePapers(h.fs, j);
    hide Conserved, OnlyPapers, OnlyRecords, JobOk, Traced, RunOk, Ordinary, AllOnce;
    for i := 0 to |steps|
      invariant RunOk(old(h.fs), h.fs, j)
      invariant old(Traced(h.fs, j)) || acted > 0 ==> Traced(h.fs, j)
      invariant acted <= 1 && (acted == 0 ==> OnlyPapers(old(h.fs), h.fs, j))
      invariant old(Traced(h.fs, j) || Present(h.fs, Archive(j))) ==> acted == 0
    {
      ghost var fs := h.fs;
      Meddle(h, j, old(h.fs));
      StillPapers(acted, old(h.fs), fs, h.fs, j);
      fs := h.fs;
      match steps[i]
      case DoRetire(blockers, units) =>
        RetireStep(h, j, blockers, units, old(h.fs));
        acted := if h.fs == fs then acted else acted + 1;
      case DoComplete =>
        FileStep(h, j, old(h.fs));
        StillPapers(acted, old(h.fs), fs, h.fs, j);
      case DoRecover(timer, socket) =>
        DisposeStep(h, j, timer, socket, old(h.fs));
        StillPapers(acted, old(h.fs), fs, h.fs, j);
    }
    RunMeans(old(h.fs), h.fs, j);
  }
}
