/** Preparing an installation (deploy/install_preflight.py): a private stage, a capture
    of the old installation and its open gate, and an abort that puts the exact gate
    bytes back. */
module InstallGate {
  import opened Effects
  import opened GateMachine

  /** A gate file: one of the byte encodings of a gate. */
  datatype GateFile = GateFile(gate: Gate, layout: nat)

  /** `old-installation.json`. */
  datatype Snapshot = Snapshot(operation: string, target: string, gate: GateFile, repair: bool, critical: string)

  /** `writer-lock.json`: who holds the Writer lock for the stage, and which inode it locks. */
  datatype Lease = Lease(pid: nat, start: nat, inode: nat, wellFormed: bool, operation: string, target: string)

  /** A stage directory; `serial` is its identity on disk. */
  datatype Stage = Stage(serial: nat, evidence: Option<Snapshot>, lease: Option<Lease>)

  datatype Process = Process(start: nat, zombie: bool)

  /** `critical`: what `critical_state` observes of the old installation, for each value
      of its consumer-repair flag. `locks`: inodes in the kernel lock table. `writer`:
      the operation whose lease holds the Writer mutex. */
  datatype Disk = Disk(
    stage: Option<Stage>, priors: map<nat, Stage>, gate: GateFile, critical: map<bool, string>,
    consumerDigest: Option<string>, processes: map<nat, Process>, locks: set<nat>, writer: Option<string>,
        nextSerial: nat)

  /** The lease file can be read and was written for this operation. */
  predicate LeaseProven(lease: Lease, op: string, target: string) {
    lease.wellFormed && lease.operation == op && lease.target == target
  }

  predicate GuardLive(lease: Lease, d: Disk) {
    || (lease.pid in d.processes && d.processes[lease.pid].start == lease.start && !d.processes[lease.pid].zombie)
    || lease.inode in d.locks
  }

  /** The stage holds this operation's capture, and the old installation is as it was captured. */
  predicate Evidenced(d: Disk, op: string, target: string) {
    && d.stage.Some? && d.stage.value.evidence.Some?
    && var s := d.stage.value.evidence.value;
    && s.operation == op && s.target == target
    && s.repair in d.critical && d.critical[s.repair] == s.critical
  }

  /** The gate file after a command: written anew when the gate changes. */
  function Commanded(file: GateFile, op: string, c: Command, layout: nat): GateFile {
    var g := After(file.gate, op, c);
    if g == file.gate then file else GateFile(g, layout)
  }

  /** Everything `abort` demands before its one write. */
  predicate Abortable(d: Disk, op: string, target: string) {
    && Evidenced(d, op, target)
    && var s, g := d.stage.value.evidence.value, d.gate.gate;
    && d.writer == Some(op) && d.consumerDigest == Some(s.gate.gate.digest)
    && g.phase in {Quiesced, Drained, Applying} && g.operation == Some(op) && g.target == Some(target)
    && g.digest == s.gate.gate.digest && g.previousActive.None? && g.verified.None?
  }

  /** What `capture` demands. */
  predicate Capturable(d: Disk, baseline: string) {
    d.stage.Some? && d.stage.value.evidence.None? && d.gate.gate == OpenGate(baseline)
  }

  /** Checks of code that is not part of this model. */
  datatype Check =
    | Final         // consumer proof, host preflight and stage identity before the cutover
    | OldConsumer   // proof of the old consumer and host preflight before an abort

  class Target {
    var disk: Disk
    /** No call fails, the process does not die, and the outside checks answer as `agrees` says. */
    const quiet: bool
    const agrees: Check -> bool

    constructor (disk: Disk, quiet: bool, agrees: Check -> bool)
      ensures this.disk == disk && this.quiet == quiet && this.agrees == agrees
    {
      this.disk, this.quiet, this.agrees := disk, quiet, agrees;
    }

    /** A gate command of this operation; a refusal raises. */
    method Command(op: string, c: Command, layout: nat) returns (r: Result<()>)
      modifies this`disk
      ensures disk == old(disk) || disk == old(disk).(gate := Commanded(old(disk).gate, op, c, layout))
      ensures r.Ok? ==>
                Run(old(disk).gate.gate, op, c).Some?
                    && disk == old(disk).(gate := Commanded(old(disk).gate, op, c, layout))
      ensures quiet ==> (r.Ok? <==> Run(old(disk).gate.gate, op, c).Some?)
      ensures quiet ==> r.Survived()
    {
      var before := Fate(quiet);
      if before.Some? {
        return Stop(before.value);
      }
      if Run(disk.gate.gate, op, c).None? {
        return Stop(Raised);
      }
      disk := disk.(gate := Commanded(disk.gate, op, c, layout));
      var after := Fate(quiet);
      return if after.Some? then Stop(after.value) else Ok(());
    }

    /** `remote`, action `create`: an earlier stage is renamed aside, never removed, and
        never moved while its Writer guard is live. */
    method Create(op: string, target: string, prior: nat) returns (r: Result<bool>)
      modifies this`disk
      ensures disk.gate == old(disk).gate
      ensures old(disk.priors.Keys) <= disk.priors.Keys
      ensures forall k <- old(disk).priors :: disk.priors[k] == old(disk).priors[k]
      ensures var was := old(disk.stage);
              && (was.Some? ==>
                    || disk.stage == was
                    || exists k :: k in disk.priors && k !in old(disk.priors) && disk.priors[k] == was.value)
              && (was.Some? && was.value.lease.Some?
                  && (GuardLive(was.value.lease.value, old(disk))
                      || !LeaseProven(was.value.lease.value, op, target)) ==>
                    r.Stop? && disk == old(disk))
              && (r.Ok? ==> disk.stage == Some(Stage(old(disk).nextSerial, None, None)) && (r.value <==> was.Some?))
              && (quiet ==> (r.Ok? <==>
                    was.Some? ==>
                      && prior !in old(disk.priors)
                      && (was.value.lease.Some? ==>
                            LeaseProven(was.value.lease.value, op, target)
                                && !GuardLive(was.value.lease.value, old(disk)))))
      // A guard that runs, holds its lock, or is not this operation's keeps the stage in place;
      // a dead one of this operation does not.
      ensures old(disk.stage).Some? && old(disk.stage).value.lease.Some? ==>
                var lease, was := old(disk.stage).value.lease.value, old(disk);
                && ((lease.pid in was.processes && was.processes[lease.pid] == Process(lease.start, false))
                    || lease.inode in was.locks
                    || lease != Lease(lease.pid, lease.start, lease.inode, true, op, target) ==>
                      r.Stop? && disk == was)
                && (&& quiet && prior !in was.priors && lease.inode !in was.locks
                    && lease == Lease(lease.pid, lease.start, lease.inode, true, op, target)
                    && (lease.pid in was.processes ==> was.processes[lease.pid] != Process(lease.start, false)) ==>
                      r.Ok?)
    {
      var before := Fate(quiet);
      if before.Some? {
        return Stop(before.value);
      }
      var preserved := disk.stage.Some?;
      if preserved {
        var lease := disk.stage.value.lease;
        if lease.Some? && (!LeaseProven(lease.value, op, target) || GuardLive(lease.value, disk)) {
          return Stop(Raised);
        }
        if prior in disk.priors {
          return Stop(Raised);
        }
        disk := disk.(stage := None, priors := disk.priors[prior := disk.stage.value]);
        assert prior in disk.priors;
        var during := Fate(quiet);
        if during.Some? {
          return Stop(during.value);
        }
      }
      disk := disk.(stage := Some(Stage(disk.nextSerial, None, None)), nextSerial := disk.nextSerial + 1);
      var after := Fate(quiet);
      return if after.Some? then Stop(after.value) else Ok(preserved);
    }

    /** Action `capture`: record the exact gate bytes and the critical state, once. */
    method Capture(op: string, target: string, baseline: string, repair: bool) returns (r: Result<()>)
      modifies this`disk
      ensures disk == old(disk)
                || (Capturable(old(disk), baseline) && disk.stage.Some? && disk.stage.value.evidence.Some?
                && disk == old(disk).(stage := Some(old(disk).stage.value.(evidence := disk.stage.value.evidence))))
      ensures disk != old(disk) ==>
                && repair in old(disk.critical)
                && disk.stage.value.evidence.value
                    == Snapshot(op, target, old(disk).gate, repair, old(disk).critical[repair])
      ensures (r.Ok? ==> disk != old(disk)) && (quiet && r.Stop? ==> disk == old(disk))
      ensures quiet ==> (r.Ok? <==> Capturable(old(disk), baseline) && repair in old(disk.critical))
    {
      var before := Fate(quiet);
      if before.Some? {
        return Stop(before.value);
      }
      if disk.stage.None? || disk.gate.gate != OpenGate(baseline) || repair !in disk.critical
         || disk.stage.value.evidence.Some? {
        return Stop(Raised);
      }
      var snapshot := Snapshot(op, target, disk.gate, repair, disk.critical[repair]);
      disk := disk.(stage := Some(disk.stage.value.(evidence := Some(snapshot))));
      var after := Fate(quiet);
      return if after.Some? then Stop(after.value) else Ok(());
    }

    /** The checks `verify` and `abort` share. */
    method Verify(op: string, target: string) returns (r: Result<Snapshot>)
      ensures r.Ok? ==> Evidenced(disk, op, target) && disk.stage.value.evidence == Some(r.value)
      ensures quiet ==> (r.Ok? <==> Evidenced(disk, op, target)) && r.Survived()
    {
      var before := Fate(quiet);
      if before.Some? {
        return Stop(before.value);
      }
      if disk.stage.None? || disk.stage.value.evidence.None? {
        return Stop(Raised);
      }
      var s := disk.stage.value.evidence.value;
      if s.operation != op || s.target != target || s.repair !in disk.critical
          || disk.critical[s.repair] != s.critical {
        return Stop(Raised);
      }
      return Ok(s);
    }

    /** Action `abort`: the gate file gets the captured bytes back exactly when everything
        it demands holds; on every other path it is untouched. */
    method Abort(op: string, target: string) returns (r: Result<()>)
      modifies this`disk
      ensures disk == old(disk).(gate := disk.gate)
      ensures disk.gate == old(disk).gate
              || (Abortable(old(disk), op, target) && disk.gate == old(disk).stage.value.evidence.value.gate)
      ensures r.Ok? ==> Abortable(old(disk), op, target) && disk.gate == old(disk).stage.value.evidence.value.gate
      ensures quiet ==> (r.Ok? <==> Abortable(old(disk), op, target)) && r.Survived()
      ensures quiet && r.Stop? ==> disk == old(disk)
    {
      var snapshot :- Verify(op, target);
      var writer := Fate(quiet);
      if writer.Some? {
        return Stop(writer.value);
      }
      if disk.writer != Some(op) {
        return Stop(Raised);
      }
      var digest := Fate(quiet);
      if digest.Some? {
        return Stop(digest.value);
      }
      if disk.consumerDigest != Some(snapshot.gate.gate.digest) {
        return Stop(Raised);
      }
      var read := Fate(quiet);
      if read.Some? {
        return Stop(read.value);
      }
      var g := disk.gate.gate;
      if g.phase !in {Quiesced, Drained, Applying} || g.operation != Some(op) || g.target != Some(target)
         || g.digest != snapshot.gate.gate.digest || g.previousActive.Some? || g.verified.Some? {
        return Stop(Raised);
      }
      disk := disk.(gate := snapshot.gate);
      var after := Fate(quiet);
      return if after.Some? then Stop(after.value) else Ok(());
    }
  }

  /** The object that drives one installation (`PreparedInstall`). */
  class Prepared {
    const target: Target
    const operation: string
    const revision: string
    const baseline: string
    const repair: bool
    var holder: bool
    var captured: bool
    var cutoverStarted: bool

    constructor (target: Target, operation: string, revision: string, baseline: string, repair: bool)
      ensures this.target == target && this.operation == operation && this.revision == revision
      ensures this.baseline == baseline && this.repair == repair
      ensures !holder && !captured && !cutoverStarted
    {
      this.target, this.operation, this.revision := target, operation, revision;
      this.baseline, this.repair := baseline, repair;
      this.holder, this.captured, this.cutoverStarted := false, false, false;
    }

    method Capture() returns (r: Result<()>)
      modifies this`captured, target`disk
      ensures target.disk.gate == old(target.disk).gate && (captured <==> old(captured) || r.Ok?)
      ensures target.quiet && r.Stop? ==> target.disk == old(target.disk)
      ensures r.Ok? ==>
                && target.disk.stage.Some? && repair in old(target.disk).critical
                && target.disk.stage.value.evidence
                   == Some(Snapshot(operation, revision, old(target.disk).gate, repair,
                       old(target.disk).critical[repair]))
                && target.disk == old(target.disk).(stage := target.disk.stage)
                && old(target.disk).gate.gate == OpenGate(baseline)
      ensures target.quiet ==>
                (r.Ok? <==> Capturable(old(target.disk), baseline) && repair in old(target.disk).critical)
    {
      var _ :- target.Capture(operation, revision, baseline, repair);
      captured := true;
      return Ok(());
    }

    /** `lock_writer`: the lease holds the Writer mutex for this operation. */
    method LockWriter() returns (r: Result<()>)
      modifies this`holder, target`disk
      ensures target.disk == old(target.disk).(writer := target.disk.writer)
      ensures r.Ok? ==> holder && old(target.disk).writer.None? && target.disk.writer == Some(operation)
      ensures old(holder) ==> r.Stop? && target.disk == old(target.disk)
      ensures target.quiet && !old(holder) && old(target.disk).writer.None? ==> r.Ok?
      ensures r.Stop? ==>
                holder == old(holder) && target.disk == old(target.disk) && (target.quiet ==> r.halt == Raised)
    {
      if holder || target.disk.writer.Some? {
        return Stop(Raised);
      }
      var halt := Fate(target.quiet);
      if halt.Some? {
        return Stop(halt.value);
      }
      target.disk := target.disk.(writer := Some(operation));
      holder := true;
      return Ok(());
    }

    /** The step before every installation effect: the Writer lock, unless nothing is installed
        yet, then `final`, then the flag after which `abort` is refused. */
    method BeginCutover(first: bool) returns (r: Result<()>)
      modifies this`holder, this`cutoverStarted, target`disk
      ensures target.disk == old(target.disk).(writer := target.disk.writer)
      ensures cutoverStarted <==> old(cutoverStarted) || r.Ok?
      ensures old(holder) ==> holder && target.disk == old(target.disk)
      ensures r.Ok? ==> (first || holder) && (captured ==> Evidenced(target.disk, operation, revision))
      ensures target.quiet ==>
                (r.Ok? <==> && (first || old(holder) || old(target.disk).writer.None?) && target.agrees(Final)
                            && (captured ==> Evidenced(old(target.disk), operation, revision)))
                && r.Survived()
      // The lease is kept; one that was free is now held.
      ensures holder ==> old(holder) || (old(target.disk).writer.None? && target.disk.writer == Some(operation))
      ensures !holder ==> target.disk == old(target.disk)
      ensures target.quiet && !first ==> (holder <==> old(holder) || old(target.disk).writer.None?)
    {
      if !first && !holder {
        var _ :- LockWriter();
      }
      var final :- Ask(target.quiet, target.agrees(Final));
      if !final {
        return Stop(Raised);
      }
      if captured {
        var _ :- target.Verify(operation, revision);
      }
      cutoverStarted := true;
      return Ok(());
    }

    /** `abort`: refused after the cutover began; otherwise the gate is either untouched
        or exactly the captured bytes. */
    method Abort() returns (r: Result<()>)
      modifies this`holder, target`disk
      ensures !captured || cutoverStarted ==> r.Stop? && target.disk == old(target.disk)
      ensures target.disk == old(target.disk).(gate := target.disk.gate, writer := target.disk.writer)
      ensures target.disk.gate == old(target.disk).gate
              || (Abortable(target.disk.(gate := old(target.disk).gate), operation, revision)
                  && target.disk.gate == old(target.disk).stage.value.evidence.value.gate)
      ensures r.Ok? ==>
                && Abortable(target.disk.(gate := old(target.disk).gate), operation, revision)
                && target.disk.gate == old(target.disk).stage.value.evidence.value.gate
      ensures target.quiet && captured && !cutoverStarted
              && (old(holder) ==> old(target.disk).writer == Some(operation)) ==>
                (r.Ok? <==> && (old(holder) || old(target.disk).writer.None?) && target.agrees(OldConsumer)
                            && Abortable(old(target.disk).(writer := Some(operation)), operation, revision))
      ensures target.quiet ==> r.Survived() && (r.Stop? ==> target.disk.gate == old(target.disk).gate)
      ensures !holder ==> target.disk == old(target.disk)
      ensures holder ==> old(holder) || (old(target.disk).writer.None? && target.disk.writer == Some(operation))
      ensures old(holder) ==> target.disk.writer == old(target.disk).writer && holder
      ensures target.quiet && captured && !cutoverStarted && old(target.disk).writer.None? ==> holder
    {
      if !captured || cutoverStarted {
        return Stop(Raised);
      }
      if !holder {
        var _ :- LockWriter();
      }
      var consumer :- Ask(target.quiet, target.agrees(OldConsumer));
      if !consumer {
        return Stop(Raised);
      }
      r := target.Abort(operation, revision);
    }

    /** `release_writer`. */
    method ReleaseWriter() returns (r: Result<()>)
      modifies this`holder, target`disk
      ensures target.disk.writer in {old(target.disk).writer, None}
      ensures target.disk == old(target.disk).(writer := target.disk.writer)
      ensures !old(holder) ==> r.Ok? && target.disk == old(target.disk) && !holder
      ensures old(holder) && r.Ok? ==> !holder && target.disk.writer == None
      ensures target.quiet ==> r.Ok?
    {
      if holder {
        var before := Fate(target.quiet);
        if before.Some? {
          return Stop(before.value);
        }
        holder := false;
        target.disk := target.disk.(writer := None);
        var after := Fate(target.quiet);
        return if after.Some? then Stop(after.value) else Ok(());
      }
      return Ok(());
    }
  }

  // ---- Capture, close, abort ----

  /** Gate commands that leave a gate closed without a service snapshot or a new digest. */
  predicate Closing(c: Command) {
    c.DoQuiesce? || c.DoDrain? || (c.DoAdvance? && c.phase == Applying)
  }

  function CloseAll(g: Gate, op: string, commands: seq<Command>): Gate
    decreases |commands|
  {
    if commands == [] then g else CloseAll(After(g, op, commands[0]), op, commands[1..])
  }

  /** The gate after any such commands is open as it was, or in one of the phases from
      which `abort` restores it. */
  lemma {:induction false} ClosedIsAbortable(g: Gate, op: string, target: string, commands: seq<Command>)
    requires forall c <- commands :: Closing(c) && (c.DoQuiesce? ==> c.target == target)
    requires g == OpenGate(g.digest)
              || (g.phase in {Quiesced, Drained, Applying}
                  && g == Gate(g.digest, g.phase, Some(op), Some(target), None, None))
    ensures var g' := CloseAll(g, op, commands);
            && g'.digest == g.digest
            && (g' == OpenGate(g.digest)
                || (g'.phase in {Quiesced, Drained, Applying}
                    && g' == Gate(g.digest, g'.phase, Some(op), Some(target), None, None)))
    ensures g.phase != Open ==> CloseAll(g, op, commands).phase != Open
    decreases |commands|
  {
    if commands != [] {
      assert commands[0] in commands;
      ClosedIsAbortable(After(g, op, commands[0]), op, target, commands[1..]);
    }
  }

  /** Capture, then any closing commands, then abort: if nothing else changed and no
      call fails, the gate file holds its original bytes again. */
  method CaptureAndAbort(p: Prepared, commands: seq<Command>, layout: nat) returns (r: Result<()>)
    requires !p.holder && !p.captured && !p.cutoverStarted && p.target.quiet
    requires forall c <- commands :: Closing(c) && (c.DoQuiesce? ==> c.target == p.revision)
    requires p.target.disk.writer.None? && p.target.disk.consumerDigest == Some(p.baseline)
    requires p.target.agrees(OldConsumer)
    requires Capturable(p.target.disk, p.baseline) && p.repair in p.target.disk.critical
    modifies p, p.target
    ensures p.target.disk.gate.gate.phase == Open
    ensures CloseAll(old(p.target.disk).gate.gate, p.operation, commands).phase != Open ==>
              r.Ok? && p.target.disk.gate == old(p.target.disk).gate
  {
    r := p.Capture();
    assert r.Ok?;
    var g := p.target.disk.gate.gate;
    ClosedIsAbortable(g, p.operation, p.revision, commands);
    var closed := CloseAll(g, p.operation, commands);
    if closed == g {
      r := p.Abort();
      return;
    }
    p.target.disk := p.target.disk.(gate := GateFile(closed, layout));
    r := p.Abort();
  }

  /** How many of the commands the gate takes before it refuses one. */
  function Accepted(g: Gate, op: string, commands: seq<Command>): (n: nat)
    ensures n <= |commands|
    decreases |commands|
  {
    if commands == [] then 0
    else match Run(g, op, commands[0])
         case None => 0
         case Some(g') => 1 + Accepted(g', op, commands[1..])
  }

  lemma {:induction false} CloseMore(g: Gate, op: string, commands: seq<Command>, i: nat)
    requires i < |commands|
    ensures CloseAll(g, op, commands[..i + 1]) == After(CloseAll(g, op, commands[..i]), op, commands[i])
    decreases i
  {
    if i > 0 {
      assert commands[..i + 1][1..] == commands[1..][..i] && commands[..i][1..] == commands[1..][..i - 1];
      CloseMore(After(g, op, commands[0]), op, commands[1..], i - 1);
    } else {
      assert commands[..1][1..] == [] && commands[..0] == [];
    }
  }

  lemma {:induction false} AcceptedSoFar(g: Gate, op: string, commands: seq<Command>, i: nat)
    requires i < |commands| && Accepted(g, op, commands) >= i
    ensures Accepted(g, op, commands) > i <==> Run(CloseAll(g, op, commands[..i]), op, commands[i]).Some?
    decreases i
  {
    if i > 0 {
      assert commands[..i][1..] == commands[1..][..i - 1];
      AcceptedSoFar(After(g, op, commands[0]), op, commands[1..], i - 1);
    } else {
      assert commands[..0] == [];
    }
  }

  /** The gate file after the first i commands. */
  function ClosedFile(was: GateFile, op: string, commands: seq<Command>, layout: nat, i: nat): GateFile
    requires i <= |commands|
  {
    var g := CloseAll(was.gate, op, commands[..i]);
    if g == was.gate then was else GateFile(g, layout)
  }

  /** A closed gate that is told the operation needs recovery; an open one refuses. */
  function NeedsRecovery(file: GateFile, op: string, layout: nat): GateFile {
    Commanded(file, op, DoAdvance(RecoveryRequired, None), layout)
  }

  /** The gate's own commands, one at a time, as far as none fails. */
  method Close(p: Prepared, commands: seq<Command>, layout: nat) returns (r: Result<()>, ghost n: nat)
    requires forall c <- commands :: Closing(c) && (c.DoQuiesce? ==> c.target == p.revision)
    requires p.target.disk.gate.gate == OpenGate(p.target.disk.gate.gate.digest)
    modifies p.target`disk
    ensures n <= |commands| && (r.Ok? ==> n == |commands|)
    ensures p.target.disk
            == old(p.target.disk).(gate := ClosedFile(old(p.target.disk).gate, p.operation, commands, layout, n))
    ensures p.target.quiet ==> n == Accepted(old(p.target.disk).gate.gate, p.operation, commands) && r.Survived()
    ensures p.target.quiet ==> (r.Ok? <==> n == |commands|)
  {
    ghost var was := p.target.disk.gate;
    n := 0;
    for i := 0 to |commands|
      invariant n == i
      invariant p.target.disk
                == old(p.target.disk).(gate := ClosedFile(was, p.operation, commands, layout, i))
      invariant p.target.quiet ==> Accepted(was.gate, p.operation, commands) >= i
    {
      CloseMore(was.gate, p.operation, commands, i);
      ClosesOnce(was.gate, p.operation, p.revision, commands, i);
      if p.target.quiet {
        AcceptedSoFar(was.gate, p.operation, commands, i);
      }
      ghost var before := p.target.disk;
      r := p.target.Command(p.operation, commands[i], layout);
      if Run(before.gate.gate, p.operation, commands[i]).Some?
         && p.target.disk == before.(gate := ClosedFile(was, p.operation, commands, layout, i + 1)) {
        n := i + 1;
      }
      if r.Stop? {
        return;
      }
    }
    return Ok(()), n;
  }

  /** Once closed, the gate is never again as it was. */
  lemma ClosesOnce(g: Gate, op: string, target: string, commands: seq<Command>, i: nat)
    requires g == OpenGate(g.digest) && i < |commands|
    requires forall c <- commands :: Closing(c) && (c.DoQuiesce? ==> c.target == target)
    ensures var now, next := CloseAll(g, op, commands[..i]), CloseAll(g, op, commands[..i + 1]);
            next == g ==> now == g
  {
    CloseMore(g, op, commands, i);
    ClosedIsAbortable(g, op, target, commands[..i]);
    CommandsKeep(CloseAll(g, op, commands[..i]), op, commands[i]);
  }

  /** What a quiet failed cutover leaves in the gate file: the captured bytes where `abort`
      may write them, a gate that needs recovery otherwise. */
  function LeftBehind(was: Disk, file: GateFile, op: string, oldConsumer: bool, layout: nat): GateFile {
    if was.writer.None? && oldConsumer && file.gate.phase != Open && was.consumerDigest == Some(was.gate.gate.digest)
    then was.gate
    else NeedsRecovery(file, op, layout)
  }

  /** The handler of a failed preparation: abort, release the Writer lock, and record that
      recovery is needed unless the old gate is back. */
  method HandleFailure(p: Prepared, layout: nat) returns (r: Result<()>)
    requires p.captured && !p.cutoverStarted && (p.holder ==> p.target.disk.writer == Some(p.operation))
    modifies p`holder, p.target`disk
    ensures p.target.disk == old(p.target.disk).(gate := p.target.disk.gate, writer := p.target.disk.writer)
    ensures var file := old(p.target.disk).gate;
            || p.target.disk.gate in {file, NeedsRecovery(file, p.operation, layout)}
            || (Abortable(old(p.target.disk).(writer := Some(p.operation)), p.operation, p.revision)
                && var captured := old(p.target.disk).stage.value.evidence.value.gate;
                   p.target.disk.gate in {captured, NeedsRecovery(captured, p.operation, layout)})
    ensures p.target.quiet ==>
              p.target.disk.gate
              == if && (old(p.holder) || old(p.target.disk).writer.None?) && p.target.agrees(OldConsumer)
                    && Abortable(old(p.target.disk).(writer := Some(p.operation)), p.operation, p.revision)
                 then old(p.target.disk).stage.value.evidence.value.gate
                 else NeedsRecovery(old(p.target.disk).gate, p.operation, layout)
    ensures p.target.quiet ==>
              !p.holder && (old(p.holder) || old(p.target.disk).writer.None? ==> p.target.disk.writer.None?)
  {
    var aborted := p.Abort();
    if aborted == Stop(Died) {
      return Stop(Died);
    }
    var _ :- p.ReleaseWriter();
    if aborted.Stop? {
      r := p.target.Command(p.operation, DoAdvance(RecoveryRequired, None), layout);
    } else {
      r := Ok(());
    }
  }

  /** The gate file is as it was, as the first n commands left it, or that and marked. */
  ghost predicate GateAfter(was: GateFile, now: GateFile, op: string, commands: seq<Command>, layout: nat, n: nat) {
    n <= |commands|
    && var file := ClosedFile(was, op, commands, layout, n);
    now in {was, file, NeedsRecovery(file, op, layout)}
  }

  /** The whole preparation: capture, closing commands, then the cutover, or else an abort.
      Once the cutover began the gate stays as the commands left it. */
  method CutoverOrAbort(p: Prepared, commands: seq<Command>, layout: nat) returns (r: Result<()>)
    requires !p.holder && !p.captured && !p.cutoverStarted
    requires forall c <- commands :: Closing(c) && (c.DoQuiesce? ==> c.target == p.revision)
    modifies p, p.target
    ensures exists n: nat :: GateAfter(old(p.target.disk).gate, p.target.disk.gate, p.operation, commands, layout, n)
    ensures r.Ok? <==> p.cutoverStarted
    ensures p.cutoverStarted ==>
              && p.holder && p.captured && Evidenced(p.target.disk, p.operation, p.revision)
              && p.target.disk.gate == ClosedFile(old(p.target.disk).gate, p.operation, commands, layout, |commands|)
    ensures p.target.quiet ==>
              (p.captured <==> old(Capturable(p.target.disk, p.baseline) && p.repair in p.target.disk.critical))
              && (!p.captured ==> p.target.disk == old(p.target.disk))
    ensures p.target.quiet ==>
              (p.cutoverStarted
               <==> && p.captured && Accepted(old(p.target.disk).gate.gate, p.operation, commands) == |commands|
                    && old(p.target.disk).writer.None? && p.target.agrees(Final))
    // A failed one is aborted where the abort's conditions hold, and marked otherwise.
    ensures p.target.quiet && p.captured && !p.cutoverStarted ==>
              var n := Accepted(old(p.target.disk).gate.gate, p.operation, commands);
              var file := ClosedFile(old(p.target.disk).gate, p.operation, commands, layout, n);
              p.target.disk.gate
              == LeftBehind(old(p.target.disk), file, p.operation, p.target.agrees(OldConsumer), layout)
  {
    ghost var was := p.target.disk;
    assert GateAfter(was.gate, was.gate, p.operation, commands, layout, 0);
    var _ :- p.Capture();
    ghost var n: nat;
    r, n := Close(p, commands, layout);
    ghost var file := p.target.disk.gate;
    assert file == ClosedFile(was.gate, p.operation, commands, layout, n);
    ClosedIsAbortable(was.gate.gate, p.operation, p.revision, commands[..n]);
    assert GateAfter(was.gate, file, p.operation, commands, layout, n);
    if r.Ok? {
      r := p.BeginCutover(false);
    }
    if r == Stop(Raised) {
      var _ := HandleFailure(p, layout);
      assert NeedsRecovery(was.gate, p.operation, layout) == was.gate;
      assert GateAfter(was.gate, p.target.disk.gate, p.operation, commands, layout, n);
    }
  }
}
