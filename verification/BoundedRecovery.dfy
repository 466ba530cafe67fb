/** Bounded recovery of a retained production operation (deploy/bounded_recovery.py):
    reserve a receipt, let the apply run, archive the old backend record, retire it,
    complete. Every call can die at any instruction, archive writes included. */
module BoundedRecovery {
  import opened Effects

  // ---- Files ----

  /** A JSON document: the apply record of a production operation, or anything else. */
  datatype Doc = Apply(target: string) | Foreign(text: string)

  /** The bytes of a file: one of the encodings of a document, or a proper prefix of a file. */
  datatype Bytes = Whole(doc: Doc, layout: nat) | Torn(file: Bytes, kept: nat)

  datatype GatePhase = RecoveryRequired | Applying | Verified | Other

  datatype Gate = Gate(digest: string, phase: GatePhase, operation: string, target: string,
                       previousActive: string, verified: Option<string>)

  datatype Binding = Binding(operation: string, retained: string, installed: string, desired: string, pair: string)

  /** The evidence kept of the installation recovery started from. */
  datatype Original = Original(facts: Facts, backend: Option<Bytes>, gate: Gate)

  /** Digests of the installed release, its resources, its credentials and the consumer file. */
  datatype Facts = Facts(identity: string, resources: string, credentials: string, consumer: string)

  datatype State = Reserved | BackendComplete | Complete

  datatype Receipt = Receipt(binding: Binding, original: Original, config: string, state: State, digest: string)

  /** `record`: the active operation record. `pending`: the receipt's `.next` file exists. */
  datatype Disk = Disk(record: Option<Bytes>, receipt: Option<Receipt>, pending: bool, archive: Option<Bytes>,
                       gate: Option<Gate>, facts: Facts)

  /** What the caller asks to continue. */
  datatype Request = Request(binding: Binding, config: string, resources: string)

  datatype Proof = Fresh(original: Original, config: string) | Continued(receipt: Receipt)

  // ---- Pure checks ----

  predicate Is(bytes: Option<Bytes>, target: string) {
    bytes.Some? && bytes.value.Whole? && bytes.value.doc == Apply(target)
  }

  /** The bytes are one of the encodings of the apply record of this revision. */
  ghost predicate ApplyRecord(bytes: Bytes, target: string) {
    exists layout: nat :: bytes == Whole(Apply(target), layout)
  }

  /** `gate_value`. */
  predicate GateOpenFor(gate: Gate, b: Binding) {
    && gate.operation == b.operation && gate.phase in {RecoveryRequired, Applying}
    && gate.target in {b.retained, b.desired} && gate.verified == None
  }

  /** `gate_value(..., final=True)`. */
  predicate GateFinal(gate: Gate, b: Binding) {
    gate.operation == b.operation && gate.phase == Verified && gate.target == b.desired
        && gate.verified == Some(b.desired)
  }

  predicate GateOriginal(gate: Gate, b: Binding) {
    GateOpenFor(gate, b) && gate.phase == RecoveryRequired && gate.target == b.retained
  }

  predicate BackendOriginal(backend: Option<Bytes>, b: Binding) {
    backend.None? || Is(backend, b.retained)
  }

  /** What `load_receipt` demands. */
  predicate ReceiptOk(r: Receipt) {
    BackendOriginal(r.original.backend, r.binding) && GateOriginal(r.original.gate, r.binding)
  }

  /** The active record is the original, or the apply record of the desired revision
      where there was none. */
  predicate BackendMatches(record: Option<Bytes>, r: Receipt) {
    record == r.original.backend || (r.original.backend.None? && Is(record, r.binding.desired))
  }

  function Next(state: State): State {
    if state == Reserved then BackendComplete else Complete
  }

  // ---- History ----

  datatype Event =
    | Wrote(receipt: Receipt)      // the receipt file replaced
    | Archived(raw: Bytes)         // the archive created and about to be written
    | Unlinked                     // the active record removed
    | Saw                          // the last look of `begin` or `finalize`

  /** Each entry keeps the disk its event hit. */
  datatype Log = Empty | Then(before: Log, event: Event, disk: Disk)

  function LastReceipt(log: Log): Option<Receipt> {
    match log
    case Empty => None
    case Then(before, event, _) => if event.Wrote? then Some(event.receipt) else LastReceipt(before)
  }

  /** The archive holds the original backend, whole. */
  predicate ArchiveWhole(d: Disk, r: Receipt) {
    if r.original.backend.None? then d.archive.None? else d.archive == r.original.backend
  }

  predicate FinalView(d: Disk, r: Receipt) {
    && d.record.None? && d.gate.Some? && GateFinal(d.gate.value, r.binding)
    && d.gate.value.digest == r.digest && d.gate.value.previousActive == r.original.gate.previousActive
  }

  /** The look showed the evidence the receipt keeps. */
  predicate FirstView(d: Disk, r: Receipt) {
    && d.receipt.None? && d.archive.None? && d.record == r.original.backend && d.gate == Some(r.original.gate)
    && d.facts.consumer == r.original.facts.consumer
  }

  predicate Lawful1(before: Log, event: Event, d: Disk) {
    match event
    case Wrote(r) =>
      if d.receipt.None? then r.state == Reserved && d.archive.None? && ReceiptOk(r)
          && before.Then? && before.event == Saw && FirstView(before.disk, r)
          && (r.original.backend.Some? ==> d.record == r.original.backend)
      else
        && r == d.receipt.value.(state := Next(d.receipt.value.state)) && d.receipt.value.state != Complete
        && (r.state == BackendComplete ==> ArchiveWhole(d, r) && d.record.Some? && BackendMatches(d.record, r))
        && (r.state == Complete ==> before.Then? && before.event == Saw && FinalView(before.disk, r))
    case Archived(raw) =>
      d.receipt.Some? && d.receipt.value.state == Reserved && d.archive.None?
      && d.record == Some(raw) && d.receipt.value.original.backend == Some(raw)
    case Unlinked =>
      && before.Then? && before.event.Wrote? && before.event.receipt.state == BackendComplete
      && d.receipt == Some(before.event.receipt) && ArchiveWhole(d, d.receipt.value)
      && d.record.Some? && BackendMatches(d.record, d.receipt.value)
    case Saw => true
  }

  predicate Lawful(log: Log) {
    log.Then? ==>
      Lawful(log.before) && log.disk.receipt == LastReceipt(log.before) && Lawful1(log.before, log.event, log.disk)
  }

  /** Nothing of the original backend is ever lost, and an archive exists only as the
      (possibly torn) copy of an original that existed. */
  predicate Conserved(d: Disk) {
    match d.receipt
    case None => d.archive.None?
    case Some(r) =>
      && ReceiptOk(r)
      && (r.original.backend.None? ==> d.archive.None?)
      && (r.original.backend.Some? ==>
            d.archive.None? || d.archive == r.original.backend
                || (d.archive.value.Torn? && d.archive.value.file == r.original.backend.value))
      && (r.state != Reserved ==> ArchiveWhole(d, r))
      && (r.state == Reserved && r.original.backend.Some? ==> d.record == r.original.backend)
  }

  predicate Inv(d: Disk, log: Log) {
    Lawful(log) && d.receipt == LastReceipt(log) && Conserved(d)
  }

  // ---- The environment ----

  /** While a call runs, the production locks keep others off the operation's files;
      the gate and the facts can change at any time. */
  predicate Moved(d: Disk, d': Disk) {
    d' == d.(gate := d'.gate, facts := d'.facts)
  }

  /** Between calls a record can appear; an existing one is left alone while its
      operation is being continued. */
  predicate Elapsed(d: Disk, d': Disk) {
    && d'.receipt == d.receipt && d'.pending == d.pending && d'.archive == d.archive
    && (d.record.Some? && d.receipt.Some? && d.receipt.value.state != Complete ==> d'.record == d.record)
  }

  /** Checks of code that is not part of this model. */
  datatype Check =
    | Clear               // no reinstall journal, `current` points at the installed release
    | Current             // `current` points at the installed or the finished desired release
    | FinalInstallation
    | StillFinal          // the same, once more
    | Eligible            // the admission probe confirms the gate

  class Store {
    var disk: Disk
    ghost var log: Log
    /** Nobody interferes, no call fails, and the outside checks answer as `agrees` says. */
    const quiet: bool
    const agrees: Check -> bool
    /** The desired digest the admission probe answers on a quiet host. */
    const probed: string

    /** A host on which this operation was never continued. */
    constructor (disk: Disk, quiet: bool, agrees: Check -> bool, probed: string)
      requires disk.receipt.None? && disk.archive.None?
      ensures Valid() && this.disk == disk && log == Empty && this.quiet == quiet && this.agrees == agrees
      ensures this.probed == probed
    {
      this.disk, this.log, this.quiet, this.agrees, this.probed := disk, Empty, quiet, agrees, probed;
    }

    ghost predicate Valid()
      reads this
    {
      Inv(disk, log)
    }

    method Interfere()
      requires Valid()
      modifies this`disk
      ensures Valid() && Moved(old(disk), disk) && (quiet ==> disk == old(disk))
    {
      var gate: Option<Gate>, facts: Facts := *, *;
      if !quiet {
        disk := disk.(gate := gate, facts := facts);
      }
    }

    method Wait()
      requires Valid()
      modifies this`disk
      ensures Valid() && Elapsed(old(disk), disk)
    {
      var record: Option<Bytes> := *;
      if disk.record.None? || disk.receipt.None? || disk.receipt.value.state == Complete {
        disk := disk.(record := record);
      }
      Interfere();
    }

    /** One read; the caller uses one part of what it shows. */
    method Look() returns (r: Result<Disk>)
      requires Valid()
      modifies this`disk
      ensures Valid() && Moved(old(disk), disk) && (r.Ok? ==> r.value == disk)
      ensures quiet ==> r.Ok? && disk == old(disk)
    {
      Interfere();
      var halt := Fate(quiet);
      return if halt.Some? then Stop(halt.value) else Ok(disk);
    }

    method Ask(check: Check) returns (r: Result<bool>)
      requires Valid()
      modifies this`disk
      ensures Valid() && Moved(old(disk), disk)
      ensures quiet ==> r == Ok(agrees(check)) && disk == old(disk)
    {
      Interfere();
      r := Effects.Ask(quiet, agrees(check));
    }

    /** `atomic`: write a `.next` file, then rename it over the receipt. */
    method Atomic(value: Receipt, create: bool) returns (r: Result<()>)
      requires Valid() && (!create ==> disk.receipt.Some?)
      requires (create && disk.receipt.Some?) || Lawful1(log, Wrote(value), disk)
      modifies this
      ensures Valid() && (create && old(disk.receipt).Some? ==> r.Stop? && log == old(log))
      ensures r.Ok? ==> Moved(old(disk).(receipt := Some(value), pending := false), disk)
      ensures log == old(log) || (log.Then? && log.before == old(log) && log.event == Wrote(value))
      ensures r.Ok? ==> log != old(log)
      ensures quiet ==> if old(disk).pending || (create && old(disk).receipt.Some?)
                        then r.Stop? && disk == old(disk) && log == old(log)
                        else r.Ok? && disk == old(disk).(receipt := Some(value))
    {
      Interfere();
      var before := Fate(quiet);
      if before.Some? {
        return Stop(before.value);
      }
      if disk.pending || (create && disk.receipt.Some?) {
        return Stop(Raised);
      }
      disk := disk.(pending := true);
      var during := Fate(quiet);
      if during.Some? {
        return Stop(during.value);
      }
      log := Then(log, Wrote(value), disk);
      disk := disk.(receipt := Some(value), pending := false);
      var after := Fate(quiet);
      return if after.Some? then Stop(after.value) else Ok(());
    }

    /** The exclusive create and write of the archive: after a crash any prefix of it
        may be there. */
    method Archive(raw: Bytes) returns (r: Result<()>)
      requires Valid() && disk.receipt.Some? && disk.receipt.value.state == Reserved
      requires disk.record == Some(raw) && disk.receipt.value.original.backend == Some(raw)
      modifies this
      ensures Valid() && (old(disk.archive).Some? ==> r.Stop? && log == old(log))
      ensures r.Ok? ==> Moved(old(disk).(archive := Some(raw)), disk)
      ensures quiet ==> if old(disk).archive.Some? then r.Stop? && disk == old(disk) && log == old(log)
                        else r.Ok? && disk == old(disk).(archive := Some(raw))
      // What was done is in the history.
      ensures disk.archive == old(disk).archive || (log.Then? && log.before == old(log) && log.event == Archived(raw))
    {
      Interfere();
      var before := Fate(quiet);
      if before.Some? {
        return Stop(before.value);
      }
      if disk.archive.Some? {
        return Stop(Raised);
      }
      log := Then(log, Archived(raw), disk);
      var during := Fate(quiet);
      var kept: nat := *;
      disk := disk.(archive := Some(if during.Some? then Torn(raw, kept) else raw));
      if during.Some? {
        return Stop(during.value);
      }
      var after := Fate(quiet);
      return if after.Some? then Stop(after.value) else Ok(());
    }

    method Unlink() returns (r: Result<()>)
      requires Valid() && Lawful1(log, Unlinked, disk)
      modifies this
      ensures Valid() && (r.Ok? ==> disk.receipt == old(disk.receipt))
      ensures quiet ==> r.Ok? && disk == old(disk).(record := None)
      // What was done is in the history.
      ensures disk.record == old(disk).record || (log.Then? && log.before == old(log) && log.event == Unlinked)
    {
      Interfere();
      var before := Fate(quiet);
      if before.Some? {
        return Stop(before.value);
      }
      log := Then(log, Unlinked, disk);
      disk := disk.(record := None);
      var after := Fate(quiet);
      return if after.Some? then Stop(after.value) else Ok(());
    }
  }

  // ---- When each operation is allowed, on what the disk holds ----

  predicate Loadable(d: Disk) {
    !d.pending && d.receipt.Some? && ReceiptOk(d.receipt.value)
  }

  /** The installed release, resources and credentials are the original ones. */
  predicate FactsKept(d: Disk, r: Receipt) {
    && d.facts.identity == r.original.facts.identity && d.facts.resources == r.original.facts.resources
    && d.facts.credentials == r.original.facts.credentials
  }

  predicate GateContinues(gate: Option<Gate>, r: Receipt, b: Binding) {
    && gate.Some? && GateOpenFor(gate.value, b) && gate.value.previousActive == r.original.gate.previousActive
    && gate.value.digest in {r.original.gate.digest, r.digest}
  }

  predicate Validatable(d: Disk, b: Binding, applying: bool, absent: Option<bool>) {
    && Loadable(d)
    && var r := d.receipt.value;
    && (absent.Some? ==> d.record.None? == absent.value)
    && r.state == Reserved && r.binding.operation == b.operation && r.binding.desired == b.desired
    && BackendMatches(d.record, r) && FactsKept(d, r) && GateContinues(d.gate, r, r.binding)
    && d.gate.value.target == b.desired && (applying ==> d.gate.value.phase == Applying)
  }

  /** Nothing was written yet beyond the receipt: the original is in place, or, where
      there was none, at most what Begin derived. */
  predicate Untouched(d: Disk, r: Receipt) {
    d.archive.None? && (d.record == r.original.backend
                        || (r.original.backend.None? && Validatable(d, r.binding, false, None)))
  }

  predicate Continuable(d: Disk, q: Request) {
    && Loadable(d)
    && var r := d.receipt.value;
    && r.state == Reserved && r.binding == q.binding && r.config == q.config
    && d.facts.identity == r.original.facts.identity && q.resources == r.original.facts.resources
    && d.facts.credentials == r.original.facts.credentials
    && Untouched(d, r) && GateContinues(d.gate, r, q.binding)
  }

  predicate Startable(d: Disk, q: Request) {
    && d.receipt.None? && d.archive.None? && q.resources == d.facts.resources
    && BackendOriginal(d.record, q.binding) && d.gate.Some? && GateOriginal(d.gate.value, q.binding)
  }

  predicate Inspectable(d: Disk, q: Request, probe: bool, probed: string, agrees: Check -> bool) {
    && q.binding.installed == q.binding.retained && (probe ==> agrees(Eligible))
    && if d.receipt.Some? then agrees(Current) && Continuable(d, q) && (probe ==> probed == d.receipt.value.digest)
       else agrees(Clear) && Startable(d, q)
  }

  /** What `inspect` answers. */
  function ProofOf(d: Disk, q: Request): Proof
    requires d.receipt.Some? || d.gate.Some?
  {
    if d.receipt.Some? then Continued(d.receipt.value) else Fresh(Original(d.facts, d.record, d.gate.value), q.config)
  }

  predicate Beginnable(d: Disk, q: Request, proof: Proof, probed: string, agrees: Check -> bool) {
    && Inspectable(d, q, false, probed, agrees) && agrees(Eligible) && proof == ProofOf(d, q)
    && (if proof.Continued? then probed == proof.receipt.digest else !d.pending)
  }

  predicate Revalidatable(d: Disk, q: Request, proof: Receipt, probed: string) {
    && Loadable(d) && d.receipt == Some(proof) && proof.binding == q.binding && proof.state == Reserved
    && d.facts.identity == proof.original.facts.identity && q.resources == proof.original.facts.resources
    && q.config == proof.config && d.facts.credentials == proof.original.facts.credentials
    && Untouched(d, proof) && d.gate.Some? && GateOpenFor(d.gate.value, q.binding)
    && d.gate.value.previousActive == proof.original.gate.previousActive && probed == proof.digest
    && (d.facts.consumer == proof.original.facts.consumer || d.gate.value.digest == proof.digest)
  }

  predicate Finishable(d: Disk, b: Binding) {
    && Validatable(d, b, true, None) && d.record.Some? && d.archive.None?
  }

  predicate Completable(d: Disk, q: Request, proof: Receipt, probed: string) {
    && Loadable(d) && d.receipt.value == proof.(state := BackendComplete) && proof.binding == q.binding
    && FinalView(d, d.receipt.value) && probed == proof.digest
  }

  // ---- Operations that only read ----

  /** `load_receipt`. */
  method LoadReceipt(s: Store) returns (r: Result<Receipt>)
    requires s.Valid()
    modifies s`disk
    ensures s.Valid() && Moved(old(s.disk), s.disk)
    ensures r.Ok? ==> s.disk.receipt == Some(r.value) && !s.disk.pending && ReceiptOk(r.value)
    // A receipt keeps the evidence recovery started from.
    ensures r.Ok? ==>
              && var b, first := r.value.binding, r.value.original;
              && first.gate == Gate(first.gate.digest, RecoveryRequired, b.operation, b.retained,
                                    first.gate.previousActive, None)
              && (first.backend.Some? ==> ApplyRecord(first.backend.value, b.retained))
    ensures s.quiet ==> s.disk == old(s.disk) && (r.Ok? <==> Loadable(s.disk))
  {
    var d :- s.Look();
    if d.pending || d.receipt.None? || !ReceiptOk(d.receipt.value) {
      return Stop(Raised);
    }
    return Ok(d.receipt.value);
  }

  /** `observe`: the admission probe confirms the gate; it answers the desired digest. */
  method Probe(s: Store) returns (r: Result<string>)
    requires s.Valid()
    modifies s`disk
    ensures s.Valid() && Moved(old(s.disk), s.disk)
    ensures s.quiet ==> s.disk == old(s.disk) && r == if s.agrees(Eligible) then Ok(s.probed) else Stop(Raised)
  {
    var eligible :- s.Ask(Eligible);
    var digest: string := *;
    return if eligible then Ok(if s.quiet then s.probed else digest) else Stop(Raised);
  }

  /** `backend_validate`. */
  method BackendValidate(s: Store, b: Binding, applying: bool, absent: Option<bool>) returns (r: Result<Receipt>)
    requires s.Valid()
    modifies s`disk
    ensures s.Valid() && Moved(old(s.disk), s.disk)
    ensures r.Ok? ==>
              && s.disk.receipt == Some(r.value) && r.value.state == Reserved && !s.disk.pending
              && r.value.binding.operation == b.operation && r.value.binding.desired == b.desired
              && BackendMatches(s.disk.record, r.value) && GateContinues(s.disk.gate, r.value, r.value.binding)
              && s.disk.gate.value.target == b.desired && (applying ==> s.disk.gate.value.phase == Applying)
              && (absent.Some? ==> s.disk.record.None? == absent.value)
    ensures r.Ok? ==>
              && var gate, first := s.disk.gate.value, r.value.original;
              && gate.phase in {RecoveryRequired, Applying}
              && gate == Gate(gate.digest, gate.phase, b.operation, b.desired, first.gate.previousActive, None)
              && (s.disk.record != first.backend ==>
                    first.backend.None? && s.disk.record.Some? && ApplyRecord(s.disk.record.value, b.desired))
    ensures s.quiet ==> s.disk == old(s.disk) && (r.Ok? <==> Validatable(s.disk, b, applying, absent))
  {
    var receipt :- LoadReceipt(s);
    var d :- s.Look();
    if absent.Some? && d.record.None? != absent.value {
      return Stop(Raised);
    }
    if receipt.state != Reserved || receipt.binding.operation != b.operation || receipt.binding.desired != b.desired
       || !BackendMatches(d.record, receipt) {
      return Stop(Raised);
    }
    d :- s.Look();
    if d.facts.identity != receipt.original.facts.identity || d.facts.resources != receipt.original.facts.resources
       || d.facts.credentials != receipt.original.facts.credentials {
      return Stop(Raised);
    }
    d :- s.Look();
    var gate, first := d.gate, receipt.original.gate;
    if gate.None? || !GateOpenFor(gate.value, receipt.binding) || gate.value.target != b.desired
       || (applying && gate.value.phase != Applying) || gate.value.digest !in {first.digest, receipt.digest}
       || gate.value.previousActive != first.previousActive {
      return Stop(Raised);
    }
    return Ok(receipt);
  }

  /** `continuation_backend`: the untouched original, or, where there was none, the
      record Begin made for the desired revision. */
  method ContinuationBackend(s: Store, receipt: Receipt) returns (r: Result<Option<Bytes>>)
    requires s.Valid() && s.disk.receipt == Some(receipt)
    modifies s`disk
    ensures s.Valid() && Moved(old(s.disk), s.disk)
    ensures r.Ok? ==> s.disk.archive.None? && (r.value == receipt.original.backend || receipt.original.backend.None?)
    ensures s.quiet ==>
              && s.disk == old(s.disk) && (r.Ok? <==> Untouched(s.disk, receipt))
              && (r.Ok? ==> r.value == s.disk.record)
  {
    var d :- s.Look();
    if d.archive.Some? {
      return Stop(Raised);
    }
    d :- s.Look();
    var raw := d.record;
    if raw != receipt.original.backend {
      if receipt.original.backend.Some? {
        return Stop(Raised);
      }
      var _ :- BackendValidate(s, receipt.binding, false, None);
    }
    return Ok(raw);
  }

  /** The `inspect` branch for an existing receipt. */
  method InspectReceipt(s: Store, q: Request, probe: bool) returns (r: Result<Proof>)
    requires s.Valid() && s.disk.receipt.Some?
    modifies s`disk
    ensures s.Valid() && Moved(old(s.disk), s.disk)
    ensures r.Ok? ==>
              && r.value.Continued? && s.disk.receipt == Some(r.value.receipt) && !s.disk.pending
              && s.disk.archive.None?
              && r.value.receipt.state == Reserved && r.value.receipt.binding == q.binding
              && r.value.receipt.config == q.config
    ensures s.quiet ==> s.disk == old(s.disk)
    ensures s.quiet ==> 
              (r.Ok? <==> s.agrees(Current) && Continuable(s.disk, q)
                          && (probe ==> s.agrees(Eligible) && s.probed == s.disk.receipt.value.digest))
  {
    var receipt :- LoadReceipt(s);
    if receipt.state == Reserved && s.disk.archive.Some? {
      return Stop(Raised);
    }
    if receipt.binding != q.binding || receipt.state != Reserved || receipt.config != q.config {
      return Stop(Raised);
    }
    var d :- s.Look();
    if d.facts.identity != receipt.original.facts.identity || q.resources != receipt.original.facts.resources
       || d.facts.credentials != receipt.original.facts.credentials {
      return Stop(Raised);
    }
    var backend :- ContinuationBackend(s, receipt);
    var current :- s.Ask(Current);
    if !current {
      return Stop(Raised);
    }
    d :- s.Look();
    var gate, first := d.gate, receipt.original.gate;
    if gate.None? || !GateOpenFor(gate.value, q.binding) || gate.value.previousActive != first.previousActive
       || gate.value.digest !in {first.digest, receipt.digest} {
      return Stop(Raised);
    }
    if probe {
      var digest :- Probe(s);
      if digest != receipt.digest {
        return Stop(Raised);
      }
    }
    d :- s.Look();
    if d.record != backend {
      return Stop(Raised);
    }
    return Ok(Continued(receipt));
  }

  /** `inspect`. It writes nothing. It returns either a proof with nothing reserved
      yet or the receipt that is reserved now, and refuses otherwise. */
  method Inspect(s: Store, q: Request, probe: bool) returns (r: Result<Proof>)
    requires s.Valid()
    modifies s`disk
    ensures s.Valid() && Moved(old(s.disk), s.disk)
    ensures r.Ok? && r.value.Fresh? ==>
              && s.disk.receipt.None? && s.disk.archive.None? && r.value.config == q.config
              && BackendOriginal(r.value.original.backend, q.binding) && GateOriginal(r.value.original.gate, q.binding)
              // recovery is required of this operation at the retained revision
              && r.value.original.gate == Gate(r.value.original.gate.digest, RecoveryRequired, q.binding.operation,
                   q.binding.retained, r.value.original.gate.previousActive, None)
              && (r.value.original.backend.Some? ==>
                    ApplyRecord(r.value.original.backend.value, q.binding.retained))
              // the last look showed what the proof holds
              && s.disk.record == r.value.original.backend && s.disk.gate == Some(r.value.original.gate)
              && s.disk.facts.consumer == r.value.original.facts.consumer
    ensures r.Ok? && r.value.Continued? ==>
              && s.disk.receipt == Some(r.value.receipt) && !s.disk.pending && s.disk.archive.None?
              && r.value.receipt.state == Reserved && r.value.receipt.binding == q.binding
              && r.value.receipt.config == q.config
    // Exactly when it answers, and what, on a quiet host.
    ensures s.quiet ==> s.disk == old(s.disk) && (r.Ok? <==> Inspectable(s.disk, q, probe, s.probed, s.agrees))
    ensures s.quiet && r.Ok? ==> r.value == ProofOf(s.disk, q)
  {
    if q.binding.installed != q.binding.retained {
      return Stop(Raised);
    }
    var d :- s.Look();
    if d.receipt.Some? {
      r := InspectReceipt(s, q, probe);
      return;
    }
    if d.archive.Some? {
      return Stop(Raised);
    }
    var clear :- s.Ask(Clear);
    if !clear {
      return Stop(Raised);
    }
    d :- s.Look();
    var facts := d.facts;
    if q.resources != facts.resources {
      return Stop(Raised);
    }
    d :- s.Look();
    var backend := d.record;
    if !BackendOriginal(backend, q.binding) {
      return Stop(Raised);
    }
    d :- s.Look();
    var gate := d.gate;
    if gate.None? || !GateOriginal(gate.value, q.binding) {
      return Stop(Raised);
    }
    d :- s.Look();
    var consumer := d.facts.consumer;
    if probe {
      var _ :- Probe(s);
    }
    d :- s.Look();
    if d.record != backend || d.gate != gate || d.facts.consumer != consumer {
      return Stop(Raised);
    }
    return Ok(Fresh(Original(facts.(consumer := consumer), backend, gate.value), q.config));
  }

  /** `revalidate`: reads only. */
  method Revalidate(s: Store, q: Request, proof: Receipt) returns (r: Result<Receipt>)
    requires s.Valid()
    modifies s`disk
    ensures s.Valid() && Moved(old(s.disk), s.disk)
    ensures r.Ok? ==>
              && r.value == proof && s.disk.receipt == Some(proof) && proof.state == Reserved && s.disk.archive.None?
              // the last look showed this
              && s.disk.gate.Some? && GateOpenFor(s.disk.gate.value, q.binding)
              && var gate := s.disk.gate.value;
              && gate.phase in {RecoveryRequired, Applying} && gate.target in {q.binding.retained, q.binding.desired}
              && gate == Gate(gate.digest, gate.phase, q.binding.operation, gate.target,
                              proof.original.gate.previousActive, None)
              && s.disk.facts.credentials == proof.original.facts.credentials
    ensures s.quiet ==>
              s.disk == old(s.disk) && (r.Ok? <==> s.agrees(Eligible) && Revalidatable(s.disk, q, proof, s.probed))
  {
    var receipt :- LoadReceipt(s);
    if receipt != proof || receipt.binding != q.binding || receipt.state != Reserved {
      return Stop(Raised);
    }
    var d :- s.Look();
    if d.facts.identity != receipt.original.facts.identity || q.resources != receipt.original.facts.resources
       || q.config != receipt.config || d.facts.credentials != receipt.original.facts.credentials {
      return Stop(Raised);
    }
    var backend :- ContinuationBackend(s, receipt);
    d :- s.Look();
    var gate := d.gate;
    if gate.None? || !GateOpenFor(gate.value, q.binding)
        || gate.value.previousActive != receipt.original.gate.previousActive {
      return Stop(Raised);
    }
    var digest :- Probe(s);
    d :- s.Look();
    if digest != receipt.digest
        || (d.facts.consumer != receipt.original.facts.consumer && gate.value.digest != receipt.digest) {
      return Stop(Raised);
    }
    d :- s.Look();
    if d.gate != gate || d.record != backend || d.facts.credentials != receipt.original.facts.credentials {
      return Stop(Raised);
    }
    return Ok(receipt);
  }

  // ---- Operations that write ----

  /** `begin`. Re-entered with the reserved receipt it writes nothing. */
  method Begin(s: Store, q: Request, proof: Proof) returns (r: Result<Receipt>)
    requires s.Valid()
    modifies s
    ensures s.Valid()
    ensures proof.Continued? || old(s.disk.receipt).Some? ==> s.log == old(s.log) && Moved(old(s.disk), s.disk)
    ensures r.Ok? ==> s.disk.receipt == Some(r.value) && r.value.state == Reserved && s.disk.archive.None?
    ensures r.Ok? && proof.Continued? ==> r.value == proof.receipt
    ensures r.Ok? && proof.Fresh? ==> r.value.original == proof.original && r.value.binding == q.binding
    ensures s.quiet ==> (r.Ok? <==> Beginnable(old(s.disk), q, proof, s.probed, s.agrees))
    ensures s.quiet ==> s.disk == if r.Ok? then old(s.disk).(receipt := Some(r.value)) else old(s.disk)
    ensures s.quiet && r.Ok? && proof.Fresh? ==>
              r.value == Receipt(q.binding, proof.original, q.config, Reserved, s.probed)
  {
    var seen :- Inspect(s, q, false);
    if seen != proof {
      return Stop(Raised);
    }
    if proof.Continued? {
      var d :- s.Look();
      if d.gate.None? || !GateOpenFor(d.gate.value, q.binding) {
        return Stop(Raised);
      }
      var digest :- Probe(s);
      if digest != proof.receipt.digest {
        return Stop(Raised);
      }
      return Ok(proof.receipt);
    }
    var digest :- Probe(s);
    seen :- Inspect(s, q, false);
    if seen != proof {
      return Stop(Raised);
    }
    s.log := Then(s.log, Saw, s.disk);
    var receipt := Receipt(q.binding, proof.original, proof.config, Reserved, digest);
    var _ :- s.Atomic(receipt, true);
    return Ok(receipt);
  }

  /** `backend_finalize`. It never replays: once the state advanced or an archive
      appeared it refuses without an effect. */
  method BackendFinalize(s: Store, b: Binding) returns (r: Result<()>)
    requires s.Valid()
    modifies s
    ensures s.Valid()
    ensures old(s.disk.receipt).None? || old(s.disk.receipt).value.state != Reserved || old(s.disk.archive).Some? ==>
              r.Stop? && s.log == old(s.log)
    ensures r.Ok? ==> s.disk.receipt.Some? && s.disk.receipt.value.state == BackendComplete
                      && ArchiveWhole(s.disk, s.disk.receipt.value)
    ensures s.quiet ==> (r.Ok? <==> s.agrees(FinalInstallation) && Finishable(old(s.disk), b))
    ensures s.quiet && r.Stop? ==> s.disk == old(s.disk) && s.log == old(s.log)
    ensures s.quiet && r.Ok? ==>
              var was := old(s.disk);
              s.disk == was.(receipt := Some(was.receipt.value.(state := BackendComplete)),
                             archive := was.receipt.value.original.backend, record := None)
  {
    var _ :- BackendValidate(s, b, true, None);
    var receipt :- LoadReceipt(s);
    var final :- s.Ask(FinalInstallation);
    if !final {
      return Stop(Raised);
    }
    var d :- s.Look();
    if d.record.None? {
      return Stop(Raised);
    }
    var raw := d.record.value;
    if receipt.original.backend.Some? {
      var _ :- s.Archive(raw);
      d :- s.Look();
      if d.archive != receipt.original.backend {
        return Stop(Raised);
      }
    } else {
      d :- s.Look();
      if d.archive.Some? {
        return Stop(Raised);
      }
    }
    r := Retire(s, receipt, raw);
  }

  /** The tail of `backend_finalize`: advance the receipt, then remove the record. */
  method Retire(s: Store, receipt: Receipt, raw: Bytes) returns (r: Result<()>)
    requires s.Valid() && s.disk.receipt == Some(receipt) && receipt.state == Reserved
    requires s.disk.record == Some(raw) && BackendMatches(s.disk.record, receipt) && ArchiveWhole(s.disk, receipt)
    modifies s
    ensures s.Valid()
    ensures r.Ok? ==> s.disk.receipt == Some(receipt.(state := BackendComplete)) && ArchiveWhole(s.disk, receipt)
    ensures s.quiet && !old(s.disk).pending ==>
              r.Ok? && s.disk == old(s.disk).(receipt := Some(receipt.(state := BackendComplete)), record := None)
  {
    var next := receipt.(state := BackendComplete);
    var _ :- s.Atomic(next, false);
    var d :- s.Look();
    if d.record != Some(raw) {
      return Stop(Raised);
    }
    r := s.Unlink();
  }

  /** `finalize`. */
  method Finalize(s: Store, q: Request, proof: Receipt) returns (r: Result<Receipt>)
    requires s.Valid()
    modifies s
    ensures s.Valid()
    ensures old(s.disk.receipt).None? || old(s.disk.receipt).value.state != BackendComplete ==>
              r.Stop? && s.log == old(s.log)
    ensures r.Ok? ==> r.value.state == Complete && s.disk.receipt == Some(r.value)
    ensures s.quiet ==>
              (r.Ok? <==> s.agrees(FinalInstallation) && s.agrees(Eligible) && s.agrees(StillFinal)
                          && Completable(old(s.disk), q, proof, s.probed))
    ensures s.quiet && r.Stop? ==> s.disk == old(s.disk)
    ensures s.quiet && r.Ok? ==>
              s.disk == old(s.disk).(receipt := Some(r.value)) && r.value == proof.(state := Complete)
  {
    hide ApplyRecord, ReceiptOk, Conserved;
    var receipt :- LoadReceipt(s);
    if receipt != proof.(state := BackendComplete) || receipt.binding != q.binding || s.disk.record.Some? {
      return Stop(Raised);
    }
    var final :- s.Ask(FinalInstallation);
    if !final {
      return Stop(Raised);
    }
    var d :- s.Look();
    var gate := d.gate;
    if gate.None? || !GateFinal(gate.value, q.binding) || gate.value.digest != receipt.digest
       || gate.value.previousActive != receipt.original.gate.previousActive {
      return Stop(Raised);
    }
    var digest :- Probe(s);
    if digest != receipt.digest {
      return Stop(Raised);
    }
    d :- s.Look();
    s.log := Then(s.log, Saw, s.disk);
    if d.gate != gate || d.record.Some? {
      return Stop(Raised);
    }
    final :- s.Ask(StillFinal);
    if !final {
      return Stop(Raised);
    }
    var next := receipt.(state := Complete);
    var _ :- s.Atomic(next, false);
    return Ok(next);
  }

  // ---- Any number of calls ----

  datatype Call =
    | CallInspect(q: Request, probe: bool)
    | CallBegin(q: Request, proof: Proof)
    | CallRevalidate(q: Request, receipt: Receipt)
    | CallBackendFinalize(b: Binding)
    | CallFinalize(q: Request, receipt: Receipt)

  /** Calls in any order, with any arguments, each cut short anywhere. */
  method Operate(s: Store, calls: seq<Call>)
    requires s.Valid()
    modifies s
    ensures s.Valid() && Sound(s.disk, s.log)
  {
    hide Sound;
    for i := 0 to |calls|
      invariant s.Valid()
    {
      s.Wait();
      match calls[i]
      case CallInspect(q, probe) => var _ := Inspect(s, q, probe);
      case CallBegin(q, proof) => var _ := Begin(s, q, proof);
      case CallRevalidate(q, receipt) => var _ := Revalidate(s, q, receipt);
      case CallBackendFinalize(b) => var _ := BackendFinalize(s, b);
      case CallFinalize(q, receipt) => var _ := Finalize(s, q, receipt);
    }
    LawfulIsSound(s.disk, s.log);
  }

  /** On a quiet host the whole continuation goes through: the receipt ends complete, the
      old record is in the archive byte for byte, and nothing active is left. */
  method RunToCompletion(s: Store, q: Request, layout: nat) returns (r: Result<Receipt>)
    requires s.Valid() && s.quiet && !s.disk.pending && s.disk.receipt.None? && forall check :: s.agrees(check)
    requires q.binding.installed == q.binding.retained && q.resources == s.disk.facts.resources
    requires s.disk.archive.None? && (s.disk.record.Some? ==> ApplyRecord(s.disk.record.value, q.binding.retained))
    requires s.disk.gate.Some? && var gate := s.disk.gate.value;
             gate == Gate(gate.digest, RecoveryRequired, q.binding.operation, q.binding.retained,
                          gate.previousActive, None)
    modifies s
    ensures s.Valid() && r.Ok? && s.disk.receipt == Some(r.value) && r.value.state == Complete
    ensures r.value.original.backend == old(s.disk).record == s.disk.archive && s.disk.record.None?
    ensures r.value.original.gate == old(s.disk).gate.value && r.value.binding == q.binding
  {
    var proof := Inspect(s, q, true);
    var begun := Begin(s, q, proof.value);
    var receipt := begun.value;
    ApplyDesired(s, receipt, layout);
    var _ := BackendFinalize(s, q.binding);
    var gate := s.disk.gate.value;
    s.disk := s.disk.(gate := Some(gate.(digest := receipt.digest, phase := Verified,
        verified := Some(q.binding.desired))));
    r := Finalize(s, q, receipt);
  }

  /** What the apply under the receipt leaves behind: the gate applying at the desired
      revision, and, where there was no operation record, the one Begin makes. */
  method ApplyDesired(s: Store, receipt: Receipt, layout: nat)
    requires s.Valid() && s.disk.receipt == Some(receipt) && receipt.state == Reserved && s.disk.gate.Some?
    requires s.disk.record == receipt.original.backend
    modifies s`disk
    ensures s.Valid() && s.disk.record.Some? && BackendMatches(s.disk.record, receipt)
    ensures s.disk == old(s.disk).(record := s.disk.record,
              gate := Some(old(s.disk).gate.value.(phase := Applying, target := receipt.binding.desired)))
  {
    var record := if s.disk.record.Some? then s.disk.record else Some(Whole(Apply(receipt.binding.desired), layout));
    s.disk := s.disk.(record := record,
        gate := Some(s.disk.gate.value.(phase := Applying, target := receipt.binding.desired)));
  }

  // ---- What every history means ----

  predicate Prefix(a: Log, b: Log) {
    a == b || (b.Then? && Prefix(a, b.before))
  }

  function Rank(r: Option<Receipt>): nat {
    if r.None? then 0 else match r.value.state case Reserved => 1 case BackendComplete => 2 case Complete => 3
  }

  /** From the point `a` of a history to its point `b` the receipt moved only reserved,
      backend-complete, complete, and nothing else of it changed. */
  predicate Forward(a: Log, b: Log) {
    && Rank(LastReceipt(a)) <= Rank(LastReceipt(b))
    && (LastReceipt(a).Some? ==>
          LastReceipt(b).Some? && LastReceipt(b).value == LastReceipt(a).value.(state := LastReceipt(b).value.state))
  }

  lemma {:induction false} ReceiptMonotone(a: Log, b: Log)
    requires Lawful(b) && Prefix(a, b)
    ensures Forward(a, b)
  {
    if a != b {
      ReceiptMonotone(a, b.before);
    }
  }

  function Reservations(log: Log): nat {
    if log.Empty? then 0
    else Reservations(log.before) + if log.event.Wrote? && log.event.receipt.state == Reserved then 1 else 0
  }

  function Removals(log: Log): nat {
    if log.Empty? then 0 else Removals(log.before) + if log.event.Unlinked? then 1 else 0
  }

  /** At most one receipt is created for the operation, and the active record is
      removed at most once. */
  lemma {:induction false} AtMostOnce(log: Log)
    requires Lawful(log)
    ensures Reservations(log) <= 1 && (LastReceipt(log).None? ==> Reservations(log) == 0)
    ensures Removals(log) <= 1
    ensures Rank(LastReceipt(log)) < 2 ==> Removals(log) == 0
    ensures log.Then? && log.event.Wrote? && log.event.receipt.state == BackendComplete ==> Removals(log) == 0
  {
    if log.Then? {
      AtMostOnce(log.before);
    }
  }

  lemma {:induction false} EveryEventLawful(entry: Log, log: Log)
    requires Lawful(log) && Prefix(entry, log) && entry.Then?
    ensures Lawful(entry)
  {
    if entry != log {
      EveryEventLawful(entry, log.before);
    }
  }

  /** What was the active record when the receipt was written is still in the record or in
      the archive of this disk, byte for byte; where there was none, there is no archive. */
  predicate NothingLostSince(entry: Log, d: Disk) {
    entry.Then? && entry.event.Wrote? ==>
      var original := entry.event.receipt.original.backend;
      && (original.None? ==> d.archive.None?)
      && (original.Some? ==> d.record == original || d.archive == original)
      && (original.Some? && entry.event.receipt.state == Reserved ==> entry.disk.record == original)
  }

  /** The active record was removed only when the receipt said backend-complete and the
      archive held, byte for byte, the original that was being removed; where there was no
      original, only the apply record of the desired revision was removed. */
  predicate RemovedSafely(entry: Log) {
    entry.Then? && entry.event.Unlinked? ==>
      && entry.disk.receipt.Some? && entry.disk.receipt.value.state == BackendComplete
      && var original := entry.disk.receipt.value.original.backend;
      && (original.Some? ==> entry.disk.record == original == entry.disk.archive)
      && (original.None? ==>
          entry.disk.archive.None? && Is(entry.disk.record, entry.disk.receipt.value.binding.desired))
  }

  /** A receipt was created only right after a look that showed the evidence it keeps: the
      record, the gate and the consumer file as they then were, and no receipt or archive. */
  predicate ReservedProperly(entry: Log) {
    entry.Then? && entry.event.Wrote? && entry.event.receipt.state == Reserved ==>
      && entry.before.Then? && entry.before.event == Saw
      && var d, r := entry.before.disk, entry.event.receipt;
      && d.receipt.None? && d.archive.None? && d.record == r.original.backend
      && d.gate == Some(Gate(r.original.gate.digest, RecoveryRequired, r.binding.operation, r.binding.retained,
                             r.original.gate.previousActive, None))
      && d.facts.consumer == r.original.facts.consumer
  }

  /** `complete` was written only after a look that showed no active record and the gate
      verified at the desired revision with the original activity snapshot. */
  predicate CompletedProperly(entry: Log) {
    entry.Then? && entry.event.Wrote? && entry.event.receipt.state == Complete ==>
      && entry.before.Then? && entry.before.event == Saw
      && var d, r := entry.before.disk, entry.event.receipt;
      && d.record.None?
      && d.gate == Some(Gate(r.digest, Verified, r.binding.operation, r.binding.desired,
                             r.original.gate.previousActive, Some(r.binding.desired)))
      && LastReceipt(entry.before) == Some(r.(state := BackendComplete))
  }

  lemma {:induction false} NothingLost(entry: Log, d: Disk, log: Log)
    requires Inv(d, log) && Prefix(entry, log)
    ensures NothingLostSince(entry, d)
  {
    if entry.Then? && entry.event.Wrote? {
      EveryEventLawful(entry, log);
      ReceiptMonotone(entry, log);
    }
  }

  lemma {:induction false} RemovalIsSafe(entry: Log, log: Log)
    requires Lawful(log) && Prefix(entry, log)
    ensures RemovedSafely(entry)
  {
    if entry.Then? {
      EveryEventLawful(entry, log);
    }
  }

  lemma {:induction false} ReservationIsProven(entry: Log, log: Log)
    requires Lawful(log) && Prefix(entry, log)
    ensures ReservedProperly(entry)
  {
    if entry.Then? {
      EveryEventLawful(entry, log);
    }
  }

  lemma {:induction false} CompletionIsProven(entry: Log, log: Log)
    requires Lawful(log) && Prefix(entry, log)
    ensures CompletedProperly(entry)
  {
    if entry.Then? {
      EveryEventLawful(entry, log);
    }
  }

  /** The history of the operation as a whole, and the disk it led to. */
  ghost predicate Sound(d: Disk, log: Log) {
    && (forall entry: Log :: Prefix(entry, log) ==>
          NothingLostSince(entry, d) && RemovedSafely(entry) && ReservedProperly(entry) && CompletedProperly(entry))
    && Reservations(log) <= 1 && Removals(log) <= 1
    && (forall a, b :: Prefix(a, b) && Prefix(b, log) ==> Forward(a, b))
  }

  lemma {:induction false} PrefixLawful(b: Log, log: Log)
    requires Lawful(log) && Prefix(b, log)
    ensures Lawful(b)
  {
    if b != log {
      PrefixLawful(b, log.before);
    }
  }

  lemma LawfulIsSound(d: Disk, log: Log)
    requires Inv(d, log)
    ensures Sound(d, log)
  {
    AtMostOnce(log);
    forall entry: Log | Prefix(entry, log)
      ensures NothingLostSince(entry, d) && RemovedSafely(entry) && ReservedProperly(entry) && CompletedProperly(entry)
    {
      hide Inv, Lawful, NothingLostSince, RemovedSafely, ReservedProperly, CompletedProperly;
      assert Lawful(log);
      NothingLost(entry, d, log);
      RemovalIsSafe(entry, log);
      ReservationIsProven(entry, log);
      CompletionIsProven(entry, log);
    }
    hide Forward, Lawful;
    forall a, b | Prefix(a, b) && Prefix(b, log)
      ensures Forward(a, b)
    {
      PrefixLawful(b, log);
      ReceiptMonotone(a, b);
    }
  }
}
