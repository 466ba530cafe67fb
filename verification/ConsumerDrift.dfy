/** `restore` (deploy/consumer_drift.py): put back consumer bytes that the protected
    gate itself authenticates, without losing what was live, at any crash point. */
module ConsumerDrift {
  import opened Effects
  import GateMachine

  type Bytes = string
  type Operation = string

  type Gate = GateMachine.Gate

  /** `staged`, `temporary` and `backups`: the files named after an operation. `retained`:
      an operation record or a reinstall journal exists. */
  datatype Disk = Disk(consumer: Bytes, gate: Gate, staged: map<Operation, Bytes>, temporary: map<Operation, Bytes>,
                       backups: map<Operation, Bytes>, retained: bool)

  /** `desired` is the requested projection; `contexts` are the existing backups and the
      contexts derived from the installed snapshot, in the order they are tried. */
  datatype Request = Request(operation: Operation, target: string, desired: Bytes, contexts: seq<Bytes>)

  function Candidates(q: Request): seq<Bytes> {
    [q.desired] + q.contexts
  }

  predicate Offered(q: Request, raw: Bytes) {
    raw == q.desired || raw in q.contexts
  }

  predicate GateIdle(gate: Gate) {
    gate == GateMachine.OpenGate(gate.digest)
  }

  /** The gate as this operation closed it. */
  predicate ClosedBy(gate: Gate, was: Gate, q: Request) {
    GateIdle(was) && GateMachine.Quiesce(was, q.operation, q.target) == Some(gate)
  }

  /** Checks of code that is not part of this model. */
  datatype Check =
    | Source            // installed source, writer lock, gate shape
    | LiveResources     // resources of the live consumer, if it parses
    | Context           // resources of the context, private mount tools, gate status
    | StillSame         // gate as reported, same release, same lock

  class Station {
    var disk: Disk
    /** Everything that was ever the live consumer file. */
    ghost var everLive: set<Bytes>
    /** The digest the installed validator computes, if it accepts the file. */
    const digest: Bytes -> Option<string>
    /** No call fails, and the outside checks answer as `agrees` says. */
    const quiet: bool
    const agrees: Check -> bool

    constructor (disk: Disk, digest: Bytes -> Option<string>, quiet: bool, agrees: Check -> bool)
      ensures Valid() && this.disk == disk && everLive == {disk.consumer} && this.digest == digest
                && this.quiet == quiet && this.agrees == agrees
    {
      this.disk, this.everLive, this.digest, this.quiet := disk, {disk.consumer}, digest, quiet;
      this.agrees := agrees;
    }

    /** Nothing that was ever live is lost. */
    ghost predicate Valid()
      reads this
    {
      disk.consumer in everLive &&
      forall b <- everLive :: b == disk.consumer || exists op :: op in disk.backups && disk.backups[op] == b
    }

    /** `digest(path)`: an error or a refused file reads as no digest; interrupts pass. */
    method Digest(raw: Bytes) returns (r: Result<Option<string>>)
      ensures r.Ok? && r.value.Some? ==> r.value == digest(raw)
      ensures quiet ==> r == Ok(digest(raw))
    {
      var halt := Fate(quiet);
      var works: bool := *;
      return if halt.Some? then Stop(halt.value) else Ok(if works || quiet then digest(raw) else None);
    }

    method WriteStaged(op: Operation, raw: Bytes) returns (r: Result<()>)
      requires Valid()
      modifies this`disk
      ensures Valid() && op in disk.staged && disk == old(disk).(staged := old(disk).staged[op := disk.staged[op]])
      ensures (r.Ok? ==> disk.staged[op] == raw) && (quiet ==> r.Ok?)
    {
      var halt := Fate(quiet);
      var kept :| 0 <= kept <= |raw|;
      var torn := raw[..kept];
      disk := disk.(staged := disk.staged[op := if halt.Some? then torn else raw]);
      return if halt.Some? then Stop(halt.value) else Ok(());
    }

    method RemoveStaged(op: Operation)
      requires Valid()
      modifies this`disk
      ensures Valid() && disk == old(disk).(staged := old(disk).staged - {op})
    {
      disk := disk.(staged := disk.staged - {op});
    }

    /** The installed gate command, run on the staged context: it can refuse, close the
        gate, or close it and then report failure. */
    method Quiesce(q: Request) returns (r: Result<()>)
      requires Valid() && GateIdle(disk.gate)
      modifies this`disk
      ensures Valid() && disk == old(disk).(gate := disk.gate)
      ensures disk.gate == old(disk.gate) || ClosedBy(disk.gate, old(disk.gate), q)
      ensures r.Ok? ==> ClosedBy(disk.gate, old(disk.gate), q)
      ensures quiet ==> r.Ok?
    {
      var before := Fate(quiet);
      if before.Some? {
        return Stop(before.value);
      }
      disk := disk.(gate := GateMachine.Quiesce(disk.gate, q.operation, q.target).value);
      var after := Fate(quiet);
      return if after.Some? then Stop(after.value) else Ok(());
    }

    /** The exclusive backup of the live bytes. */
    method BackUp(op: Operation, raw: Bytes) returns (r: Result<()>)
      requires Valid()
      modifies this`disk
      ensures Valid() && (op in old(disk.backups) ==> r.Stop? && disk == old(disk))
      ensures disk == old(disk)
                || (op in disk.backups && disk == old(disk).(backups := old(disk).backups[op := disk.backups[op]]))
      ensures r.Ok? ==> op in disk.backups && disk.backups[op] == raw
      ensures quiet ==> (r.Ok? <==> op !in old(disk.backups))
      ensures quiet ==> r.Survived()
    {
      var before := Fate(quiet);
      if before.Some? {
        return Stop(before.value);
      }
      if op in disk.backups {
        return Stop(Raised);
      }
      var halt := Fate(quiet);
      var kept :| 0 <= kept <= |raw|;
      var torn := raw[..kept];
      ghost var backups := disk.backups;
      disk := disk.(backups := disk.backups[op := if halt.Some? then torn else raw]);
      assert forall other :: other in backups ==> other in disk.backups && disk.backups[other] == backups[other];
      return if halt.Some? then Stop(halt.value) else Ok(());
    }

    /** `_publish`: exclusive temporary file, then an atomic replace; the temporary file
        goes unless the process dies. */
    method Publish(op: Operation, raw: Bytes) returns (r: Result<()>)
      requires Valid() && op in disk.backups && disk.backups[op] == disk.consumer
      modifies this
      ensures Valid() && everLive <= old(everLive) + {raw} && old(everLive) <= everLive
      ensures disk == old(disk).(consumer := disk.consumer, temporary := disk.temporary)
      ensures disk.temporary - {op} == old(disk).temporary - {op}
      ensures disk.consumer == old(disk.consumer) || disk.consumer == raw
      ensures r.Ok? ==> disk.consumer == raw
      ensures r.Survived() && op !in old(disk.temporary) ==> op !in disk.temporary
      ensures quiet ==> (r.Ok? <==> op !in old(disk.temporary)) && (r.Stop? ==> disk == old(disk))
      ensures quiet ==> r.Survived()
    {
      var before := Fate(quiet);
      if before.Some? {
        return Stop(before.value);
      }
      if op in disk.temporary {
        return Stop(Raised);
      }
      var during := Fate(quiet);
      var kept :| 0 <= kept <= |raw|;
      disk := disk.(temporary := disk.temporary[op := raw[..kept]]);
      if during.None? {
        disk := disk.(consumer := raw, temporary := disk.temporary - {op});
        everLive := everLive + {raw};
        var after := Fate(quiet);
        return if after.Some? then Stop(after.value) else Ok(());
      }
      if during.value == Raised {
        disk := disk.(temporary := disk.temporary - {op});
      }
      return Stop(during.value);
    }
  }

  datatype Outcome = Unchanged | Restored

  /** Either nothing happened to the live file, or an authenticated candidate replaced
      it while the gate was closed by this operation and the backup held the original. */
  predicate Authenticated(was: Disk, d: Disk, q: Request, digest: Bytes -> Option<string>) {
    || d.consumer == was.consumer
    || (&& digest(d.consumer) == Some(was.gate.digest) && Offered(q, d.consumer)
        && ClosedBy(d.gate, was.gate, q)
        && q.operation in d.backups && d.backups[q.operation] == was.consumer && q.operation !in was.backups)
  }

  /** What a run may touch. */
  predicate Contained(was: Disk, d: Disk, q: Request) {
    && (d.gate == was.gate || ClosedBy(d.gate, was.gate, q))
    && d.backups - {q.operation} == was.backups - {q.operation}
    && (q.operation in was.backups ==> d.backups == was.backups)
    && d.staged - {q.operation} == was.staged - {q.operation}
    && d.temporary - {q.operation} == was.temporary - {q.operation}
    && d.retained == was.retained
  }

  /** The requested bytes if the gate authenticates them, and otherwise the first context
      it authenticates. */
  ghost predicate FirstMatch(q: Request, wanted: string, digest: Bytes -> Option<string>, raw: Bytes) {
    if digest(q.desired) == Some(wanted) then raw == q.desired
    else exists i :: 0 <= i < |q.contexts| && q.contexts[i] == raw && digest(raw) == Some(wanted)
                  && forall k :: 0 <= k < i ==> digest(q.contexts[k]) != Some(wanted)
  }

  predicate AnyMatch(q: Request, wanted: string, digest: Bytes -> Option<string>) {
    digest(q.desired) == Some(wanted) || exists raw <- q.contexts :: digest(raw) == Some(wanted)
  }

  /** When a restore goes through: a live file the gate does not authenticate, an idle
      gate, no retained operation, no leftover of the same operation, a context that is
      authentic. */
  predicate Restorable(d: Disk, q: Request, digest: Bytes -> Option<string>, agrees: Check -> bool) {
    && Eligible(d, digest, agrees)
    && q.operation !in d.staged && q.operation !in d.backups && q.operation !in d.temporary
    && AnyMatch(q, d.gate.digest, digest) && agrees(Context) && agrees(StillSame)
  }

  /** A live file the gate does not authenticate, an idle gate, no retained operation: the
      run gets as far as the staged file. */
  predicate Eligible(d: Disk, digest: Bytes -> Option<string>, agrees: Check -> bool) {
    && agrees(Source) && digest(d.consumer) != Some(d.gate.digest)
    && agrees(LiveResources) && d.gate == GateMachine.OpenGate(d.gate.digest) && !d.retained
  }

  /** The run closes the gate and then stops: the host changed meanwhile, or there is a leftover
      of the same operation. */
  predicate ClosesInVain(d: Disk, q: Request, digest: Bytes -> Option<string>, agrees: Check -> bool) {
    && Eligible(d, digest, agrees) && q.operation !in d.staged && AnyMatch(q, d.gate.digest, digest) && agrees(Context)
    && (!agrees(StillSame) || q.operation in d.backups || q.operation in d.temporary)
  }

  lemma FirstCandidate(q: Request, wanted: string, digest: Bytes -> Option<string>, candidates: seq<Bytes>, i: nat)
    requires candidates == Candidates(q) && i < |candidates| && digest(candidates[i]) == Some(wanted)
    ensures Offered(q, candidates[i]) && AnyMatch(q, wanted, digest)
    ensures (forall k :: 0 <= k < i ==> digest(candidates[k]) != Some(wanted)) ==>
              FirstMatch(q, wanted, digest, candidates[i])
  {
    assert candidates[0] == q.desired && candidates[1..] == q.contexts;
    assert forall k :: 0 <= k < |q.contexts| ==> q.contexts[k] == candidates[k + 1];
  }

  lemma NoCandidate(q: Request, wanted: string, digest: Bytes -> Option<string>, candidates: seq<Bytes>)
    requires candidates == Candidates(q)
    ensures (forall k :: 0 <= k < |candidates| ==> digest(candidates[k]) != Some(wanted)) ==>
              !AnyMatch(q, wanted, digest)
  {
    assert candidates[0] == q.desired && candidates[1..] == q.contexts;
    assert forall k :: 0 <= k < |q.contexts| ==> q.contexts[k] == candidates[k + 1];
  }

  /** The candidate loop: rewrite the staged file until its digest is the gate's. */
  method FindContext(s: Station, q: Request) returns (r: Result<Bytes>)
    requires s.Valid()
    modifies s`disk
    ensures s.Valid() && s.disk == old(s.disk).(staged := s.disk.staged)
    ensures s.disk.staged - {q.operation} == old(s.disk).staged - {q.operation}
    ensures r.Ok? ==> Offered(q, r.value) && s.digest(r.value) == Some(s.disk.gate.digest)
    ensures r.Ok? ==> q.operation in s.disk.staged && s.disk.staged[q.operation] == r.value
    ensures s.quiet ==> (r.Ok? <==> AnyMatch(q, s.disk.gate.digest, s.digest))
    ensures s.quiet && r.Ok? ==> FirstMatch(q, s.disk.gate.digest, s.digest, r.value)
    ensures s.quiet ==> r.Survived()
  {
    hide FirstMatch, AnyMatch, Offered, Candidates;
    var candidates := Candidates(q);
    for i := 0 to |candidates|
      invariant s.Valid() && s.disk == old(s.disk).(staged := s.disk.staged)
      invariant s.disk.staged - {q.operation} == old(s.disk).staged - {q.operation}
      invariant s.quiet ==> forall k :: 0 <= k < i ==> s.digest(candidates[k]) != Some(s.disk.gate.digest)
    {
      var raw := candidates[i];
      var _ :- s.WriteStaged(q.operation, raw);
      var found :- s.Digest(raw);
      if found == Some(s.disk.gate.digest) {
        FirstCandidate(q, s.disk.gate.digest, s.digest, candidates, i);
        return Ok(raw);
      }
    }
    NoCandidate(q, s.disk.gate.digest, s.digest, candidates);
    return Stop(Raised);
  }

  lemma SameDigest(was: Gate, q: Request)
    ensures forall gate: Gate :: ClosedBy(gate, was, q) ==> gate.digest == was.digest
  {
  }

  /** Back up, publish, look. */
  method Swap(s: Station, q: Request, raw: Bytes, ghost was: Disk) returns (r: Result<Outcome>)
    requires s.Valid() && s.disk == was.(gate := s.disk.gate) && ClosedBy(s.disk.gate, was.gate, q)
    requires Offered(q, raw) && s.digest(raw) == Some(was.gate.digest) && s.disk.gate.digest == was.gate.digest
    modifies s
    ensures s.Valid() && old(s.everLive) <= s.everLive && s.disk.gate == old(s.disk.gate)
    ensures Authenticated(was, s.disk, q, s.digest) && Contained(was, s.disk, q) && s.disk.staged == was.staged
    ensures r.Ok? ==> r.value == Restored && s.disk.consumer == raw
    ensures r.Survived() && q.operation !in was.temporary ==> q.operation !in s.disk.temporary
    ensures s.quiet ==> (r.Ok? <==> q.operation !in was.backups && q.operation !in was.temporary)
    ensures s.quiet && r.Stop? ==> s.disk.consumer == was.consumer
    ensures s.quiet ==> r.Survived()
  {
    hide ClosedBy, GateIdle, Offered;
    var original := s.disk.consumer;
    var _ :- s.BackUp(q.operation, original);
    var _ :- s.Publish(q.operation, raw);
    var found :- s.Digest(s.disk.consumer);
    if found != Some(s.disk.gate.digest) {
      return Stop(Raised);
    }
    return Ok(Restored);
  }

  /** From the closed gate to the restored file. */
  method Replace(s: Station, q: Request, raw: Bytes) returns (r: Result<Outcome>)
    requires s.Valid() && GateIdle(s.disk.gate)
    requires Offered(q, raw) && s.digest(raw) == Some(s.disk.gate.digest)
    modifies s
    ensures s.Valid() && old(s.everLive) <= s.everLive
    ensures Authenticated(old(s.disk), s.disk, q, s.digest) && Contained(old(s.disk), s.disk, q)
    ensures s.disk.staged == old(s.disk).staged
    ensures r.Ok? ==> r.value == Restored && s.disk.consumer == raw && ClosedBy(s.disk.gate, old(s.disk.gate), q)
    ensures r.Survived() && q.operation !in old(s.disk.temporary) ==> q.operation !in s.disk.temporary
    ensures s.quiet ==>
              (r.Ok? <==> s.agrees(StillSame) && q.operation !in old(s.disk.backups)
                          && q.operation !in old(s.disk.temporary))
    ensures s.quiet ==> ClosedBy(s.disk.gate, old(s.disk.gate), q)
    ensures s.quiet && r.Stop? ==> s.disk.consumer == old(s.disk.consumer)
    ensures s.quiet ==> r.Survived()
  {
    hide ClosedBy, GateIdle, Offered;
    SameDigest(s.disk.gate, q);
    var _ :- s.Quiesce(q);
    var stable :- Ask(s.quiet, s.agrees(StillSame));
    if !stable {
      return Stop(Raised);
    }
    r := Swap(s, q, raw, old(s.disk));
  }

  /** `restore`, after the gate was read: every branch before the staged file. */
  method Restore(s: Station, q: Request) returns (r: Result<Outcome>)
    requires s.Valid()
    modifies s
    ensures s.Valid() && old(s.everLive) <= s.everLive
    ensures Authenticated(old(s.disk), s.disk, q, s.digest) && Contained(old(s.disk), s.disk, q)
    // A closed gate is never replayed: the run ends without an effect.
    ensures old(s.disk.gate) != GateMachine.OpenGate(old(s.disk.gate).digest) || old(s.disk.retained) ==>
              s.disk == old(s.disk) && r != Ok(Restored)
    ensures r == Ok(Unchanged) ==> s.disk == old(s.disk) && s.digest(s.disk.consumer) == Some(s.disk.gate.digest)
    ensures r == Ok(Restored) ==>
              && s.digest(s.disk.consumer) == Some(old(s.disk.gate.digest))
              && ClosedBy(s.disk.gate, old(s.disk.gate), q)
              && q.operation !in s.disk.staged
    // Exactly when, on a quiet host, and with which bytes.
    ensures s.quiet ==> (r == Ok(Restored) <==> Restorable(old(s.disk), q, s.digest, s.agrees))
    ensures s.quiet && r == Ok(Restored) ==>
              FirstMatch(q, old(s.disk.gate.digest), s.digest, s.disk.consumer)
    ensures s.quiet ==>
              (r == Ok(Unchanged)
               <==> s.agrees(Source) && s.digest(old(s.disk.consumer)) == Some(old(s.disk.gate.digest)))
    // The gate ends closed with the live file unrestored exactly when the host changed
    // meanwhile, or a backup or temporary file of the operation was left over.
    ensures s.quiet ==>
              (s.disk.gate != old(s.disk.gate) && s.disk.consumer == old(s.disk.consumer)
               <==> ClosesInVain(old(s.disk), q, s.digest, s.agrees))
    ensures s.quiet && ClosesInVain(old(s.disk), q, s.digest, s.agrees) ==>
              r.Stop? && ClosedBy(s.disk.gate, old(s.disk.gate), q)
    // Otherwise a run that does not restore leaves at most its staged file away.
    ensures s.quiet && r != Ok(Restored) && !ClosesInVain(old(s.disk), q, s.digest, s.agrees) ==>
              s.disk == old(s.disk) || s.disk == old(s.disk).(staged := old(s.disk).staged - {q.operation})
    // A staged file of the operation stops the run, which removes it.
    ensures s.quiet && Eligible(old(s.disk), s.digest, s.agrees) && q.operation in old(s.disk.staged) ==>
              r.Stop? && s.disk == old(s.disk).(staged := old(s.disk).staged - {q.operation})
    // Unless the process died, no staged file of this run is left.
    ensures r.Survived() && s.disk != old(s.disk) ==> q.operation !in s.disk.staged
  {
    var proven :- Ask(s.quiet, s.agrees(Source));
    if !proven {
      return Stop(Raised);
    }
    var found :- s.Digest(s.disk.consumer);
    if found == Some(s.disk.gate.digest) {
      return Ok(Unchanged);
    }
    proven :- Ask(s.quiet, s.agrees(LiveResources));
    if !proven || !GateIdle(s.disk.gate) || s.disk.retained {
      return Stop(Raised);
    }
    r := Staged(s, q);
    if r.Survived() {
      s.RemoveStaged(q.operation);
      assert s.disk.staged == old(s.disk).staged - {q.operation};
    }
  }

  /** The part under `finally`. */
  method Staged(s: Station, q: Request) returns (r: Result<Outcome>)
    requires s.Valid() && GateIdle(s.disk.gate)
    modifies s
    ensures s.Valid() && old(s.everLive) <= s.everLive
    ensures Authenticated(old(s.disk), s.disk, q, s.digest) && Contained(old(s.disk), s.disk, q)
    ensures r.Ok? ==> r.value == Restored && s.digest(s.disk.consumer) == Some(old(s.disk.gate.digest))
                      && ClosedBy(s.disk.gate, old(s.disk.gate), q)
    ensures s.quiet ==>
              (r.Ok? <==> q.operation !in old(s.disk.staged) && q.operation !in old(s.disk.backups)
                          && q.operation !in old(s.disk.temporary)
                          && AnyMatch(q, old(s.disk.gate.digest), s.digest)
                          && s.agrees(Context) && s.agrees(StillSame))
    ensures s.quiet && r.Ok? ==> FirstMatch(q, old(s.disk.gate.digest), s.digest, s.disk.consumer)
    ensures q.operation in old(s.disk.staged) ==> r == Stop(Raised) && s.disk == old(s.disk)
    ensures s.quiet && r.Stop? ==> s.disk.consumer == old(s.disk.consumer)
    ensures s.quiet ==>
              (s.disk.gate != old(s.disk.gate) <==>
               q.operation !in old(s.disk.staged) && AnyMatch(q, old(s.disk.gate.digest), s.digest)
               && s.agrees(Context))
    ensures s.quiet && s.disk.gate == old(s.disk.gate) ==> s.disk == old(s.disk).(staged := s.disk.staged)
    ensures s.quiet ==> r.Survived()
  {
    if q.operation in s.disk.staged {
      return Stop(Raised);
    }
    var raw :- FindContext(s, q);
    var proven :- Ask(s.quiet, s.agrees(Context));
    if !proven || s.disk.staged[q.operation] != raw {
      return Stop(Raised);
    }
    r := Replace(s, q, raw);
  }

  /** A leftover staged file is refused once only: the next run goes through. */
  method RestoreTwice(s: Station, q: Request) returns (first: Result<Outcome>, second: Result<Outcome>)
    requires s.Valid() && s.quiet && Eligible(s.disk, s.digest, s.agrees) && q.operation in s.disk.staged
    modifies s
    ensures s.Valid() && first.Stop?
    ensures second == Ok(Restored) <==>
              && q.operation !in old(s.disk.backups) && q.operation !in old(s.disk.temporary)
              && AnyMatch(q, old(s.disk.gate.digest), s.digest) && s.agrees(Context) && s.agrees(StillSame)
    ensures second == Ok(Restored) ==> s.digest(s.disk.consumer) == Some(old(s.disk.gate.digest))
  {
    first := Restore(s, q);
    second := Restore(s, q);
  }

  /** Any number of runs, each cut short anywhere; between them the owner may reopen or
      move the gate, but nobody else writes the consumer file. */
  method Operate(s: Station, requests: seq<Request>)
    requires s.Valid()
    modifies s
    ensures s.Valid() && old(s.everLive) <= s.everLive
  {
    for i := 0 to |requests|
      invariant s.Valid() && old(s.everLive) <= s.everLive
    {
      var gate: Gate, retained: bool := *, *;
      s.disk := s.disk.(gate := gate, retained := retained);
      var _ := Restore(s, requests[i]);
    }
  }

  /** A run that stopped half way, after the gate was closed, is not replayed: until the
      owner reopens the gate, every further run has no effect. */
  lemma HalfWayIsClosed(was: Disk, d: Disk, q: Request, digest: Bytes -> Option<string>)
    requires Authenticated(was, d, q, digest) && Contained(was, d, q) && d.consumer != was.consumer
    ensures !GateIdle(d.gate) && was.consumer == d.backups[q.operation]
    ensures digest(d.consumer) == Some(d.gate.digest)
  {
  }
}
