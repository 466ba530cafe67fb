/** The lifecycle composition (`execute` in deploy/lifecycle.py) over the admission
    gate: quiesce, drain, apply, verify, resume, with every gate call free to fail
    before or after it took effect. */
module Lifecycle {
  import opened Effects
  import opened GateMachine

  datatype Event =
    | Entered           // the gate was asked to go to `applying`: the `try` was entered
    | Applying          // `apply` was called
    | Applied           // `apply` returned
    | VerifyHeld        // `verify` answered true
    | Recorded          // the gate call that records `verified` returned
    | ResumeIssued
    | RecoveryIssued    // the gate was asked to go to `recovery-required`

  /** The only order in which a run does things. */
  const ORDER := [Entered, Event.Applying, Applied, VerifyHeld, Recorded, ResumeIssued]

  /** A run did a part of that, and perhaps then asked for `recovery-required`. */
  ghost predicate InOrder(trace: seq<Event>) {
    trace <= ORDER || exists n :: 0 < n <= |ORDER| && trace == ORDER[..n] + [RecoveryIssued]
  }

  /** The gate is closed by this operation. */
  predicate Mine(g: Gate, op: string) {
    g.phase != Open && Bound(g, op)
  }

  /** On a steady host: the gate after the optional `quiesce`, if it is not refused. */
  function Quiesced(g: Gate, op: string, target: string, alreadyQuiesced: bool): Option<Gate> {
    if alreadyQuiesced then Some(g) else GateMachine.Quiesce(g, op, target)
  }

  /** The gate lets the run come as far as `stop`. */
  predicate Drainable(g: Gate, op: string, target: string, alreadyQuiesced: bool, recovery: bool) {
    var closed := Quiesced(g, op, target, alreadyQuiesced);
    && closed.Some? && Bound(closed.value, op)
    && closed.value.phase in (if recovery then {RecoveryRequired} else {Phase.Quiesced, Drained})
  }

  /** The gate lets the run go through: a recovery chooses its target anew, any other run
      needs the one the gate was closed for. */
  predicate Passable(g: Gate, op: string, target: string, alreadyQuiesced: bool, recovery: bool) {
    && Drainable(g, op, target, alreadyQuiesced, recovery)
    && (recovery || Quiesced(g, op, target, alreadyQuiesced).value.target == Some(target))
  }

  class Host {
    var gate: Gate
    /** What the run did, oldest first. */
    ghost var trace: seq<Event>
    /** Some call of the run left the gate closed by its operation. */
    ghost var closed: bool
    /** A `resume` of the run took effect. */
    ghost var resumed: bool
    /** No gate call fails, and no other operation uses the gate. */
    const steady: bool
    /** `apply` returns, `verify` answers true, and no attempt is pending. */
    const sound: bool

    constructor (gate: Gate, op: string, steady: bool, sound: bool)
      requires GateOk(gate)
      ensures Valid(op) && this.gate == gate && trace == [] && closed == Mine(gate, op) && !resumed
      ensures this.steady == steady && this.sound == sound
    {
      this.gate, this.trace, this.closed, this.resumed := gate, [], Mine(gate, op), false;
      this.steady, this.sound := steady, sound;
    }

    /** Once closed by the operation, the gate is still closed by it unless a resume of
        the run took effect. */
    ghost predicate Valid(op: string)
      reads this
    {
      GateOk(gate) && (closed && !resumed ==> Mine(gate, op)) && (Mine(gate, op) ==> closed)
    }

    /** Commands of other operations. */
    method Interfere(op: string)
      requires Valid(op)
      modifies this`gate
      ensures Valid(op) && (Mine(old(gate), op) || Mine(gate, op) ==> gate == old(gate))
      ensures steady ==> gate == old(gate)
    {
      var n: nat := *;
      while n > 0 && !steady
        invariant Valid(op) && (Mine(old(gate), op) || Mine(gate, op) ==> gate == old(gate))
        invariant steady ==> gate == old(gate)
      {
        var other: string, c: Command := *, *;
        if other != op {
          CommandsKeep(gate, other, c);
          gate := After(gate, other, c);
        }
        n := n - 1;
      }
    }

    /** What the inventory finds. */
    method Inventory() returns (pending: Pending)
      ensures sound ==> pending == Pending(false, false)
    {
      pending := *;
      if sound {
        pending := Pending(false, false);
      }
    }

    /** One gate command other than `resume`: refused, done, or done with the answer lost. */
    method Call(op: string, c: Command) returns (r: Result<()>)
      requires Valid(op) && !c.DoResume?
      modifies this`gate, this`closed
      ensures Valid(op) && (old(closed) ==> closed)
      ensures r.Ok? ==> exists g: Gate :: Run(g, op, c) == Some(gate)
      ensures Mine(old(gate), op) ==> gate in {old(gate), After(old(gate), op, c)} && closed
      ensures r.Ok? && Mine(old(gate), op) ==> Run(old(gate), op, c) == Some(gate)
      ensures steady ==> (r.Ok? <==> Run(old(gate), op, c).Some?) && gate == After(old(gate), op, c) && r != Stop(Died)
    {
      Interfere(op);
      var before := Fate(steady);
      if before.Some? {
        return Stop(before.value);
      }
      var next := Run(gate, op, c);
      if next.None? {
        return Stop(Raised);
      }
      CommandsKeep(gate, op, c);
      gate := next.value;
      closed := closed || Mine(gate, op);
      var after := Fate(steady);
      return if after.Some? then Stop(after.value) else Ok(());
    }

    method Resume(op: string) returns (r: Result<()>)
      requires Valid(op)
      modifies this
      ensures Valid(op) && trace == old(trace) + [ResumeIssued] && closed == old(closed)
      ensures r.Ok? ==> resumed && gate.phase == Open
      ensures Mine(old(gate), op) && !resumed ==> gate == old(gate)
      ensures steady && sound ==> (r.Ok? <==> Mine(old(gate), op) && old(gate).phase == Verified)
      ensures steady ==> r != Stop(Died)
    {
      trace := trace + [ResumeIssued];
      Interfere(op);
      var before := Fate(steady);
      var pending := Inventory();
      if before.Some? {
        return Stop(before.value);
      }
      var next := Run(gate, op, DoResume(pending));
      if next.None? {
        return Stop(Raised);
      }
      CommandsKeep(gate, op, DoResume(pending));
      gate, resumed := next.value, true;
      var after := Fate(steady);
      return if after.Some? then Stop(after.value) else Ok(());
    }

    /** `drain`: polls until drained or out of time. */
    method DrainAll(op: string, timeout: nat) returns (r: Result<()>)
      requires Valid(op)
      modifies this`gate, this`closed
      ensures Valid(op) && (r.Ok? ==> gate.phase == Drained && Mine(gate, op))
      ensures Mine(old(gate), op) ==> gate.target == old(gate).target
      ensures steady && sound ==> (r.Ok? <==> Bound(old(gate), op) && old(gate).phase in {Phase.Quiesced, Drained})
    {
      var remaining := timeout;
      while true
        invariant Valid(op) && (Mine(old(gate), op) ==> Mine(gate, op) && gate.target == old(gate).target)
        invariant steady && sound ==> gate == old(gate)
        decreases remaining
      {
        var pending := Inventory();
        var _ :- Call(op, DoDrain(pending));
        if !pending.active {
          return Ok(());
        }
        if remaining == 0 {
          return Stop(Raised);
        }
        remaining := remaining - 1;
      }
    }

    /** `status`, then `recovery-target`. */
    method Retarget(op: string, target: string) returns (r: Result<()>)
      requires Valid(op)
      modifies this`gate, this`closed
      ensures Valid(op) && (r.Ok? ==> gate.phase == RecoveryRequired && Mine(gate, op) && gate.target == Some(target))
      ensures steady && sound ==> (r.Ok? <==> Bound(old(gate), op) && old(gate).phase == RecoveryRequired)
    {
      Interfere(op);
      var halt := Fate(steady);
      if halt.Some? {
        return Stop(halt.value);
      }
      var pending := Inventory();
      if !Bound(gate, op) || gate.phase != RecoveryRequired || pending.active || pending.unknown {
        return Stop(Raised);
      }
      pending := Inventory();
      r := Call(op, DoRecoveryTarget(target, pending));
    }

    /** `apply`: it records the service snapshot and may rebind the consumer, under the
        same operation. */
    method Apply(op: string, target: string) returns (r: Result<()>)
      requires Valid(op)
      modifies this
      ensures Valid(op) && resumed == old(resumed) && (old(closed) ==> closed)
      ensures trace == old(trace) + [Event.Applying] || trace == old(trace) + [Event.Applying, Applied]
      ensures r.Ok? <==> trace == old(trace) + [Event.Applying, Applied]
      ensures Mine(old(gate), op) ==> Mine(gate, op) && gate.phase == old(gate).phase && gate.target == old(gate).target
      ensures (steady ==> r != Stop(Died)) && (steady && sound ==> r.Ok?)
    {
      trace := trace + [Event.Applying];
      var n: nat := *;
      while n > 0
        invariant Valid(op) && trace == old(trace) + [Event.Applying] && resumed == old(resumed)
        invariant old(closed) ==> closed
        invariant Mine(old(gate), op) ==>
                    Mine(gate, op) && gate.phase == old(gate).phase && gate.target == old(gate).target
      {
        var services: string, digest: string, pending: Pending, snapshot: bool := *, *, *, *;
        var call := Call(op, if snapshot then DoSnapshot(services) else DoTransition(target, digest, pending));
        if call == Stop(Died) {
          return call;
        }
        n := n - 1;
      }
      var halt := Fate(sound);
      if halt.Some? {
        return Stop(if steady then Raised else halt.value);
      }
      trace := trace + [Applied];
      return Ok(());
    }

    method Verify() returns (r: Result<bool>)
      modifies this`trace
      ensures trace == (if r == Ok(true) then old(trace) + [VerifyHeld] else old(trace))
      ensures (steady ==> r != Stop(Died)) && (sound ==> r == Ok(true))
    {
      var halt := Fate(sound);
      var answer: bool := *;
      if halt.Some? {
        return Stop(if steady then Raised else halt.value);
      }
      if answer || sound {
        trace := trace + [VerifyHeld];
      }
      return Ok(answer || sound);
    }

    /** The body of the `try`. */
    method ApplyAndOpen(op: string, target: string) returns (r: Result<()>)
      requires Valid(op) && trace == [] && Mine(gate, op) && !resumed
      modifies this
      ensures Valid(op) && closed && [Entered] <= trace <= ORDER
      ensures r.Ok? ==> resumed && gate.phase == Open && trace == ORDER
      ensures steady ==> r != Stop(Died)
      ensures steady && sound ==>
                (r.Ok? <==> old(gate).phase in {Drained, RecoveryRequired, Phase.Applying}
                            && old(gate).target == Some(target))
    {
      trace := [Entered];
      var _ :- Call(op, DoAdvance(Phase.Applying, None));
      var _ :- Apply(op, target);
      var held :- Verify();
      if !held {
        return Stop(Raised);
      }
      var _ :- Call(op, DoAdvance(Verified, Some(target)));
      trace := trace + [Recorded];
      r := Resume(op);
    }

    /** The handler: a failure of its own does not hide the first one. */
    method RequireRecovery(op: string) returns (r: Result<()>)
      requires Valid(op) && closed
      modifies this
      ensures Valid(op) && closed && resumed == old(resumed) && r.Stop?
      ensures trace == old(trace) + [RecoveryIssued]
      ensures !resumed ==> gate in {old(gate), old(gate).(phase := RecoveryRequired, verified := None)}
      ensures steady ==> r == Stop(Raised) && (!resumed ==> gate.phase == RecoveryRequired)
      ensures resumed && old(gate).phase == Open && steady ==> gate == old(gate)
    {
      trace := trace + [RecoveryIssued];
      var call := Call(op, DoAdvance(RecoveryRequired, None));
      return if call == Stop(Died) then Stop(Died) else Stop(Raised);
    }

    /** `execute`. The run does things in one order only, so `apply` is called at most
        once, and `resume` is issued only after `apply` returned, `verify` held and the
        verified phase was recorded. */
    method Execute(op: string, target: string, timeout: nat, alreadyQuiesced: bool, stop: bool, recovery: bool)
        returns (r: Result<()>)
      requires Valid(op) && trace == [] && !resumed
      modifies this
      ensures Valid(op) && InOrder(trace)
      ensures closed && gate.phase == Open ==> resumed
      ensures r.Ok? && stop ==>
                trace == [] && Mine(gate, op) && gate.phase == if recovery then RecoveryRequired else Drained
      ensures r.Ok? && !stop ==> trace == ORDER && gate.phase == Open && resumed
      // A run that raises after it entered the `try` asked for `recovery-required`, and nothing
      // was done after that.
      ensures r == Stop(Raised) && trace != [] ==> trace[|trace| - 1] == RecoveryIssued
      ensures RecoveryIssued in trace ==> r.Stop?
      // Where no gate call fails, the gate then ends in that phase unless it was reopened.
      ensures steady && RecoveryIssued in trace && !resumed ==> gate.phase == RecoveryRequired && Mine(gate, op)
      // On a steady and sound host: exactly when the run goes through.
      ensures steady && sound && stop ==>
                (r.Ok? <==> Drainable(old(gate), op, target, alreadyQuiesced, recovery))
      ensures steady && sound && !stop ==>
                (r.Ok? <==> Passable(old(gate), op, target, alreadyQuiesced, recovery))
    {
      if !alreadyQuiesced {
        var _ :- Call(op, DoQuiesce(target));
      }
      if recovery {
        var _ :- Retarget(op, target);
      } else {
        var _ :- DrainAll(op, timeout);
      }
      if stop {
        return Ok(());
      }
      r := ApplyAndOpen(op, target);
      if r == Stop(Raised) {
        ghost var n := |trace|;
        assert trace == ORDER[..n];
        r := RequireRecovery(op);
      }
    }
  }

  /** What the order means: nothing happens twice, and a `resume` was issued only after
      everything else happened. */
  lemma OrderMeans(trace: seq<Event>)
    requires InOrder(trace)
    ensures forall i, j :: 0 <= i < j < |trace| ==> trace[i] != trace[j]
    ensures ResumeIssued in trace ==>
              ORDER <= trace && Recorded in trace && VerifyHeld in trace && Applied in trace
  {
    var n: nat := if trace <= ORDER then |trace| else |trace| - 1;
    assert n <= |ORDER| && trace[..n] == ORDER[..n];
    if ResumeIssued in trace {
      var i :| 0 <= i < |trace| && trace[i] == ResumeIssued;
      assert i < n && ORDER[i] == ResumeIssued && i == 5;
      assert ORDER[2] == Applied && ORDER[3] == VerifyHeld && ORDER[4] == Recorded;
      assert trace[2] == Applied && trace[3] == VerifyHeld && trace[4] == Recorded;
    }
  }
}
