/** The admission gate (controller/src/admission-control.mjs): the one durable state
    that admits work, and the commands that move it. Each command answers the new
    state, or None where the source throws. */
module GateMachine {
  import opened Effects

  datatype Phase = Open | Quiesced | Drained | Applying | Verified | RecoveryRequired

  /** `previousActive` stands for the recorded service map. */
  datatype Gate = Gate(digest: string, phase: Phase, operation: Option<string>, target: Option<string>,
                       previousActive: Option<string>, verified: Option<string>)

  /** Attempts the inventory found: running ones, and ones in an unknown state. */
  datatype Pending = Pending(active: bool, unknown: bool)

  function OpenGate(digest: string): Gate {
    Gate(digest, Open, None, None, None, None)
  }

  /** `bound`. */
  predicate Bound(g: Gate, op: string) {
    g.operation == Some(op)
  }

  function Quiesce(g: Gate, op: string, target: string): Option<Gate> {
    if g.phase != Open then
      if Bound(g, op) && g.target == Some(target) then Some(g) else None
    else Some(g.(phase := Quiesced, operation := Some(op), target := Some(target), previousActive := None))
  }

  /** `drained`: a gate that stays as it is has work left. */
  function Drain(g: Gate, op: string, pending: Pending): Option<Gate> {
    if !Bound(g, op) || g.phase !in {Quiesced, Drained} || pending.unknown then None
    else if pending.active then Some(g)
    else Some(g.(phase := Drained))
  }

  function Advance(g: Gate, op: string, phase: Phase, revision: Option<string>): Option<Gate> {
    if !Bound(g, op) || (phase == Verified && (revision.None? || revision != g.target))
       || (phase != Verified && revision.Some?) then None
    else if phase == g.phase then
      if phase == Verified && revision != g.verified then None else Some(g)
    else if || (phase == Applying && g.phase in {Drained, RecoveryRequired})
            || (phase == Verified && g.phase in {Applying, Drained})
            || (phase == RecoveryRequired && g.phase != Open)
    then Some(g.(phase := phase, verified := if phase == Verified then revision else None))
    else None
  }

  function Snapshot(g: Gate, op: string, services: string): Option<Gate> {
    if !Bound(g, op) then None
    else if g.previousActive.Some? then Some(g)
    else if g.phase != Applying then None
    else Some(g.(previousActive := Some(services)))
  }

  function RecoveryTarget(g: Gate, op: string, target: string, pending: Pending): Option<Gate> {
    if !Bound(g, op) || g.phase != RecoveryRequired || pending.active || pending.unknown then None
    else Some(g.(target := Some(target)))
  }

  function TransitionConsumer(g: Gate, op: string, target: string, digest: string, pending: Pending): Option<Gate> {
    if !Bound(g, op) || g.target != Some(target) || g.phase !in {Drained, Applying} || pending.active || pending.unknown
    then None
    else Some(g.(digest := digest))
  }

  function Resume(g: Gate, op: string, pending: Pending): Option<Gate> {
    if !Bound(g, op) || g.phase != Verified || pending.active || pending.unknown then None
    else Some(OpenGate(g.digest))
  }

  // ---- Commands as data ----

  datatype Command =
    | DoQuiesce(target: string)
    | DoDrain(pending: Pending)
    | DoAdvance(phase: Phase, revision: Option<string>)
    | DoSnapshot(services: string)
    | DoRecoveryTarget(target: string, pending: Pending)
    | DoTransition(target: string, digest: string, pending: Pending)
    | DoResume(pending: Pending)

  function Run(g: Gate, op: string, c: Command): Option<Gate> {
    match c
    case DoQuiesce(target) => Quiesce(g, op, target)
    case DoDrain(pending) => Drain(g, op, pending)
    case DoAdvance(phase, revision) => Advance(g, op, phase, revision)
    case DoSnapshot(services) => Snapshot(g, op, services)
    case DoRecoveryTarget(target, pending) => RecoveryTarget(g, op, target, pending)
    case DoTransition(target, digest, pending) => TransitionConsumer(g, op, target, digest, pending)
    case DoResume(pending) => Resume(g, op, pending)
  }

  /** The gate after a command, whether it was refused or not. */
  function After(g: Gate, op: string, c: Command): Gate {
    var g' := Run(g, op, c);
    if g'.Some? then g'.value else g
  }

  /** `validate`: an open gate belongs to nobody, a closed one to one operation and one
      target, and a verified one was verified at its target. */
  predicate GateOk(g: Gate) {
    && (g.phase == Open ==> g == OpenGate(g.digest))
    && (g.phase != Open ==> g.operation.Some? && g.target.Some?)
    && (g.phase == Verified ==> g.verified == g.target)
    && (g.phase != Verified ==> g.verified.None?)
  }

  /** No command leaves the shape of the gate, and only the owning operation's `resume`
      of a verified, settled gate opens it. */
  lemma CommandsKeep(g: Gate, op: string, c: Command)
    requires GateOk(g)
    ensures GateOk(After(g, op, c))
    ensures g.phase != Open && !Bound(g, op) ==> After(g, op, c) == g
    ensures g.phase != Open && After(g, op, c).phase == Open ==>
              && c.DoResume? && !c.pending.active && !c.pending.unknown
              && Bound(g, op) && g.phase == Verified && g.verified == g.target
    ensures g.phase == Open && After(g, op, c) != g ==> c.DoQuiesce? && After(g, op, c).phase == Quiesced
  {
  }

  // ---- Laws of the commands ----

  const IDLE := Pending(false, false)

  /** Every change of phase there is. */
  predicate Edge(from: Phase, to: Phase) {
    match from
    case Open => to == Quiesced
    case Quiesced => to in {Drained, RecoveryRequired}
    case Drained => to in {Applying, Verified, RecoveryRequired}
    case Applying => to in {Verified, RecoveryRequired}
    case Verified => to in {Open, RecoveryRequired}
    case RecoveryRequired => to == Applying
  }

  /** Whoever owns a closed gate, or finds it open, can take every edge while nothing is
      pending, and no command takes another way. */
  lemma EdgesExactly(g: Gate, op: string, to: Phase)
    requires GateOk(g) && (g.phase == Open || Bound(g, op)) && to != g.phase
    ensures Edge(g.phase, to) <==> exists c: Command, g': Gate :: Run(g, op, c) == Some(g') && g'.phase == to
  {
    if Edge(g.phase, to) {
      var target := if g.target.Some? then g.target.value else "";
      var c := match to
        case Open => DoResume(IDLE)
        case Quiesced => DoQuiesce(target)
        case Drained => DoDrain(IDLE)
        case Verified => DoAdvance(Verified, Some(target))
        case _ => DoAdvance(to, None);
      assert Run(g, op, c).Some? && Run(g, op, c) == Some(Run(g, op, c).value) && Run(g, op, c).value.phase == to;
    }
  }

  /** A closed gate refuses everybody but the operation it is bound to, an open one
      everything but `quiesce`; and it is never closed again for another target. */
  lemma Refusals(g: Gate, op: string, c: Command)
    requires GateOk(g)
    ensures g.phase != Open && g.operation != Some(op) ==> Run(g, op, c) == None
    ensures g.phase == Open ==> (Run(g, op, c).Some? <==> c.DoQuiesce?)
    ensures g.phase != Open && c.DoQuiesce? ==>
              (Run(g, op, c).Some? <==> g.operation == Some(op) && g.target == Some(c.target))
    ensures c.DoDrain? && c.pending.active && Run(g, op, c).Some? ==> Run(g, op, c) == Some(g)
    ensures (|| (c.DoDrain? && c.pending.unknown) || (c.DoResume? && c.pending != IDLE)
             || (c.DoRecoveryTarget? && c.pending != IDLE) || (c.DoTransition? && c.pending != IDLE)) ==>
              Run(g, op, c) == None
  {
  }

  /** A caller whose answer was lost can send the same command again: it changes nothing
      more. Only `resume` gives the gate away. */
  lemma Repeatable(g: Gate, op: string, c: Command)
    requires GateOk(g) && Run(g, op, c).Some? && !c.DoResume?
    ensures Run(After(g, op, c), op, c) == Some(After(g, op, c))
  {
  }

  /** What a command of the owner changes on a closed gate: the activity snapshot is taken
      once, and only while applying; the target moves only under recovery, the digest only
      between drain and verification, both only while nothing is pending. */
  lemma OnlyChanges(g: Gate, op: string, c: Command)
    requires GateOk(g) && g.phase != Open && After(g, op, c).phase != Open
    ensures var g' := After(g, op, c);
            && g'.operation == g.operation
            && (g'.previousActive != g.previousActive ==>
                  g.previousActive == None && g.phase == Applying && c == DoSnapshot(g'.previousActive.value))
            && (g'.target != g.target ==> g.phase == RecoveryRequired && c == DoRecoveryTarget(g'.target.value, IDLE))
            && (g'.digest != g.digest ==>
                  g.phase in {Drained, Applying} && c == DoTransition(g.target.value, g'.digest, IDLE))
            && (g'.verified != g.verified ==> g'.phase != g.phase)
    ensures g.phase == Applying && Bound(g, op) && c.DoSnapshot? ==>
              After(g, op, c)
              == g.(previousActive := if g.previousActive.Some? then g.previousActive else Some(c.services))
    ensures g.phase == RecoveryRequired && Bound(g, op) && c.DoRecoveryTarget? && c.pending == IDLE ==>
              After(g, op, c) == g.(target := Some(c.target))
    ensures g.phase in {Drained, Applying} && Bound(g, op) && c.DoTransition? && c.pending == IDLE
            && g.target == Some(c.target) ==>
              After(g, op, c) == g.(digest := c.digest)
  {
  }

  /** From every phase a closed gate can be brought back to open through recovery. */
  lemma AlwaysAWayOut(g: Gate, op: string, target: string)
    requires GateOk(g) && g.phase != Open && g.operation == Some(op) && g.target == Some(target)
    ensures RunAll(g, [(op, DoAdvance(RecoveryRequired, None)), (op, DoAdvance(Applying, None)),
                       (op, DoAdvance(Verified, Some(target))), (op, DoResume(IDLE))]) == OpenGate(g.digest)
  {
    var a := After(g, op, DoAdvance(RecoveryRequired, None));
    var b := After(a, op, DoAdvance(Applying, None));
    var c := After(b, op, DoAdvance(Verified, Some(target)));
    assert a == g.(phase := RecoveryRequired, verified := None) && b == a.(phase := Applying);
    assert c == b.(phase := Verified, verified := Some(target)) && After(c, op, DoResume(IDLE)) == OpenGate(g.digest);
    var calls := [(op, DoAdvance(RecoveryRequired, None)), (op, DoAdvance(Applying, None)),
                  (op, DoAdvance(Verified, Some(target))), (op, DoResume(IDLE))];
    RunFour(g, calls);
  }

  lemma RunFour(g: Gate, calls: seq<(string, Command)>)
    requires |calls| == 4
    ensures RunAll(g, calls)
            == After(After(After(After(g, calls[0].0, calls[0].1), calls[1].0, calls[1].1), calls[2].0, calls[2].1),
                 calls[3].0, calls[3].1)
  {
    var g1 := After(g, calls[0].0, calls[0].1);
    var g2 := After(g1, calls[1].0, calls[1].1);
    var g3 := After(g2, calls[2].0, calls[2].1);
    assert RunAll(g3, calls[1..][1..][1..]) == RunAll(After(g3, calls[3].0, calls[3].1), []);
    assert RunAll(g2, calls[1..][1..]) == RunAll(g3, calls[1..][1..][1..]);
    assert RunAll(g1, calls[1..]) == RunAll(g2, calls[1..][1..]);
  }

  function RunAll(g: Gate, calls: seq<(string, Command)>): Gate
    decreases |calls|
  {
    if calls == [] then g else RunAll(After(g, calls[0].0, calls[0].1), calls[1..])
  }

  /** Whatever other operations ask, a closed gate stays as its operation left it. */
  lemma {:induction false} OthersCannotMove(g: Gate, op: string, calls: seq<(string, Command)>)
    requires GateOk(g) && g.phase != Open && Bound(g, op) && forall call <- calls :: call.0 != op
    ensures RunAll(g, calls) == g
    decreases |calls|
  {
    if calls != [] {
      CommandsKeep(g, calls[0].0, calls[0].1);
      OthersCannotMove(g, op, calls[1..]);
    }
  }
}
