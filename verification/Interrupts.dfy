/** The interrupt lines of the two expanders, as the interleaving of hardware
    edges, the interrupt handler and the thread that attaches the handler, flags
    lines found low and acknowledges them. The handler samples the level first and
    counts later, under the lock; edges may fall between any two steps. */
module Interrupts {
  import opened Clock

  datatype Which = Internal | External

  datatype Handler = Resting | Sampled(low: bool)

  /** One line: whether its handler is attached, its level, whether the hardware has
      an interrupt request latched, the handler's progress, the edges counted so far
      and the service flag. */
  datatype Line = Line(attached: bool, low: bool, requested: bool, handler: Handler, falls: nat, rises: nat,
                       pending: bool)

  /** An acknowledgement in progress, with the edge counts of its snapshot. */
  datatype Ack =
    | NoAck | Snapped(internalFalls: nat, externalFalls: nat) | InputsRead(internalFalls: nat, externalFalls: nat)

  /** How far the start has got: the internal line goes first, both times. */
  datatype Phase = Detached | OneAttached | BothAttached | OneFlagged | Begun

  datatype State = State(internal: Line, external: Line, phase: Phase, ack: Ack) {
    function Of(which: Which): Line {
      if which == Internal then internal else external
    }

    function With(which: Which, line: Line): State {
      if which == Internal then this.(internal := line) else this.(external := line)
    }
  }

  datatype Step =
    | Falls(which: Which) | Rises(which: Which)            // the board
    | Enters(which: Which) | Counts(which: Which)          // the handler
    | Attaches | Flags                                     // the thread, at the start
    | TakesSnapshot | Reads(ok: bool) | Clears             // and then

  function Unattached(low: bool): Line { Line(false, low, false, Resting, 0, 0, false) }

  function Start(internalLow: bool, externalLow: bool): State {
    State(Unattached(internalLow), Unattached(externalLow), Detached, NoAck)
  }

  /** A line already low is work to do, not an edge; an edge counted since it was
      attached keeps its flag. */
  function Flagged(line: Line): Line { line.(pending := line.pending || line.low) }

  /** The counters the firmware compares are 32 bits wide. */
  function Cleared(line: Line, snapped: nat): Line {
    if line.falls % WRAP == snapped % WRAP && !line.low then line.(pending := false) else line
  }

  function OnLine(line: Line, step: Step): Line
    requires step.Falls? || step.Rises? || step.Enters? || step.Counts?
  {
    match step
    case Falls(_) => if line.low then line else line.(low := true, requested := line.attached)
    case Rises(_) => if line.low then line.(low := false, requested := line.attached) else line
    case Enters(_) =>
      if line.requested && line.handler.Resting? then line.(requested := false, handler := Sampled(line.low)) else line
    case Counts(_) =>
      if line.handler.Resting? then line
      else if line.handler.low then line.(falls := line.falls + 1, pending := true, handler := Resting)
      else line.(rises := line.rises + 1, handler := Resting)
  }

  function Next(s: State, step: Step): State {
    match step
    case Falls(which) => s.With(which, OnLine(s.Of(which), step))
    case Rises(which) => s.With(which, OnLine(s.Of(which), step))
    case Enters(which) => s.With(which, OnLine(s.Of(which), step))
    case Counts(which) => s.With(which, OnLine(s.Of(which), step))
    case Attaches =>
      if s.phase == Detached then s.(internal := s.internal.(attached := true), phase := OneAttached)
      else if s.phase == OneAttached then s.(external := s.external.(attached := true), phase := BothAttached)
      else s
    case Flags =>
      if s.phase == BothAttached then s.(internal := Flagged(s.internal), phase := OneFlagged)
      else if s.phase == OneFlagged then s.(external := Flagged(s.external), phase := Begun)
      else s
    case TakesSnapshot =>
      if s.phase == Begun && s.ack.NoAck? then s.(ack := Snapped(s.internal.falls, s.external.falls)) else s
    case Reads(ok) =>
      if !s.ack.Snapped? then s
      else s.(ack := if ok then InputsRead(s.ack.internalFalls, s.ack.externalFalls) else NoAck)
    case Clears =>
      if !s.ack.InputsRead? then s
      else State(Cleared(s.internal, s.ack.internalFalls), Cleared(s.external, s.ack.externalFalls), s.phase, NoAck)
  }

  function Run(s: State, steps: seq<Step>): State {
    if steps == [] then s else Next(Run(s, steps[..|steps| - 1]), steps[|steps| - 1])
  }

  // ---- No interrupt is forgotten ----

  /** A low line is flagged for service, or is about to be. */
  predicate Remembered(line: Line) {
    line.low ==> line.pending || line.requested || line.handler == Sampled(true)
  }

  /** The start has looked at the line. */
  predicate Looked(phase: Phase, which: Which) { phase == Begun || (phase == OneFlagged && which == Internal) }

  /** What the steps so far can have done to one line. */
  predicate LineFits(s: State, which: Which) {
    var line := s.Of(which);
    && line.attached == (s.phase != Detached && (which == Internal || s.phase != OneAttached))
    && (Looked(s.phase, which) ==> line.attached && Remembered(line))
    && (!line.attached ==> !line.requested && line.handler.Resting?)
  }

  /** However edges, handler and thread interleave, attaching included, a line that
      is held low once the start has looked at it is flagged or will be as soon as
      the handler finishes. */
  lemma {:induction false} NeverForgotten(internalLow: bool, externalLow: bool, steps: seq<Step>, which: Which)
    ensures var s := Run(Start(internalLow, externalLow), steps);
            LineFits(s, which) && (Looked(s.phase, which) ==> Remembered(s.Of(which)))
  {
    if steps != [] {
      NeverForgotten(internalLow, externalLow, steps[..|steps| - 1], which);
    }
  }

  /** Level changes of the line. */
  function Edges(steps: seq<Step>, which: Which): nat {
    if steps == [] then 0
    else
      var last := steps[|steps| - 1];
      Edges(steps[..|steps| - 1], which) + if last == Falls(which) || last == Rises(which) then 1 else 0
  }

  function Bit(b: bool): nat { if b then 1 else 0 }

  function Owed(line: Line): nat { line.falls + line.rises + Bit(line.requested) + Bit(line.handler.Sampled?) }

  lemma StepReal(s: State, step: Step, which: Which)
    ensures Owed(Next(s, step).Of(which)) <= Owed(s.Of(which)) + Edges([step], which)
    ensures Edges([step], which) == if step == Falls(which) || step == Rises(which) then 1 else 0
  {
    assert [step][..0] == [];
  }

  /** The start fabricates no edge: every counted one, and every request still to be
      served, stands for a level change of its own. */
  lemma {:induction false} EdgesReal(internalLow: bool, externalLow: bool, steps: seq<Step>, which: Which)
    ensures Owed(Run(Start(internalLow, externalLow), steps).Of(which)) <= Edges(steps, which)
  {
    if steps != [] {
      var n := |steps| - 1;
      EdgesReal(internalLow, externalLow, steps[..n], which);
      StepReal(Run(Start(internalLow, externalLow), steps[..n]), steps[n], which);
      hide Next;
    }
  }

  // ---- And none is cleared unserved ----

  function FallsAt(s: State, which: Which): nat { s.Of(which).falls }

  function SnappedOf(ack: Ack, which: Which): nat
    requires !ack.NoAck?
  {
    if which == Internal then ack.internalFalls else ack.externalFalls
  }

  lemma FallsStep(s: State, step: Step, which: Which)
    ensures FallsAt(s, which) <= FallsAt(Next(s, step), which)
  {
  }

  lemma {:induction false} FallsGrow(s: State, steps: seq<Step>, j: nat, which: Which)
    requires j <= |steps|
    ensures FallsAt(Run(s, steps[..j]), which) <= FallsAt(Run(s, steps), which)
    decreases |steps|
  {
    var n := |steps| - 1;
    if j <= n {
      assert steps[..n][..j] == steps[..j];
      FallsGrow(s, steps[..n], j, which);
      FallsStep(Run(s, steps[..n]), steps[n], which);
      hide Next;
    } else {
      assert steps[..j] == steps;
    }
  }

  lemma {:induction false} SnapshotWitness(s: State, steps: seq<Step>) returns (j: nat)
    requires s.ack.NoAck? && !Run(s, steps).ack.NoAck?
    ensures j < |steps| && steps[j] == TakesSnapshot
    ensures forall which :: FallsAt(Run(s, steps[..j]), which) == SnappedOf(Run(s, steps).ack, which)
    ensures Run(s, steps).ack.InputsRead? ==> exists k :: j < k < |steps| && steps[k] == Reads(true)
  {
    var n := |steps| - 1;
    var front := steps[..n];
    if Run(s, front).ack.NoAck? {
      j := n;
    } else {
      j := SnapshotWitness(s, front);
      assert front[..j] == steps[..j];
      if Run(s, front).ack.InputsRead? {
        var k :| j < k < |front| && front[k] == Reads(true);
        assert steps[k] == Reads(true);
      } else if Run(s, steps).ack.InputsRead? {
        assert steps[n] == Reads(true);
      }
    }
  }

  /** The flag of a line is lowered only by an acknowledgement that finds it high,
      after a successful input read that followed a snapshot in which every
      counted falling edge was already included (fewer than 2^32 between them). */
  lemma ClearedOnlyWhenServed(s: State, steps: seq<Step>, step: Step, which: Which) returns (j: nat)
    requires s.ack.NoAck?
    requires Run(s, steps).Of(which).pending && !Next(Run(s, steps), step).Of(which).pending
    ensures step == Clears && !Run(s, steps).Of(which).low
    ensures j < |steps| && steps[j] == TakesSnapshot && exists k :: j < k < |steps| && steps[k] == Reads(true)
    ensures FallsAt(Run(s, steps), which) < FallsAt(Run(s, steps[..j]), which) + WRAP
            ==> FallsAt(Run(s, steps), which) == FallsAt(Run(s, steps[..j]), which)
  {
    j := SnapshotWitness(s, steps);
    FallsGrow(s, steps, j, which);
    if FallsAt(Run(s, steps), which) < FallsAt(Run(s, steps[..j]), which) + WRAP {
      SameCount(FallsAt(Run(s, steps), which), FallsAt(Run(s, steps[..j]), which));
    }
  }

  lemma SameCount(a: nat, b: nat)
    requires b <= a < b + WRAP && a % WRAP == b % WRAP
    ensures a == b
  {
  }
}
