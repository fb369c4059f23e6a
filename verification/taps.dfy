/**
 * The dragon's click listener: a tap counter and two turn flags that choose,
 * tap by tap, a sound cue and a rotation animation of the tapped node.
 *
 * `NextTap` and `TapEffects` give the new counter and flags and the engine
 * calls of one tap from any state; `AfterTaps` follows a run of taps. From
 * the initial state the run cycles through four states (`Phase`), and each
 * tap's response is the matching entry of `CycleResponse`.
 */
module TapResponder {
  import opened Scene

  /** `numTaps`, `turnedRight`, `turnedLeft`. */
  datatype TapState = TapState(numTaps: int, turnedRight: bool, turnedLeft: bool)

  const Initial: TapState := TapState(0, false, false)

  const StepsUri: string := "file:///android_asset/steps.mp3"
  const RoarUri: string := "file:///android_asset/roar.mp3"
  /** Duration of a step turn, and of the roar tilt and the reset. */
  const TurnMs: nat := 700
  const TiltMs: nat := 350
  const TurnYaw: real := 0.25
  const Tilt: Vec := Vec(-0.25, 0.0, 0.0)

  /** A sound cue at full volume that does not loop. */
  function Cue(uri: string): Event
  {
    PlaySound(uri, 1.0, false)
  }

  /** A rotation animation of `node` with no timing function set. */
  function Turn(node: NodeRef, durationMs: nat, to: Vec): Event
  {
    Animated(Transaction(durationMs, None, [SetRotation(node, to)], false))
  }

  /** The counter and flags after one tap. */
  function NextTap(s: TapState): TapState
  {
    var n := s.numTaps + 1;
    if n == 4 then s.(numTaps := 0)
    else if n == 3 then s.(numTaps := 3)
    else if s.turnedLeft then s.(numTaps := n, turnedLeft := false)
    else if s.turnedRight then s.(numTaps := n, turnedRight := false)
    else s.(numTaps := n, turnedLeft := true)
  }

  /** The engine calls of one tap on `node`. */
  function TapEffects(s: TapState, node: NodeRef): seq<Event>
  {
    var n := s.numTaps + 1;
    if n == 4 then [Turn(node, TiltMs, Origin)]
    else if n == 3 then [Cue(RoarUri), Turn(node, TiltMs, Tilt)]
    else [Cue(StepsUri), Turn(node, TurnMs, Vec(0.0, if s.turnedLeft then -TurnYaw else TurnYaw, 0.0))]
  }

  /** The state after `n` taps. */
  function AfterTaps(s: TapState, n: nat): TapState
  {
    if n == 0 then s else NextTap(AfterTaps(s, n - 1))
  }

  /** The reachable states: `k` taps into the cycle, only the left flag ever
      set, and only right after the first tap. */
  function Phase(k: int): TapState
  {
    TapState(k, false, k == 1)
  }

  /** What the tap at position `k` of the four-tap cycle does to `node`:
      steps and turn left, steps and turn back, roar and tilt, silent reset. */
  function CycleResponse(k: int, node: NodeRef): seq<Event>
  {
    if k == 0 then [Cue(StepsUri), Turn(node, 700, Vec(0.0, 0.25, 0.0))]
    else if k == 1 then [Cue(StepsUri), Turn(node, 700, Vec(0.0, -0.25, 0.0))]
    else if k == 2 then [Cue(RoarUri), Turn(node, 350, Vec(-0.25, 0.0, 0.0))]
    else [Turn(node, 350, Vec(0.0, 0.0, 0.0))]
  }

  /** From a reachable state a tap moves one step round the cycle and
      responds as the cycle says. */
  lemma PhaseStep(k: int, node: NodeRef)
    requires 0 <= k <= 3
    ensures NextTap(Phase(k)) == Phase((k + 1) % 4)
    ensures TapEffects(Phase(k), node) == CycleResponse(k, node)
  {
  }

  /** After any number of taps from the initial state the counter is the
      number of taps modulo four, `turnedRight` is false and `turnedLeft` holds
      exactly after the first tap of a cycle. */
  lemma {:induction false} ReachableTapStates(n: nat)
    ensures AfterTaps(Initial, n) == Phase(n % 4)
  {
    if n > 0 {
      ReachableTapStates(n - 1);
      PhaseStep((n - 1) % 4, NodeRef(0));
    }
  }

  /** The counter stays in 0..3 and `turnedRight` is never set. */
  lemma CounterInRange(n: nat)
    ensures 0 <= AfterTaps(Initial, n).numTaps <= 3
    ensures !AfterTaps(Initial, n).turnedRight
  {
    ReachableTapStates(n);
  }

  /** Tap n + 1 responds as the cycle entry n mod 4 says, and four taps later
      the state is the same, so the fifth tap behaves like the first. */
  lemma TapResponseCycle(n: nat, node: NodeRef)
    ensures TapEffects(AfterTaps(Initial, n), node) == CycleResponse(n % 4, node)
    ensures AfterTaps(Initial, n + 4) == AfterTaps(Initial, n)
  {
    ReachableTapStates(n);
    ReachableTapStates(n + 4);
    PhaseStep(n % 4, node);
  }

  /** A tap plays a sound cue unless it is the fourth of its cycle. */
  lemma SoundUnlessReset(n: nat, node: NodeRef)
    ensures (exists i :: 0 <= i < |TapEffects(AfterTaps(Initial, n), node)| && TapEffects(AfterTaps(Initial, n), node)[i].PlaySound?)
            <==> n % 4 != 3
  {
    TapResponseCycle(n, node);
    var fx := TapEffects(AfterTaps(Initial, n), node);
    if n % 4 != 3 {
      assert fx[0].PlaySound?;
    }
  }

  /** The two step taps of a cycle play the same cue and turn the node by
      opposite yaws: first +0.25, then -0.25. */
  lemma StepTurnsAlternate(n: nat, node: NodeRef)
    requires n % 4 == 0
    ensures var first, second := TapEffects(AfterTaps(Initial, n), node), TapEffects(AfterTaps(Initial, n + 1), node);
      && |first| == 2 && |second| == 2
      && first[0] == second[0] == Cue(StepsUri)
      && first[1] == Turn(node, TurnMs, Vec(0.0, TurnYaw, 0.0))
      && second[1] == Turn(node, TurnMs, Vec(0.0, -TurnYaw, 0.0))
  {
    TapResponseCycle(n, node);
    TapResponseCycle(n + 1, node);
  }
}
