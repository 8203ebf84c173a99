/** The steering state machine behind the racer: a key gate and two motion
    axes (lateral, across the strip; vertical, which side of the strip) whose
    `current` value eases toward a `target` value once per animation frame,
    while arrow keys move the targets. Numbers are exact reals. */
module Motion {

  /** One axis of the car's position: where it is drawn and where it is heading. */
  datatype Axis = Axis(current: real, target: real)

  /** The game state: the key gate and the two axes. */
  datatype State = State(acceptKeys: bool, lateralPosition: Axis, verticalPosition: Axis)

  /** Per-frame step of the lateral axis. */
  const LateralStep: real := 0.025
  /** Per-frame step of the vertical axis. */
  const VerticalStep: real := 0.05
  /** Tolerance around the target inside which an axis stops moving. */
  const Deadband: real := 0.001
  /** How far one left/right key press moves the lateral target. */
  const LateralShift: real := 0.5

  /** Key codes the handler reacts to. */
  const LeftArrow: int := 37
  const RightArrow: int := 39
  const DownArrow: int := 40

  /** Start of a session: keys accepted, centred on the strip, on the upper side. */
  const Initial: State := State(true, Axis(0.0, 0.0), Axis(1.0, 1.0))

  /** Distance between two reals. */
  function Dist(x: real, y: real): (d: real)
    ensures d >= 0.0
    ensures d == 0.0 <==> x == y
    ensures d == x - y || d == y - x
  {
    if x <= y then y - x else x - y
  }

  /** The axis is within the deadband of its target. */
  predicate InDeadband(a: Axis)
  {
    a.target - Deadband <= a.current <= a.target + Deadband
  }

  /** One animation step of one axis: a fixed step toward the target unless
      the axis is already inside the deadband. */
  function Advance(a: Axis, step: real): (r: Axis)
    requires step > 0.0
    ensures r.target == a.target
    ensures r.current == a.current <==> InDeadband(a)
    ensures r.current > a.current <==> a.current < a.target - Deadband
    ensures r.current < a.current <==> a.current > a.target + Deadband
    ensures r.current != a.current ==> Dist(r.current, a.current) == step
  {
    if a.current < a.target - Deadband then
      a.(current := a.current + step)
    else if a.current > a.target + Deadband then
      a.(current := a.current - step)
    else
      a
  }

  /** The per-frame animation of the whole state: each axis advances on its
      own with its own step; targets and the key gate are left alone. */
  function Animate(s: State): (r: State)
    ensures r.acceptKeys == s.acceptKeys
    ensures r.lateralPosition.target == s.lateralPosition.target
    ensures r.verticalPosition.target == s.verticalPosition.target
    ensures r.lateralPosition == Advance(s.lateralPosition, LateralStep)
    ensures r.verticalPosition == Advance(s.verticalPosition, VerticalStep)
  {
    State(s.acceptKeys,
          Advance(s.lateralPosition, LateralStep),
          Advance(s.verticalPosition, VerticalStep))
  }

  /** Lateral target after a right-arrow press: `Math.max(t - 0.5, -1)`. */
  function ShiftDown(t: real): (r: real)
    ensures r >= -1.0 && r >= t - LateralShift
    ensures r == -1.0 || r == t - LateralShift
  {
    if t - LateralShift > -1.0 then t - LateralShift else -1.0
  }

  /** Lateral target after a left-arrow press: `Math.min(t + 0.5, 1)`. */
  function ShiftUp(t: real): (r: real)
    ensures r <= 1.0 && r <= t + LateralShift
    ensures r == 1.0 || r == t + LateralShift
  {
    if t + LateralShift < 1.0 then t + LateralShift else 1.0
  }

  /** The key handler: a closed gate drops the key; otherwise the gate closes
      and the key, if it is one of the three arrows, moves a target. */
  function HandleKey(s: State, keyCode: int): (r: State)
    ensures !s.acceptKeys ==> r == s
    ensures s.acceptKeys ==> !r.acceptKeys
    ensures r.lateralPosition.current == s.lateralPosition.current
    ensures r.verticalPosition.current == s.verticalPosition.current
    ensures s.acceptKeys && keyCode == RightArrow ==>
      r.lateralPosition.target == ShiftDown(s.lateralPosition.target) &&
      r.verticalPosition.target == s.verticalPosition.target
    ensures s.acceptKeys && keyCode == LeftArrow ==>
      r.lateralPosition.target == ShiftUp(s.lateralPosition.target) &&
      r.verticalPosition.target == s.verticalPosition.target
    ensures s.acceptKeys && keyCode == DownArrow ==>
      r.verticalPosition.target == -s.verticalPosition.target &&
      r.lateralPosition.target == s.lateralPosition.target
    ensures s.acceptKeys && keyCode != RightArrow && keyCode != LeftArrow && keyCode != DownArrow ==>
      r == s.(acceptKeys := false)
  {
    if !s.acceptKeys then s
    else
      var s' := s.(acceptKeys := false);
      if keyCode == RightArrow then
        s'.(lateralPosition := s.lateralPosition.(target := ShiftDown(s.lateralPosition.target)))
      else if keyCode == LeftArrow then
        s'.(lateralPosition := s.lateralPosition.(target := ShiftUp(s.lateralPosition.target)))
      else if keyCode == DownArrow then
        s'.(verticalPosition := s.verticalPosition.(target := -s.verticalPosition.target))
      else
        s'
  }

  /** The deferred callback of the key handler, as an explicit transition:
      it reopens the gate and touches nothing else. */
  function ReenableKeys(s: State): (r: State)
    ensures r.acceptKeys
    ensures r.lateralPosition == s.lateralPosition && r.verticalPosition == s.verticalPosition
  {
    s.(acceptKeys := true)
  }

  /** Everything that can happen to the state: a frame, a key press, or the
      re-enable callback firing. */
  datatype Event = Frame | Key(keyCode: int) | Reenable

  function Step(s: State, e: Event): State
  {
    match e
    case Frame => Animate(s)
    case Key(code) => HandleKey(s, code)
    case Reenable => ReenableKeys(s)
  }

  /** The state after a sequence of events, in order. */
  function Run(s: State, events: seq<Event>): State
    decreases |events|
  {
    if events == [] then s else Run(Step(s, events[0]), events[1..])
  }

  // ---------------------------------------------------------------------
  // Key-press properties

  /** Two accepted down-arrow presses, with the gate reopened between them,
      give back the original vertical target. */
  lemma FlipTwiceRestores(s: State)
    requires s.acceptKeys
    ensures HandleKey(ReenableKeys(HandleKey(s, DownArrow)), DownArrow) == s.(acceptKeys := false)
  {
  }

  /** From the centre, three accepted right-arrow presses end on the floor
      -1 and three accepted left-arrow presses end on the cap 1. */
  lemma ThreePressesSaturate(s: State)
    requires s.acceptKeys && s.lateralPosition.target == 0.0
    ensures
      var press := (s: State, k: int) => ReenableKeys(HandleKey(s, k));
      press(press(press(s, RightArrow), RightArrow), RightArrow).lateralPosition.target == -1.0 &&
      press(press(press(s, LeftArrow), LeftArrow), LeftArrow).lateralPosition.target == 1.0
  {
  }

  // ---------------------------------------------------------------------
  // Reachable-state invariant

  /** `x` is an integer multiple of `step`. */
  predicate OnGrid(x: real, step: real)
    requires step > 0.0
  {
    (x / step).Floor as real == x / step
  }

  /** The lateral target is one of the five lanes. */
  predicate IsLane(t: real)
  {
    t == -1.0 || t == -0.5 || t == 0.0 || t == 0.5 || t == 1.0
  }

  /** What holds of every state reachable from `Initial`. */
  predicate Inv(s: State)
  {
    && IsLane(s.lateralPosition.target)
    && OnGrid(s.lateralPosition.current, LateralStep)
    && -1.0 <= s.lateralPosition.current <= 1.0
    && (s.verticalPosition.target == -1.0 || s.verticalPosition.target == 1.0)
    && OnGrid(s.verticalPosition.current, VerticalStep)
    && -1.0 <= s.verticalPosition.current <= 1.0
  }

  lemma InitialInv()
    ensures Inv(Initial)
  {
  }

  /** An axis on a grid, heading for a target on the same grid and inside
      [-1, 1], stays on the grid and inside [-1, 1] after one step, and does
      not pass its target. */
  lemma AdvanceStaysOnGrid(a: Axis, step: real)
    requires step == LateralStep || step == VerticalStep
    requires OnGrid(a.current, step) && OnGrid(a.target, step)
    requires -1.0 <= a.current <= 1.0 && -1.0 <= a.target <= 1.0
    ensures OnGrid(Advance(a, step).current, step)
    ensures -1.0 <= Advance(a, step).current <= 1.0
    ensures a.current <= a.target ==> Advance(a, step).current <= a.target
    ensures a.current >= a.target ==> Advance(a, step).current >= a.target
  {
    var i := (a.current / step).Floor;
    var j := (a.target / step).Floor;
    var r := Advance(a, step);
    if a.current < a.target - Deadband {
      assert i < j;
      assert r.current / step == (i + 1) as real;
      assert ((i + 1) as real).Floor == i + 1;
    } else if a.current > a.target + Deadband {
      assert j < i;
      assert r.current / step == (i - 1) as real;
      assert ((i - 1) as real).Floor == i - 1;
    }
  }

  lemma LaneOnGrid(t: real)
    requires IsLane(t)
    ensures OnGrid(t, LateralStep)
  {
  }

  lemma SideOnGrid(t: real)
    requires t == -1.0 || t == 1.0
    ensures OnGrid(t, VerticalStep)
  {
  }

  lemma AnimatePreservesInv(s: State)
    requires Inv(s)
    ensures Inv(Animate(s))
  {
    LaneOnGrid(s.lateralPosition.target);
    SideOnGrid(s.verticalPosition.target);
    AdvanceStaysOnGrid(s.lateralPosition, LateralStep);
    AdvanceStaysOnGrid(s.verticalPosition, VerticalStep);
  }

  lemma HandleKeyPreservesInv(s: State, keyCode: int)
    requires Inv(s)
    ensures Inv(HandleKey(s, keyCode))
  {
  }

  lemma StepPreservesInv(s: State, e: Event)
    requires Inv(s)
    ensures Inv(Step(s, e))
  {
    match e
    case Frame => AnimatePreservesInv(s);
    case Key(code) => HandleKeyPreservesInv(s, code);
    case Reenable =>
  }

  lemma {:induction false} RunPreservesInv(s: State, events: seq<Event>)
    requires Inv(s)
    ensures Inv(Run(s, events))
    decreases |events|
  {
    if events != [] {
      StepPreservesInv(s, events[0]);
      RunPreservesInv(Step(s, events[0]), events[1..]);
    }
  }

  /** Every state reachable from the initial one, under any interleaving of
      key presses, re-enables and frames, satisfies `Inv`. */
  lemma ReachableInv(events: seq<Event>)
    ensures Inv(Run(Initial, events))
  {
    InitialInv();
    RunPreservesInv(Initial, events);
  }

  // ---------------------------------------------------------------------
  // Convergence with no key presses

  /** `n` animation steps of one axis. */
  function AdvanceN(a: Axis, step: real, n: nat): Axis
    requires step > 0.0
    decreases n
  {
    if n == 0 then a else AdvanceN(Advance(a, step), step, n - 1)
  }

  /** `n` frames of the whole state. */
  function Frames(s: State, n: nat): State
    decreases n
  {
    if n == 0 then s else Frames(Animate(s), n - 1)
  }

  /** The number of steps between an axis's current value and its target. */
  function StepsToGo(a: Axis, step: real): nat
    requires step > 0.0
  {
    (Dist(a.current, a.target) / step).Floor
  }

  /** Frames advance the two axes independently and keep the gate. */
  lemma {:induction false} FramesAdvanceAxes(s: State, n: nat)
    ensures Frames(s, n) == State(s.acceptKeys,
                                 AdvanceN(s.lateralPosition, LateralStep, n),
                                 AdvanceN(s.verticalPosition, VerticalStep, n))
    decreases n
  {
    if n > 0 {
      FramesAdvanceAxes(Animate(s), n - 1);
    }
  }

  /** When the gap is exactly `n` steps (and a step exceeds the deadband),
      `n` steps land exactly on the target. */
  lemma {:induction false} ReachesTargetExactly(a: Axis, step: real, n: nat)
    requires step > Deadband
    requires Dist(a.current, a.target) == n as real * step
    ensures AdvanceN(a, step, n) == Axis(a.target, a.target)
    decreases n
  {
    if n > 0 {
      var rest := (n - 1) as real * step;
      assert n as real * step == rest + step;
      assert rest >= 0.0;
      var a' := Advance(a, step);
      if a.current < a.target {
        assert a.target - a.current == rest + step;
        assert a'.current == a.current + step;
      } else {
        assert a.current - a.target == rest + step;
        assert a'.current == a.current - step;
      }
      assert Dist(a'.current, a'.target) == rest;
      ReachesTargetExactly(a', step, n - 1);
    }
  }

  /** An axis at its target does not move, however many steps follow. */
  lemma {:induction false} SettledStays(a: Axis, step: real, n: nat)
    requires step > 0.0
    requires a.current == a.target
    ensures AdvanceN(a, step, n) == a
    decreases n
  {
    if n > 0 {
      SettledStays(Advance(a, step), step, n - 1);
    }
  }

  lemma {:induction false} AdvanceNAdd(a: Axis, step: real, n: nat, k: nat)
    requires step > 0.0
    ensures AdvanceN(a, step, n + k) == AdvanceN(AdvanceN(a, step, n), step, k)
    decreases n
  {
    if n > 0 {
      AdvanceNAdd(Advance(a, step), step, n - 1, k);
    }
  }

  /** Two points of a grid are a whole number of steps apart. */
  lemma GapIsWhole(a: Axis, step: real)
    requires step == LateralStep || step == VerticalStep
    requires OnGrid(a.current, step) && OnGrid(a.target, step)
    ensures StepsToGo(a, step) as real * step == Dist(a.current, a.target)
  {
    var i := (a.current / step).Floor;
    var j := (a.target / step).Floor;
    var g := if i <= j then j - i else i - j;
    if step == LateralStep {
      assert Dist(a.current, a.target) / LateralStep == g as real;
    } else {
      assert Dist(a.current, a.target) / VerticalStep == g as real;
    }
    assert (g as real).Floor == g;
  }

  /** On a common grid whose step exceeds the deadband, the axis is exactly
      `StepsToGo` steps from its target, reaches it after that many steps
      and stays there. */
  lemma {:induction false} ConvergesOnGrid(a: Axis, step: real, m: nat)
    requires step == LateralStep || step == VerticalStep
    requires OnGrid(a.current, step) && OnGrid(a.target, step)
    requires StepsToGo(a, step) <= m
    ensures StepsToGo(a, step) as real * step == Dist(a.current, a.target)
    ensures AdvanceN(a, step, m) == Axis(a.target, a.target)
  {
    var n := StepsToGo(a, step);
    GapIsWhole(a, step);
    ReachesTargetExactly(a, step, n);
    AdvanceNAdd(a, step, n, m - n);
    SettledStays(Axis(a.target, a.target), step, m - n);
  }

  /** An axis inside the deadband does not move, however many steps follow. */
  lemma {:induction false} DeadbandStays(a: Axis, step: real, n: nat)
    requires step > 0.0
    requires InDeadband(a)
    ensures AdvanceN(a, step, n) == a
    decreases n
  {
    if n > 0 {
      assert Advance(a, step) == a;
      DeadbandStays(a, step, n - 1);
    }
  }

  /** An axis that one step brings back to where it started repeats that
      pair of steps forever. */
  lemma {:induction false} TwoCycleRepeats(a: Axis, step: real, n: nat)
    requires step > 0.0
    requires Advance(Advance(a, step), step) == a
    ensures AdvanceN(a, step, 2 * n) == a
    decreases n
  {
    if n > 0 {
      TwoCycleRepeats(a, step, n - 1);
      AdvanceNAdd(a, step, 2, 2 * (n - 1));
      assert AdvanceN(a, step, 2) == Advance(Advance(a, step), step);
    }
  }

  /** A lateral gap of 0.01: one step overshoots to 0.025, still outside
      the deadband, and the next step comes back to 0. */
  lemma OffGridTwoSteps()
    ensures Advance(Axis(0.0, 0.01), LateralStep) == Axis(0.025, 0.01)
    ensures !InDeadband(Axis(0.025, 0.01))
    ensures Advance(Axis(0.025, 0.01), LateralStep) == Axis(0.0, 0.01)
  {
  }

  /** Off the grid the step rule need not settle: a gap of 0.01 is outside
      the deadband but smaller than a lateral step minus the deadband, so
      the axis overshoots, comes back, and repeats forever. */
  lemma OffGridOscillates(n: nat)
    ensures AdvanceN(Axis(0.0, 0.01), LateralStep, 2 * n) == Axis(0.0, 0.01)
    ensures !InDeadband(AdvanceN(Axis(0.0, 0.01), LateralStep, 2 * n + 1))
  {
    var a := Axis(0.0, 0.01);
    OffGridTwoSteps();
    TwoCycleRepeats(a, LateralStep, n);
    AdvanceNAdd(a, LateralStep, 2 * n, 1);
    assert AdvanceN(a, LateralStep, 1) == Advance(a, LateralStep);
  }

  /** A gap within the deadband of one step overshoots once and then stops:
      from 0 toward 0.0245 the axis moves to 0.025, which is within 0.001 of
      the target, and stays there. */
  lemma OvershootSettles(n: nat)
    ensures Advance(Axis(0.0, 0.0245), LateralStep) == Axis(0.025, 0.0245)
    ensures InDeadband(Axis(0.025, 0.0245))
    ensures AdvanceN(Axis(0.0, 0.0245), LateralStep, n + 1) == Axis(0.025, 0.0245)
  {
    var a := Axis(0.0, 0.0245);
    var b := Axis(0.025, 0.0245);
    assert Advance(a, LateralStep) == b;
    DeadbandStays(b, LateralStep, n);
    assert AdvanceN(a, LateralStep, n + 1) == AdvanceN(b, LateralStep, n);
  }

  /** Convergence from any reachable state with no key presses: after
      `StepsToGo` frames each axis sits exactly on its target, and further
      frames leave it there. */
  lemma Converges(s: State, m: nat)
    requires Inv(s)
    ensures StepsToGo(s.lateralPosition, LateralStep) <= m ==>
      Frames(s, m).lateralPosition == Axis(s.lateralPosition.target, s.lateralPosition.target)
    ensures StepsToGo(s.verticalPosition, VerticalStep) <= m ==>
      Frames(s, m).verticalPosition == Axis(s.verticalPosition.target, s.verticalPosition.target)
  {
    FramesAdvanceAxes(s, m);
    LaneOnGrid(s.lateralPosition.target);
    SideOnGrid(s.verticalPosition.target);
    if StepsToGo(s.lateralPosition, LateralStep) <= m {
      ConvergesOnGrid(s.lateralPosition, LateralStep, m);
    }
    if StepsToGo(s.verticalPosition, VerticalStep) <= m {
      ConvergesOnGrid(s.verticalPosition, VerticalStep, m);
    }
  }
}
