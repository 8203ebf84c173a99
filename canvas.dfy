/** The React component variant of the steering logic. The per-frame
    animation and the key handler each build a fresh record of changes from
    the component's state; the component then merges that record into its
    state. The lemmas at the end show that this variant makes exactly the
    transitions of `Motion`, which the WebGL front end makes in place. */
module Canvas {
  import opened Motion

  datatype Option<T> = None | Some(value: T)

  /** The part of the component's state the game logic uses. */
  datatype ComponentState = ComponentState(
    ticks: nat,
    acceptKeys: bool,
    lateralPosition: Axis,
    verticalPosition: Axis)

  const InitialState: ComponentState :=
    ComponentState(0, true, Axis(0.0, 0.0), Axis(1.0, 1.0))

  /** The record returned by `animatePositions`. */
  datatype PositionChanges = PositionChanges(lateralPosition: Axis, verticalPosition: Axis)

  /** The record submitted by `handleKeyDown`. */
  datatype KeyChanges = KeyChanges(
    acceptKeys: bool,
    lateralPosition: Axis,
    verticalPosition: Axis)

  /** Copies both axes and moves each copy's `current` one step toward its
      target unless it is within the deadband; only `current` can differ,
      and each copy follows the same rule as `Motion.Advance`. */
  function AnimatePositions(state: ComponentState): (changes: PositionChanges)
    ensures changes.lateralPosition.target == state.lateralPosition.target
    ensures changes.verticalPosition.target == state.verticalPosition.target
    ensures changes.lateralPosition == Advance(state.lateralPosition, LateralStep)
    ensures changes.verticalPosition == Advance(state.verticalPosition, VerticalStep)
  {
    var lateral := state.lateralPosition;
    var vertical := state.verticalPosition;
    var lateral' :=
      if lateral.current < lateral.target - 0.001 then lateral.(current := lateral.current + 0.025)
      else if lateral.current > lateral.target + 0.001 then lateral.(current := lateral.current - 0.025)
      else lateral;
    var vertical' :=
      if vertical.current < vertical.target - 0.001 then vertical.(current := vertical.current + 0.05)
      else if vertical.current > vertical.target + 0.001 then vertical.(current := vertical.current - 0.05)
      else vertical;
    PositionChanges(lateral', vertical')
  }

  /** The state update of one animation frame: one more tick and one
      animation step; the key gate is untouched. */
  function NextFrame(state: ComponentState): (next: ComponentState)
    ensures next.ticks == state.ticks + 1
    ensures next.acceptKeys == state.acceptKeys
    ensures next.lateralPosition == Advance(state.lateralPosition, LateralStep)
    ensures next.verticalPosition == Advance(state.verticalPosition, VerticalStep)
  {
    var changes := AnimatePositions(state);
    state.(ticks := state.ticks + 1,
           lateralPosition := changes.lateralPosition,
           verticalPosition := changes.verticalPosition)
  }

  /** The update `handleKeyDown` submits, or `None` when the gate is closed
      and nothing is submitted. */
  function KeyDownUpdate(state: ComponentState, keyCode: int): (update: Option<KeyChanges>)
    ensures update.None? <==> !state.acceptKeys
    ensures update.Some? ==>
      && !update.value.acceptKeys
      && update.value.lateralPosition.current == state.lateralPosition.current
      && update.value.verticalPosition.current == state.verticalPosition.current
    ensures update.Some? && keyCode == RightArrow ==>
      && update.value.lateralPosition.target >= -1.0
      && update.value.lateralPosition.target >= state.lateralPosition.target - 0.5
      && (update.value.lateralPosition.target == -1.0 ||
          update.value.lateralPosition.target == state.lateralPosition.target - 0.5)
      && update.value.verticalPosition.target == state.verticalPosition.target
    ensures update.Some? && keyCode == LeftArrow ==>
      && update.value.lateralPosition.target <= 1.0
      && update.value.lateralPosition.target <= state.lateralPosition.target + 0.5
      && (update.value.lateralPosition.target == 1.0 ||
          update.value.lateralPosition.target == state.lateralPosition.target + 0.5)
      && update.value.verticalPosition.target == state.verticalPosition.target
    ensures update.Some? && keyCode == DownArrow ==>
      && update.value.verticalPosition.target == -state.verticalPosition.target
      && update.value.lateralPosition.target == state.lateralPosition.target
    ensures update.Some? && keyCode != RightArrow && keyCode != LeftArrow && keyCode != DownArrow ==>
      && update.value.lateralPosition == state.lateralPosition
      && update.value.verticalPosition == state.verticalPosition
  {
    if !state.acceptKeys then None
    else
      var changes := KeyChanges(false, state.lateralPosition, state.verticalPosition);
      if keyCode == 39 then
        var t := state.lateralPosition.target - 0.5;
        Some(changes.(lateralPosition := changes.lateralPosition.(target := if t > -1.0 then t else -1.0)))
      else if keyCode == 37 then
        var t := state.lateralPosition.target + 0.5;
        Some(changes.(lateralPosition := changes.lateralPosition.(target := if t < 1.0 then t else 1.0)))
      else if keyCode == 40 then
        Some(changes.(verticalPosition := changes.verticalPosition.(target := -state.verticalPosition.target)))
      else
        Some(changes)
  }

  /** `setState` with a key-change record: its fields replace the state's. */
  function MergeKeyChanges(state: ComponentState, changes: KeyChanges): ComponentState
  {
    state.(acceptKeys := changes.acceptKeys,
           lateralPosition := changes.lateralPosition,
           verticalPosition := changes.verticalPosition)
  }

  /** The component state after a key press. */
  function AfterKey(state: ComponentState, keyCode: int): ComponentState
  {
    match KeyDownUpdate(state, keyCode)
    case None => state
    case Some(changes) => MergeKeyChanges(state, changes)
  }

  /** The component state after the re-enable timer fires. */
  function AfterReenable(state: ComponentState): ComponentState
  {
    state.(acceptKeys := true)
  }

  /** The game state a component state holds. */
  function Project(state: ComponentState): State
  {
    State(state.acceptKeys, state.lateralPosition, state.verticalPosition)
  }

  /** The component's reaction to one event. */
  function StepComponent(state: ComponentState, e: Event): ComponentState
  {
    match e
    case Frame => NextFrame(state)
    case Key(code) => AfterKey(state, code)
    case Reenable => AfterReenable(state)
  }

  function RunComponent(state: ComponentState, events: seq<Event>): ComponentState
    decreases |events|
  {
    if events == [] then state else RunComponent(StepComponent(state, events[0]), events[1..])
  }

  /** Counts frames in an event sequence. */
  function CountFrames(events: seq<Event>): nat
    decreases |events|
  {
    if events == [] then 0 else (if events[0].Frame? then 1 else 0) + CountFrames(events[1..])
  }

  // ---------------------------------------------------------------------
  // Refinement: this variant makes the same transitions as `Motion`.

  lemma FrameRefinesAnimate(state: ComponentState)
    ensures Project(NextFrame(state)) == Animate(Project(state))
  {
  }

  lemma KeyRefinesHandleKey(state: ComponentState, keyCode: int)
    ensures Project(AfterKey(state, keyCode)) == HandleKey(Project(state), keyCode)
    ensures AfterKey(state, keyCode).ticks == state.ticks
  {
  }

  lemma ReenableRefines(state: ComponentState)
    ensures Project(AfterReenable(state)) == Motion.ReenableKeys(Project(state))
  {
  }

  /** Over any sequence of events the component holds the game state that
      `Motion.Run` computes, and `ticks` counts the frames. */
  lemma {:induction false} RunRefines(state: ComponentState, events: seq<Event>)
    ensures Project(RunComponent(state, events)) == Run(Project(state), events)
    ensures RunComponent(state, events).ticks == state.ticks + CountFrames(events)
    decreases |events|
  {
    if events != [] {
      var e := events[0];
      match e {
        case Frame => FrameRefinesAnimate(state);
        case Key(code) => KeyRefinesHandleKey(state, code);
        case Reenable => ReenableRefines(state);
      }
      RunRefines(StepComponent(state, e), events[1..]);
    }
  }

  /** Every component state reachable from the initial one satisfies the
      invariant of the steering state machine. */
  lemma ReachableComponentInv(events: seq<Event>)
    ensures Inv(Project(RunComponent(InitialState, events)))
  {
    RunRefines(InitialState, events);
    ReachableInv(events);
  }

  /** The component: its state is replaced only through `setState`. */
  class Component {
    var state: ComponentState

    constructor ()
      ensures state == InitialState
    {
      state := InitialState;
    }

    /** The body of one animation-frame callback. */
    method Tick()
      modifies this
      ensures state == NextFrame(old(state))
    {
      var changes := AnimatePositions(state);
      state := state.(ticks := state.ticks + 1,
                      lateralPosition := changes.lateralPosition,
                      verticalPosition := changes.verticalPosition);
    }

    /** The key-down listener, without its timer. */
    method HandleKeyDown(keyCode: int)
      modifies this
      ensures state == AfterKey(old(state), keyCode)
      ensures !old(state).acceptKeys ==> state == old(state)
    {
      var update := KeyDownUpdate(state, keyCode);
      if update.Some? {
        state := MergeKeyChanges(state, update.value);
      }
    }

    /** The timer callback scheduled by the key handler. */
    method ReenableKeys()
      modifies this
      ensures state == AfterReenable(old(state))
    {
      state := state.(acceptKeys := true);
    }
  }
}
