/** The module-level game state of the WebGL front end: one object whose
    nested position records are overwritten in place by the per-frame
    animation and by the key handler. Each method is proved against the
    transition of the same name in `Motion`. */
module WebGL {
  import opened Motion

  /** A mutable `{current, target}` record. */
  class Position {
    var current: real
    var target: real

    constructor (current: real, target: real)
      ensures this.current == current && this.target == target
    {
      this.current := current;
      this.target := target;
    }
  }

  /** The game state object: the key gate and the two position records. */
  class GameState {
    var acceptKeys: bool
    const lateralPosition: Position
    const verticalPosition: Position

    /** The two position records are distinct objects. */
    ghost predicate Valid()
      reads this
    {
      lateralPosition != verticalPosition
    }

    /** The value the object currently holds. */
    function Abstract(): State
      reads this, lateralPosition, verticalPosition
    {
      State(acceptKeys,
            Axis(lateralPosition.current, lateralPosition.target),
            Axis(verticalPosition.current, verticalPosition.target))
    }

    /** The object as the module creates it. */
    constructor ()
      ensures Valid()
      ensures fresh(lateralPosition) && fresh(verticalPosition)
      ensures Abstract() == Initial
    {
      acceptKeys := true;
      lateralPosition := new Position(0.0, 0.0);
      verticalPosition := new Position(1.0, 1.0);
    }

    /** One animation frame: each `current` field moves one step toward its
        target unless it is within the deadband. */
    method AnimateLateralPosition()
      requires Valid()
      modifies lateralPosition`current, verticalPosition`current
      ensures Valid()
      ensures Abstract() == Animate(old(Abstract()))
    {
      if lateralPosition.current < lateralPosition.target - Deadband {
        lateralPosition.current := lateralPosition.current + LateralStep;
      } else if lateralPosition.current > lateralPosition.target + Deadband {
        lateralPosition.current := lateralPosition.current - LateralStep;
      }
      if verticalPosition.current < verticalPosition.target - Deadband {
        verticalPosition.current := verticalPosition.current + VerticalStep;
      } else if verticalPosition.current > verticalPosition.target + Deadband {
        verticalPosition.current := verticalPosition.current - VerticalStep;
      }
    }

    /** The key-down listener, without its timer: a closed gate drops the
        key; otherwise the gate closes and an arrow key moves a target. */
    method HandleKeyDown(keyCode: int)
      requires Valid()
      modifies this`acceptKeys, lateralPosition`target, verticalPosition`target
      ensures Valid()
      ensures Abstract() == HandleKey(old(Abstract()), keyCode)
    {
      if !acceptKeys {
        return;
      }
      acceptKeys := false;
      if keyCode == RightArrow {
        var shifted := lateralPosition.target - LateralShift;
        lateralPosition.target := if shifted > -1.0 then shifted else -1.0;
      } else if keyCode == LeftArrow {
        var shifted := lateralPosition.target + LateralShift;
        lateralPosition.target := if shifted < 1.0 then shifted else 1.0;
      } else if keyCode == DownArrow {
        verticalPosition.target := -verticalPosition.target;
      }
    }

    /** The timer callback scheduled by the key handler. */
    method ReenableKeys()
      requires Valid()
      modifies this`acceptKeys
      ensures Valid()
      ensures Abstract() == Motion.ReenableKeys(old(Abstract()))
    {
      acceptKeys := true;
    }
  }
}
