/** The first car component (src/components/game/Car.tsx): each call of its key-press
    handler maps one key code straight to at most one physics command, with no key record in
    between. The frame callback registers a fresh handler on every frame and never removes
    it, so after n frames one key press runs n handlers. */
module SimpleCar {
  import opened Wrappers
  import opened Vectors
  import opened Physics

  const Force := 15000.0
  const Torque := 5000.0

  datatype Move = Accelerate | Brake | SteerLeft | SteerRight

  /** The codes the switch lists; every other code falls through it. */
  function MoveOf(code: string): (m: Option<Move>)
    ensures m.Some? <==> code in {"KeyW", "ArrowUp", "KeyS", "ArrowDown", "KeyA", "ArrowLeft", "KeyD", "ArrowRight"}
  {
    if code == "KeyW" || code == "ArrowUp" then Some(Accelerate)
    else if code == "KeyS" || code == "ArrowDown" then Some(Brake)
    else if code == "KeyA" || code == "ArrowLeft" then Some(SteerLeft)
    else if code == "KeyD" || code == "ArrowRight" then Some(SteerRight)
    else None
  }

  function CommandOf(m: Move): Command {
    match m
    case Accelerate => ApplyLocalForce(Vec3(0.0, 0.0, -Force), Zero)
    case Brake => ApplyLocalForce(Vec3(0.0, 0.0, Force), Zero)
    case SteerLeft => ApplyTorque(Vec3(0.0, Torque, 0.0))
    case SteerRight => ApplyTorque(Vec3(0.0, -Torque, 0.0))
  }

  /** handleKeyPress: at most one command per handler call, none for an unlisted code. */
  function HandleKeyPress(code: string): (c: Option<Command>)
    ensures c.None? <==> MoveOf(code).None?
    ensures c.Some? ==> c.value == CommandOf(MoveOf(code).value)
    ensures c.Some? && c.value.ApplyLocalForce? ==> c.value.force.x == 0.0 && c.value.force.y == 0.0
    ensures c.Some? && c.value.ApplyTorque? ==> c.value.torque.x == 0.0 && c.value.torque.z == 0.0
  {
    match MoveOf(code)
    case None => None
    case Some(m) => Some(CommandOf(m))
  }

  /** The commands one key press issues after `n` frames: the frame callback has added one
      listener per frame and removed none, so each of the n listeners issues its own copy of
      the handler's command. */
  function KeyPressAfterFrames(code: string, n: nat): (cmds: seq<Command>)
    ensures MoveOf(code).Some? ==> |cmds| == n
    ensures MoveOf(code).None? ==> cmds == []
    ensures forall i :: 0 <= i < |cmds| ==> Some(cmds[i]) == HandleKeyPress(code)
  {
    if n == 0 then []
    else
      var earlier := KeyPressAfterFrames(code, n - 1);
      match HandleKeyPress(code)
      case None => earlier
      case Some(c) => earlier + [c]
  }

  /** After two frames an accelerate key press already pushes with twice the handler's force:
      two copies of (0, 0, -15000). */
  lemma KeyPressRepeats()
    ensures KeyPressAfterFrames("KeyW", 2) == [CommandOf(Accelerate), CommandOf(Accelerate)]
  {
    assert MoveOf("KeyW") == Some(Accelerate);
    assert KeyPressAfterFrames("KeyW", 1) == [CommandOf(Accelerate)];
  }

  /** The two keys of a direction give the same command. */
  lemma AliasesAgree()
    ensures HandleKeyPress("KeyW") == HandleKeyPress("ArrowUp") == Some(CommandOf(Accelerate))
    ensures HandleKeyPress("KeyS") == HandleKeyPress("ArrowDown") == Some(CommandOf(Brake))
    ensures HandleKeyPress("KeyA") == HandleKeyPress("ArrowLeft") == Some(CommandOf(SteerLeft))
    ensures HandleKeyPress("KeyD") == HandleKeyPress("ArrowRight") == Some(CommandOf(SteerRight))
  {
    assert MoveOf("KeyW") == MoveOf("ArrowUp") == Some(Accelerate);
    assert MoveOf("KeyS") == MoveOf("ArrowDown") == Some(Brake);
    assert MoveOf("KeyA") == MoveOf("ArrowLeft") == Some(SteerLeft);
    assert MoveOf("KeyD") == MoveOf("ArrowRight") == Some(SteerRight);
  }

  /** Accelerating and braking are equal in magnitude and opposite in sign, and so are the
      two steering torques. */
  lemma OpposedPairs()
    ensures CommandOf(Accelerate).force.z == -15000.0
    ensures Add(CommandOf(Accelerate).force, CommandOf(Brake).force) == Zero
    ensures CommandOf(SteerLeft).torque.y == 5000.0
    ensures Add(CommandOf(SteerLeft).torque, CommandOf(SteerRight).torque) == Zero
  {
  }

  /** The keys the other components bind and this one does not, such as KeyZ, KeyQ, Shift
      and Space, issue nothing here. */
  lemma OtherKeysIgnored()
    ensures HandleKeyPress("KeyZ").None? && HandleKeyPress("KeyQ").None?
    ensures HandleKeyPress("ShiftLeft").None? && HandleKeyPress("Space").None?
  {
  }
}
