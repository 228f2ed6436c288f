/** The control-state record shared by the keyboard handlers and the frame loops:
    six driving flags, and the effect of one key event on them. */
module Controls {
  import opened Wrappers

  datatype Flag = Forward | Backward | Left | Right | Drift | Handbrake

  datatype ControlState = ControlState(
    forward: bool, backward: bool, left: bool, right: bool, drift: bool, handbrake: bool)

  /** Every flag released: the record the hook starts from. */
  const AllReleased := ControlState(false, false, false, false, false, false)

  function Get(c: ControlState, f: Flag): bool {
    match f
    case Forward => c.forward
    case Backward => c.backward
    case Left => c.left
    case Right => c.right
    case Drift => c.drift
    case Handbrake => c.handbrake
  }

  /** Assigning one field of the record in place: that flag takes `v`, no other flag moves. */
  function With(c: ControlState, f: Flag, v: bool): (r: ControlState)
    ensures Get(r, f) == v
    ensures forall g :: g != f ==> Get(r, g) == Get(c, g)
  {
    match f
    case Forward => c.(forward := v)
    case Backward => c.(backward := v)
    case Left => c.(left := v)
    case Right => c.(right := v)
    case Drift => c.(drift := v)
    case Handbrake => c.(handbrake := v)
  }

  /** One key event after its code went through a key table: a bound key sets (key-down)
      or clears (key-up) its flag; an unbound one, for which the switch has no case and no
      default, changes nothing. */
  function Apply(c: ControlState, bound: Option<Flag>, down: bool): (r: ControlState)
    ensures forall f :: Get(r, f) == (if bound == Some(f) then down else Get(c, f))
    ensures bound.None? ==> r == c
  {
    match bound
    case None => c
    case Some(f) => With(c, f, down)
  }
}

/** The keyboard hook (src/hooks/useKeyboardControls.ts): key-down and key-up events on a
    fixed table of codes set and clear the six flags of a record it mutates in place. */
module Keyboard {
  import opened Wrappers
  import opened Controls

  datatype KeyEvent = KeyDown(code: string) | KeyUp(code: string)

  /** The codes both switches list, with the flag each one drives. */
  function Binding(code: string): (b: Option<Flag>)
    ensures b == Some(Forward) <==> code == "KeyZ" || code == "KeyW"
    ensures b == Some(Backward) <==> code == "KeyS"
    ensures b == Some(Left) <==> code == "KeyQ" || code == "KeyA"
    ensures b == Some(Right) <==> code == "KeyD"
    ensures b == Some(Drift) <==> code == "ShiftLeft" || code == "ShiftRight"
    ensures b == Some(Handbrake) <==> code == "Space"
  {
    if code == "KeyZ" || code == "KeyW" then Some(Forward)
    else if code == "KeyS" then Some(Backward)
    else if code == "KeyQ" || code == "KeyA" then Some(Left)
    else if code == "KeyD" then Some(Right)
    else if code == "ShiftLeft" || code == "ShiftRight" then Some(Drift)
    else if code == "Space" then Some(Handbrake)
    else None
  }

  /** The value of the record after handleKeyDown. */
  function Press(c: ControlState, code: string): (r: ControlState)
    ensures forall f :: Get(r, f) == (Binding(code) == Some(f) || Get(c, f))
  {
    Apply(c, Binding(code), true)
  }

  /** The value of the record after handleKeyUp. */
  function Release(c: ControlState, code: string): (r: ControlState)
    ensures forall f :: Get(r, f) == (Binding(code) != Some(f) && Get(c, f))
  {
    Apply(c, Binding(code), false)
  }

  function Step(c: ControlState, e: KeyEvent): ControlState {
    match e
    case KeyDown(code) => Press(c, code)
    case KeyUp(code) => Release(c, code)
  }

  /** The record after a run of events, handled in order. */
  function Replay(c: ControlState, es: seq<KeyEvent>): ControlState
    decreases |es|
  {
    if es == [] then c else Replay(Step(c, es[0]), es[1..])
  }

  /** Whether the handler calls event.preventDefault(): only the Space key-down does. */
  function PreventsDefault(e: KeyEvent): (r: bool)
    ensures r <==> e.KeyDown? && Binding(e.code) == Some(Handbrake)
  {
    e == KeyDown("Space")
  }

  /** A code the table does not list leaves the record as it was, going down or up. */
  lemma UnboundCodeIgnored(c: ControlState, code: string)
    requires Binding(code).None?
    ensures Press(c, code) == c && Release(c, code) == c
  {
  }

  /** Aliases share one flag: releasing either alias clears it, even while the other
      alias is still held down. */
  lemma {:induction false} AliasRelease(c: ControlState, held: string, released: string)
    requires Binding(held).Some? && Binding(held) == Binding(released)
    ensures !Get(Replay(c, [KeyDown(held), KeyDown(released), KeyUp(released)]), Binding(held).value)
  {
    var es := [KeyDown(held), KeyDown(released), KeyUp(released)];
    var c1 := Press(c, held);
    var c2 := Press(c1, released);
    var c3 := Release(c2, released);
    assert es[1..] == [KeyDown(released), KeyUp(released)];
    assert es[1..][1..] == [KeyUp(released)];
    assert Replay(c, es) == Replay(c1, es[1..]);
    assert Replay(c1, es[1..]) == Replay(c2, [KeyUp(released)]);
    assert Replay(c2, [KeyUp(released)]) == Replay(c3, []);
  }

  /** Browser key repeat: any number (at least one) of key-downs of one code leaves the
      same record as a single key-down. */
  lemma {:induction false} RepeatedKeyDown(c: ControlState, code: string, n: nat)
    requires n >= 1
    ensures Replay(c, seq(n, _ => KeyDown(code))) == Press(c, code)
    decreases n
  {
    var es := seq(n, _ => KeyDown(code));
    assert es[0] == KeyDown(code);
    if n == 1 {
      assert Replay(c, es) == Replay(Press(c, code), []);
    } else {
      assert es[1..] == seq(n - 1, _ => KeyDown(code));
      RepeatedKeyDown(Press(c, code), code, n - 1);
      PressIdempotent(c, code);
    }
  }

  lemma PressIdempotent(c: ControlState, code: string)
    ensures Press(Press(c, code), code) == Press(c, code)
  {
    var once := Press(c, code);
    var twice := Press(once, code);
    assert forall f :: Get(twice, f) == Get(once, f);
    assert Get(twice, Forward) == Get(once, Forward) && Get(twice, Backward) == Get(once, Backward);
    assert Get(twice, Left) == Get(once, Left) && Get(twice, Right) == Get(once, Right);
    assert Get(twice, Drift) == Get(once, Drift) && Get(twice, Handbrake) == Get(once, Handbrake);
  }

  /** Only a key-up clears a flag: a held flag stays held through any run of events
      that contains no key-up of a code bound to it. */
  lemma {:induction false} OnlyKeyUpClears(c: ControlState, es: seq<KeyEvent>, f: Flag)
    requires Get(c, f)
    requires forall i :: 0 <= i < |es| ==> !(es[i].KeyUp? && Binding(es[i].code) == Some(f))
    ensures Get(Replay(c, es), f)
    decreases |es|
  {
    if es != [] {
      assert Get(Step(c, es[0]), f);
      OnlyKeyUpClears(Step(c, es[0]), es[1..], f);
    }
  }

  /** Dually, only a key-down sets a flag. */
  lemma {:induction false} OnlyKeyDownSets(c: ControlState, es: seq<KeyEvent>, f: Flag)
    requires !Get(c, f)
    requires forall i :: 0 <= i < |es| ==> !(es[i].KeyDown? && Binding(es[i].code) == Some(f))
    ensures !Get(Replay(c, es), f)
    decreases |es|
  {
    if es != [] {
      assert !Get(Step(c, es[0]), f);
      OnlyKeyDownSets(Step(c, es[0]), es[1..], f);
    }
  }

  /** The keyboard event the handlers receive; preventDefault marks it. */
  class KeyboardEvent {
    const code: string
    var defaultPrevented: bool

    constructor (code: string)
      ensures this.code == code && !defaultPrevented
    {
      this.code := code;
      defaultPrevented := false;
    }

    method PreventDefault()
      modifies this
      ensures defaultPrevented
    {
      defaultPrevented := true;
    }
  }

  /** The record behind `keys.current`, whose fields the two handlers assign. */
  class KeyboardControls {
    var forward: bool
    var backward: bool
    var left: bool
    var right: bool
    var drift: bool
    var handbrake: bool

    function State(): ControlState
      reads this
    {
      ControlState(forward, backward, left, right, drift, handbrake)
    }

    constructor ()
      ensures State() == AllReleased
    {
      forward, backward, left, right, drift, handbrake := false, false, false, false, false, false;
    }

    method HandleKeyDown(event: KeyboardEvent)
      modifies this, event
      ensures State() == Press(old(State()), event.code)
      ensures event.defaultPrevented == (old(event.defaultPrevented) || PreventsDefault(KeyDown(event.code)))
    {
      var code := event.code;
      if code == "KeyZ" || code == "KeyW" {
        forward := true;
      } else if code == "KeyS" {
        backward := true;
      } else if code == "KeyQ" || code == "KeyA" {
        left := true;
      } else if code == "KeyD" {
        right := true;
      } else if code == "ShiftLeft" || code == "ShiftRight" {
        drift := true;
      } else if code == "Space" {
        event.PreventDefault();
        handbrake := true;
      }
    }

    method HandleKeyUp(event: KeyboardEvent)
      modifies this
      ensures State() == Release(old(State()), event.code)
    {
      var code := event.code;
      if code == "KeyZ" || code == "KeyW" {
        forward := false;
      } else if code == "KeyS" {
        backward := false;
      } else if code == "KeyQ" || code == "KeyA" {
        left := false;
      } else if code == "KeyD" {
        right := false;
      } else if code == "ShiftLeft" || code == "ShiftRight" {
        drift := false;
      } else if code == "Space" {
        handbrake := false;
      }
    }
  }
}
