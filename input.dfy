/** The keyboard half of the controller: how `onKeyDown` and `onKeyUp` turn
    key codes into the four movement flags and the jump. */
module Input {
  import opened Wrappers
  import opened Config

  /** The four held-direction flags of `moveState`. */
  datatype Flag = Forward | Backward | Left | Right

  /** The part of `moveState` the controller reads and writes. */
  datatype MoveState = MoveState(
    forward: bool, backward: bool, left: bool, right: bool,
    canJump: bool, yVelocity: real)

  function Pressed(m: MoveState, f: Flag): bool {
    match f
    case Forward => m.forward
    case Backward => m.backward
    case Left => m.left
    case Right => m.right
  }

  /** The key map both handlers share: arrows and WASD. */
  function Binding(code: string): (flag: Option<Flag>)
    ensures flag == Some(Forward) <==> code == "ArrowUp" || code == "KeyW"
    ensures flag == Some(Backward) <==> code == "ArrowDown" || code == "KeyS"
    ensures flag == Some(Left) <==> code == "ArrowLeft" || code == "KeyA"
    ensures flag == Some(Right) <==> code == "ArrowRight" || code == "KeyD"
  {
    match code
    case "ArrowUp" => Some(Forward)
    case "KeyW" => Some(Forward)
    case "ArrowDown" => Some(Backward)
    case "KeyS" => Some(Backward)
    case "ArrowLeft" => Some(Left)
    case "KeyA" => Some(Left)
    case "ArrowRight" => Some(Right)
    case "KeyD" => Some(Right)
    case _ => None
  }

  function SetFlag(m: MoveState, f: Flag, value: bool): MoveState {
    match f
    case Forward => m.(forward := value)
    case Backward => m.(backward := value)
    case Left => m.(left := value)
    case Right => m.(right := value)
  }

  /** `onKeyDown`: a bound key sets its own flag; Space jumps when a jump is
      available, giving the upward velocity JUMP_FORCE and using the jump up;
      any other code changes nothing. */
  function KeyDown(m: MoveState, code: string): (r: MoveState)
    ensures forall f :: Pressed(r, f) == (Pressed(m, f) || Binding(code) == Some(f))
    ensures code != "Space" ==> r.canJump == m.canJump && r.yVelocity == m.yVelocity
    ensures code == "Space" && m.canJump ==> !r.canJump && r.yVelocity == JUMP_FORCE
    ensures code == "Space" && !m.canJump ==> r == m
  {
    match Binding(code)
    case Some(f) => SetFlag(m, f, true)
    case None =>
      if code == "Space" && m.canJump then
        m.(yVelocity := JUMP_FORCE, canJump := false)
      else
        m
  }

  /** `onKeyUp`: a bound key clears its own flag; every other code, Space
      included, changes nothing. */
  function KeyUp(m: MoveState, code: string): (r: MoveState)
    ensures forall f :: Pressed(r, f) == (Pressed(m, f) && Binding(code) != Some(f))
    ensures r.canJump == m.canJump && r.yVelocity == m.yVelocity
  {
    match Binding(code)
    case Some(f) => SetFlag(m, f, false)
    case None => m
  }

  /** Two move states that agree on every flag and on the jump state are
      the same. */
  lemma SameState(a: MoveState, b: MoveState)
    requires forall f :: Pressed(a, f) == Pressed(b, f)
    requires a.canJump == b.canJump && a.yVelocity == b.yVelocity
    ensures a == b
  {
    assert Pressed(a, Forward) == Pressed(b, Forward);
    assert Pressed(a, Backward) == Pressed(b, Backward);
    assert Pressed(a, Left) == Pressed(b, Left);
    assert Pressed(a, Right) == Pressed(b, Right);
  }

  /** Unmapped codes are ignored by both handlers, and Space by `onKeyUp`. */
  lemma UnboundKeysChangeNothing(m: MoveState, code: string)
    requires Binding(code) == None
    ensures code != "Space" ==> KeyDown(m, code) == m
    ensures KeyUp(m, code) == m
  {
    if code != "Space" {
      SameState(KeyDown(m, code), m);
    }
    SameState(KeyUp(m, code), m);
  }

  /** Each bound key touches its own flag and nothing else: pressing it sets
      the flag, releasing it clears the flag, and every other field keeps its
      value. */
  lemma KeyTouchesOnlyItsFlag(m: MoveState, code: string, f: Flag)
    requires Binding(code) == Some(f)
    ensures KeyDown(m, code) == SetFlag(m, f, true)
    ensures KeyUp(m, code) == SetFlag(m, f, false)
    ensures forall g :: g != f ==> Pressed(KeyDown(m, code), g) == Pressed(m, g)
    ensures forall g :: g != f ==> Pressed(KeyUp(m, code), g) == Pressed(m, g)
  {
  }

  /** Pressing and then releasing a bound key leaves its flag clear and
      everything else as before. */
  lemma PressThenRelease(m: MoveState, code: string, f: Flag)
    requires Binding(code) == Some(f)
    ensures KeyUp(KeyDown(m, code), code) == SetFlag(m, f, false)
    ensures !Pressed(KeyUp(KeyDown(m, code), code), f)
  {
  }

  /** A second Space before the player lands is a no-op. */
  lemma SecondSpaceIgnored(m: MoveState)
    ensures KeyDown(KeyDown(m, "Space"), "Space") == KeyDown(m, "Space")
  {
  }

  /** A keyboard event as the two listeners receive it. */
  datatype KeyEvent = Down(code: string) | Up(code: string)

  /** Dispatch of one event to its listener. No event makes a jump
      available, and a key-up never touches the jump or the velocity. */
  function OnKey(m: MoveState, e: KeyEvent): (r: MoveState)
    ensures r.canJump ==> m.canJump
    ensures e.Up? ==> r.canJump == m.canJump && r.yVelocity == m.yVelocity
  {
    match e
    case Down(code) => KeyDown(m, code)
    case Up(code) => KeyUp(m, code)
  }

  /** The state after the listeners have handled `events` in order; keys
      alone never make a jump available. */
  function Replay(m: MoveState, events: seq<KeyEvent>): (r: MoveState)
    ensures r.canJump ==> m.canJump
    decreases |events|
  {
    if events == [] then m else Replay(OnKey(m, events[0]), events[1..])
  }

  /** Once the jump is used up, no sequence of key events gives it back or
      changes the vertical velocity: only landing (in the tick) re-enables it. */
  lemma {:induction false} KeysNeverRestoreJump(m: MoveState, events: seq<KeyEvent>)
    requires !m.canJump
    ensures !Replay(m, events).canJump
    ensures Replay(m, events).yVelocity == m.yVelocity
    decreases |events|
  {
    if events != [] {
      var next := OnKey(m, events[0]);
      assert !next.canJump && next.yVelocity == m.yVelocity;
      KeysNeverRestoreJump(next, events[1..]);
    }
  }

  /** So among any events there is at most one jump: after the first Space
      that jumps, the upward velocity stays JUMP_FORCE until the tick. */
  lemma {:induction false} AtMostOneJump(m: MoveState, before: seq<KeyEvent>, after: seq<KeyEvent>)
    requires Replay(m, before).canJump
    ensures Replay(m, before + [Down("Space")] + after).yVelocity == JUMP_FORCE
    ensures !Replay(m, before + [Down("Space")] + after).canJump
  {
    ReplayAppend(m, before, [Down("Space")] + after);
    assert before + [Down("Space")] + after == before + ([Down("Space")] + after);
    var jumped := KeyDown(Replay(m, before), "Space");
    assert ([Down("Space")] + after)[1..] == after;
    KeysNeverRestoreJump(jumped, after);
  }

  lemma {:induction false} ReplayAppend(m: MoveState, xs: seq<KeyEvent>, ys: seq<KeyEvent>)
    ensures Replay(m, xs + ys) == Replay(Replay(m, xs), ys)
    decreases |xs|
  {
    if xs != [] {
      assert (xs + ys)[1..] == xs[1..] + ys;
      ReplayAppend(OnKey(m, xs[0]), xs[1..], ys);
    } else {
      assert xs + ys == ys;
    }
  }
}
