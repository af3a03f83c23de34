/** The first stage of the orbit-camera system (src/lib.rs:188-218): the
    frame's button and key states, mouse-motion events and wheel events are
    reduced to one `Intent` — how far to orbit, how far to pan, how much to
    zoom, and whether the orbit button changed state this frame. */
module Input {
  import opened Geometry

  datatype MouseButton = Left | Right | Middle | OtherButton(code: nat)

  datatype KeyCode = LShift | RShift | Period | OtherKey(code: nat)

  /** The host's press state for one frame: what is held, and what went down
      or came up since the previous frame. */
  datatype ButtonInput<T> = ButtonInput(pressed: set<T>, justPressed: set<T>, justReleased: set<T>)

  /** One wheel event; only its vertical component is used. */
  datatype MouseWheel = MouseWheel(x: real, y: real)

  /** Everything the input stage reads in one frame. */
  datatype FrameInput = FrameInput(
    mouse: ButtonInput<MouseButton>,
    keys: ButtonInput<KeyCode>,
    motion: seq<Vec2>,
    wheel: seq<MouseWheel>)

  /** The input mapping: orbit and pan share the middle button, and either
      shift key turns a middle-button drag into a pan. */
  const OrbitButton: MouseButton := Middle
  const PanButton: MouseButton := Middle
  const PanKeyLeft: KeyCode := LShift
  const PanKeyRight: KeyCode := RShift

  /** What one frame of input asks of every camera rig. */
  datatype Intent = Intent(rotationMove: Vec2, pan: Vec2, scroll: real, orbitButtonChanged: bool)

  predicate PanKeyHeld(keys: ButtonInput<KeyCode>) {
    PanKeyRight in keys.pressed || PanKeyLeft in keys.pressed
  }

  /** The orbit button is held and no pan key is. */
  predicate OrbitRequested(input: FrameInput) {
    OrbitButton in input.mouse.pressed && !PanKeyHeld(input.keys)
  }

  /** The pan button is held together with a pan key. */
  predicate PanRequested(input: FrameInput) {
    PanButton in input.mouse.pressed && PanKeyHeld(input.keys)
  }

  predicate OrbitButtonChanged(mouse: ButtonInput<MouseButton>) {
    OrbitButton in mouse.justReleased || OrbitButton in mouse.justPressed
  }

  /** The sum of the motion deltas, accumulated in event order. */
  function SumMotion(events: seq<Vec2>): Vec2 {
    if |events| == 0 then Zero2
    else Add2(SumMotion(events[..|events| - 1]), events[|events| - 1])
  }

  /** The sum of the vertical wheel deltas, accumulated in event order. */
  function SumScroll(wheel: seq<MouseWheel>): real {
    if |wheel| == 0 then 0.0
    else SumScroll(wheel[..|wheel| - 1]) + wheel[|wheel| - 1].y
  }

  /** The reduced input. The frame's motion goes to the orbit when the orbit
      is requested, to the pan when only the pan is, and nowhere otherwise. */
  function Reduce(input: FrameInput): (r: Intent)
    ensures r.rotationMove == Zero2 || r.pan == Zero2
    ensures r.rotationMove != Zero2 ==> OrbitRequested(input)
    ensures r.pan != Zero2 ==> PanRequested(input) && !OrbitRequested(input)
    ensures OrbitRequested(input) ==> r.rotationMove == SumMotion(input.motion)
    ensures PanRequested(input) ==> r.pan == SumMotion(input.motion)
    ensures !OrbitRequested(input) && !PanRequested(input) ==> r.rotationMove == Zero2 && r.pan == Zero2
    ensures r.scroll == SumScroll(input.wheel)
    ensures r.orbitButtonChanged <==> OrbitButtonChanged(input.mouse)
  {
    var total := SumMotion(input.motion);
    Intent(
      if OrbitRequested(input) then total else Zero2,
      if !OrbitRequested(input) && PanRequested(input) then total else Zero2,
      SumScroll(input.wheel),
      OrbitButtonChanged(input.mouse))
  }

  /** The input stage as the source performs it: one pass over the motion
      events into whichever accumulator the buttons select, one pass over
      the wheel events. */
  method ReduceInput(input: FrameInput) returns (intent: Intent)
    ensures intent == Reduce(input)
  {
    var pan := Zero2;
    var rotationMove := Zero2;
    var scroll := 0.0;
    var orbitButtonChanged := false;
    if OrbitButton in input.mouse.pressed && !(PanKeyRight in input.keys.pressed || PanKeyLeft in input.keys.pressed) {
      var i := 0;
      while i < |input.motion|
        invariant 0 <= i <= |input.motion|
        invariant rotationMove == SumMotion(input.motion[..i])
      {
        assert input.motion[..i + 1][..i] == input.motion[..i];
        rotationMove := Add2(rotationMove, input.motion[i]);
        i := i + 1;
      }
      assert input.motion[..i] == input.motion;
    } else if PanButton in input.mouse.pressed && (PanKeyRight in input.keys.pressed || PanKeyLeft in input.keys.pressed) {
      var i := 0;
      while i < |input.motion|
        invariant 0 <= i <= |input.motion|
        invariant pan == SumMotion(input.motion[..i])
      {
        assert input.motion[..i + 1][..i] == input.motion[..i];
        pan := Add2(pan, input.motion[i]);
        i := i + 1;
      }
      assert input.motion[..i] == input.motion;
    }
    var j := 0;
    while j < |input.wheel|
      invariant 0 <= j <= |input.wheel|
      invariant scroll == SumScroll(input.wheel[..j])
    {
      assert input.wheel[..j + 1][..j] == input.wheel[..j];
      scroll := scroll + input.wheel[j].y;
      j := j + 1;
    }
    assert input.wheel[..j] == input.wheel;
    if OrbitButton in input.mouse.justReleased || OrbitButton in input.mouse.justPressed {
      orbitButtonChanged := true;
    }
    intent := Intent(rotationMove, pan, scroll, orbitButtonChanged);
  }

  /** Motion delivered in two batches sums to the same delta as delivered in
      one: the accumulated delta does not depend on how the host splits the
      frame's events. */
  lemma {:induction false} SumMotionAppend(a: seq<Vec2>, b: seq<Vec2>)
    ensures SumMotion(a + b) == Add2(SumMotion(a), SumMotion(b))
  {
    if |b| == 0 {
      assert a + b == a;
    } else {
      var b' := b[..|b| - 1];
      assert (a + b)[..|a + b| - 1] == a + b';
      SumMotionAppend(a, b');
    }
  }

  /** The horizontal component of wheel events never reaches the zoom. */
  lemma {:induction false} ScrollIgnoresHorizontal(w1: seq<MouseWheel>, w2: seq<MouseWheel>)
    requires |w1| == |w2|
    requires forall i :: 0 <= i < |w1| ==> w1[i].y == w2[i].y
    ensures SumScroll(w1) == SumScroll(w2)
  {
    if |w1| > 0 {
      ScrollIgnoresHorizontal(w1[..|w1| - 1], w2[..|w2| - 1]);
    }
  }

  /** A frame with no motion events routes no motion, whatever is held. */
  lemma NoMotionRoutesNothing(input: FrameInput)
    requires |input.motion| == 0
    ensures Reduce(input).rotationMove == Zero2 && Reduce(input).pan == Zero2
  {
  }
}
