/** The per-rig update of the orbit camera (src/lib.rs:220-277) and the
    per-frame system that applies it to every controllable camera
    (src/lib.rs:169-278).

    Each rig carries a focus point, a radius and a cached "upside down" flag;
    its transform carries the camera's rotation and translation. One frame
    refreshes the flag on an orbit-button edge, then applies at most one of
    orbit, pan or zoom (in that priority), then re-derives the translation
    from focus, rotation and radius if anything fired. */
module PanOrbit {
  import opened Geometry
  import opened Input
  import opened Options

  /** The orbit state of one camera. */
  datatype PanOrbitCamera = PanOrbitCamera(focus: Vec3, radius: real, upsideDown: bool)

  const DefaultPanOrbitCamera: PanOrbitCamera := PanOrbitCamera(Zero3, 5.0, false)

  /** A window dimension in pixels. */
  type Extent = r: real | r > 0.0 witness 1.0

  datatype Window = Window(width: Extent, height: Extent)

  datatype Projection = Perspective(fov: real, aspectRatio: real) | Orthographic

  /** A controllable camera: its orbit state, transform and projection. */
  datatype Rig = Rig(camera: PanOrbitCamera, transform: Transform, projection: Projection)

  /** Fraction of the radius removed per unit of scroll. */
  const ZoomRate: real := 0.002

  /** The radius a zoom never goes below. */
  const MinRadius: real := 0.05

  /** Which of the three actions a frame performs. */
  datatype Branch = Orbit | Pan | Zoom | Idle

  /** The action a frame's intent selects: orbit if there is rotation
      motion, else pan if there is pan motion, else zoom if there is scroll. */
  function Fired(intent: Intent): (b: Branch)
    ensures b == Orbit <==> LengthSquared2(intent.rotationMove) > 0.0
    ensures b == Pan <==> LengthSquared2(intent.rotationMove) <= 0.0 && LengthSquared2(intent.pan) > 0.0
    ensures b == Zoom <==> LengthSquared2(intent.rotationMove) <= 0.0 && LengthSquared2(intent.pan) <= 0.0 && intent.scroll != 0.0
    ensures b == Idle <==> LengthSquared2(intent.rotationMove) <= 0.0 && LengthSquared2(intent.pan) <= 0.0 && intent.scroll == 0.0
  {
    if LengthSquared2(intent.rotationMove) > 0.0 then Orbit
    else if LengthSquared2(intent.pan) > 0.0 then Pan
    else if Abs(intent.scroll) > 0.0 then Zoom
    else Idle
  }

  /** The camera's up axis points downwards or sideways in world space. */
  predicate UpsideDown(k: Kernel, rotation: Quat) {
    k.rotate(rotation, UnitY).y <= 0.0
  }

  /** The orbit: yaw about the world y axis composed on the left, pitch about
      the camera's own x axis composed on the right. A horizontal drag across
      the whole window is a full turn, a vertical one half a turn; the
      horizontal sense is reversed while the camera is upside down. */
  function OrbitRotation(k: Kernel, window: Window, upsideDown: bool, move: Vec2, rotation: Quat): Quat {
    var delta := move.x / window.width * Pi * 2.0;
    var deltaX := if upsideDown then -delta else delta;
    var deltaY := move.y / window.height * Pi;
    var yaw := FromRotationY(k, -deltaX);
    var pitch := FromRotationX(k, -deltaY);
    k.mul(k.mul(yaw, rotation), pitch)
  }

  /** The drag in view units: scaled by the field of view per pixel for a
      perspective projection, unchanged for an orthographic one. */
  function ScaledPan(window: Window, projection: Projection, pan: Vec2): Vec2 {
    match projection
    case Perspective(fov, aspectRatio) =>
      Vec2(pan.x * (fov * aspectRatio / window.width), pan.y * (fov / window.height))
    case Orthographic => pan
  }

  /** The focus displacement of a pan: the drag, scaled by the field of view
      per pixel for a perspective projection, along the camera's right axis
      (reversed) and up axis, times the radius. */
  function PanOffset(k: Kernel, window: Window, projection: Projection, rotation: Quat, radius: real, pan: Vec2): Vec3 {
    var scaled := ScaledPan(window, projection, pan);
    var right := Scale(k.rotate(rotation, UnitX), -scaled.x);
    var up := Scale(k.rotate(rotation, UnitY), scaled.y);
    Scale(Add(right, up), radius)
  }

  /** The zoomed radius: reduced by `scroll * ZoomRate` of itself, but never
      below `MinRadius`. */
  function Zoomed(radius: real, scroll: real): (r: real)
    ensures r >= MinRadius
    ensures r >= radius - scroll * radius * ZoomRate
    ensures r == MinRadius || r == radius - scroll * radius * ZoomRate
  {
    Max(radius - scroll * radius * ZoomRate, MinRadius)
  }

  /** Where the camera sits relative to the focus: `radius` along the
      rotated z axis. */
  function CameraOffset(k: Kernel, rotation: Quat, radius: real): Vec3 {
    k.mulVec(k.matFromQuat(rotation), Vec3(0.0, 0.0, radius))
  }

  /** The transform's translation is the one focus, rotation and radius
      determine. */
  predicate Rederived(k: Kernel, camera: PanOrbitCamera, transform: Transform) {
    transform.translation == Add(camera.focus, CameraOffset(k, transform.rotation, camera.radius))
  }

  function Rederive(k: Kernel, camera: PanOrbitCamera, transform: Transform): (t: Transform)
    ensures Rederived(k, camera, t)
    ensures t.rotation == transform.rotation && t.scale == transform.scale
  {
    transform.(translation := Add(camera.focus, CameraOffset(k, transform.rotation, camera.radius)))
  }

  /** One frame of one rig. */
  function StepRig(k: Kernel, window: Window, intent: Intent, rig: Rig): (r: Rig)
    // the projection and the scale are never written
    ensures r.projection == rig.projection
    ensures r.transform.scale == rig.transform.scale
    // the flag is refreshed, from the rotation before this frame's orbit, only on an edge
    ensures intent.orbitButtonChanged ==> r.camera.upsideDown == UpsideDown(k, rig.transform.rotation)
    ensures !intent.orbitButtonChanged ==> r.camera.upsideDown == rig.camera.upsideDown
    // each action writes only its own field
    ensures Fired(intent) != Orbit ==> r.transform.rotation == rig.transform.rotation
    ensures Fired(intent) != Pan ==> r.camera.focus == rig.camera.focus
    ensures Fired(intent) != Zoom ==> r.camera.radius == rig.camera.radius
    // the orbit uses the refreshed flag
    ensures Fired(intent) == Orbit ==>
      r.transform.rotation == OrbitRotation(k, window, r.camera.upsideDown, intent.rotationMove, rig.transform.rotation)
    ensures Fired(intent) == Pan ==>
      r.camera.focus == Add(rig.camera.focus, PanOffset(k, window, rig.projection, rig.transform.rotation, rig.camera.radius, intent.pan))
    ensures Fired(intent) == Zoom ==>
      r.camera.radius == Zoomed(rig.camera.radius, intent.scroll) && r.camera.radius >= MinRadius
    // the translation is re-derived exactly when something fired
    ensures Fired(intent) != Idle ==> Rederived(k, r.camera, r.transform)
    ensures Fired(intent) == Idle ==> r.transform == rig.transform
  {
    var camera :=
      if intent.orbitButtonChanged then rig.camera.(upsideDown := UpsideDown(k, rig.transform.rotation))
      else rig.camera;
    var t := rig.transform;
    match Fired(intent)
    case Orbit =>
      var rotated := t.(rotation := OrbitRotation(k, window, camera.upsideDown, intent.rotationMove, t.rotation));
      Rig(camera, Rederive(k, camera, rotated), rig.projection)
    case Pan =>
      var panned := camera.(focus := Add(camera.focus, PanOffset(k, window, rig.projection, t.rotation, camera.radius, intent.pan)));
      Rig(panned, Rederive(k, panned, t), rig.projection)
    case Zoom =>
      var zoomed := camera.(radius := Zoomed(camera.radius, intent.scroll));
      Rig(zoomed, Rederive(k, zoomed, t), rig.projection)
    case Idle =>
      Rig(camera, t, rig.projection)
  }

  /** The camera system for one frame, as intended: nothing happens without
      a primary window; otherwise the input is reduced once and every rig
      takes one step with the same intent, independently of the others.
      (The source's loop does not keep the rigs independent; see
      `PanOrbitCameraSystemAsWritten`.) */
  method PanOrbitCameraSystem(k: Kernel, window: Option<Window>, input: FrameInput, rigs: seq<Rig>)
    returns (out: seq<Rig>)
    ensures window.None? ==> out == rigs
    ensures window.Some? ==> |out| == |rigs|
    ensures window.Some? ==> forall i :: 0 <= i < |rigs| ==> out[i] == StepRig(k, window.value, Reduce(input), rigs[i])
  {
    if window.None? {
      return rigs;
    }
    var intent := ReduceInput(input);
    out := [];
    var i := 0;
    while i < |rigs|
      invariant 0 <= i <= |rigs|
      invariant |out| == i
      invariant forall j :: 0 <= j < i ==> out[j] == StepRig(k, window.value, intent, rigs[j])
    {
      out := out + [StepRig(k, window.value, intent, rigs[i])];
      i := i + 1;
    }
  }

  /** The pan the source's per-camera loop hands to the next camera. The
      loop shares one `pan` variable across cameras and, in the pan branch of
      a perspective camera, scales it in place by the field of view per
      pixel (src/lib.rs:194, 254); otherwise it is left as it was. */
  function PanLeftBehind(window: Window, intent: Intent, rig: Rig): Vec2 {
    if Fired(intent) == Pan then ScaledPan(window, rig.projection, intent.pan) else intent.pan
  }

  /** The cameras stepped in query order as the source's loop does: each
      camera sees the pan the cameras before it left behind. */
  function StepAllAsWritten(k: Kernel, window: Window, intent: Intent, rigs: seq<Rig>): (out: seq<Rig>)
    ensures |out| == |rigs|
    decreases |rigs|
  {
    if |rigs| == 0 then []
    else
      var next := intent.(pan := PanLeftBehind(window, intent, rigs[0]));
      [StepRig(k, window, intent, rigs[0])] + StepAllAsWritten(k, window, next, rigs[1..])
  }

  /** One step of the recursion: the first camera, then the rest with the
      pan it left behind. */
  lemma StepAllUnfold(k: Kernel, window: Window, intent: Intent, rigs: seq<Rig>)
    requires |rigs| > 0
    ensures StepAllAsWritten(k, window, intent, rigs)
         == [StepRig(k, window, intent, rigs[0])]
          + StepAllAsWritten(k, window, intent.(pan := PanLeftBehind(window, intent, rigs[0])), rigs[1..])
  {
  }

  /** One iteration of the source's loop keeps the remaining recursion in
      step with what has been produced so far. */
  lemma StepAllAdvance(k: Kernel, window: Window, intent: Intent, rigs: seq<Rig>, i: nat, pan: Vec2, out: seq<Rig>)
    requires i < |rigs|
    requires out + StepAllAsWritten(k, window, intent.(pan := pan), rigs[i..]) == StepAllAsWritten(k, window, intent, rigs)
    ensures var current := intent.(pan := pan);
            (out + [StepRig(k, window, current, rigs[i])])
              + StepAllAsWritten(k, window, intent.(pan := PanLeftBehind(window, current, rigs[i])), rigs[i + 1..])
            == StepAllAsWritten(k, window, intent, rigs)
  {
    var current := intent.(pan := pan);
    var left := PanLeftBehind(window, current, rigs[i]);
    var head := StepRig(k, window, current, rigs[i]);
    var tail := StepAllAsWritten(k, window, intent.(pan := left), rigs[i + 1..]);
    assert StepAllAsWritten(k, window, current, rigs[i..]) == [head] + tail by {
      assert rigs[i..][0] == rigs[i] && rigs[i..][1..] == rigs[i + 1..];
      assert current.(pan := left) == intent.(pan := left);
      StepAllUnfold(k, window, current, rigs[i..]);
    }
    assert (out + [head]) + tail == out + ([head] + tail);
  }

  /** The camera system as the source's loop performs it, with the shared
      pan variable threaded from one camera to the next. */
  method PanOrbitCameraSystemAsWritten(k: Kernel, window: Option<Window>, input: FrameInput, rigs: seq<Rig>)
    returns (out: seq<Rig>)
    ensures window.None? ==> out == rigs
    ensures window.Some? ==> out == StepAllAsWritten(k, window.value, Reduce(input), rigs)
  {
    if window.None? {
      return rigs;
    }
    var intent := ReduceInput(input);
    out := StepCamerasAsWritten(k, window.value, intent, rigs);
  }

  /** The source's per-camera loop, with one `pan` variable shared by all
      iterations. */
  method StepCamerasAsWritten(k: Kernel, w: Window, intent: Intent, rigs: seq<Rig>) returns (out: seq<Rig>)
    ensures out == StepAllAsWritten(k, w, intent, rigs)
  {
    var pan := intent.pan;
    out := [];
    var i := 0;
    assert intent.(pan := pan) == intent && rigs[0..] == rigs;
    while i < |rigs|
      invariant 0 <= i <= |rigs|
      invariant out + StepAllAsWritten(k, w, intent.(pan := pan), rigs[i..]) == StepAllAsWritten(k, w, intent, rigs)
    {
      var current := intent.(pan := pan);
      StepAllAdvance(k, w, intent, rigs, i, pan, out);
      out := out + [StepRig(k, w, current, rigs[i])];
      pan := PanLeftBehind(w, current, rigs[i]);
      i := i + 1;
    }
    assert rigs[i..] == [];
  }

  /** Without perspective cameras, or on a frame that does not pan, the
      shared pan is never rescaled, and the loop as written steps every
      camera exactly as the intended system does. */
  lemma {:induction false} AsWrittenAgreesWithoutPerspectivePan(k: Kernel, window: Window, intent: Intent, rigs: seq<Rig>)
    requires Fired(intent) != Pan || forall i :: 0 <= i < |rigs| ==> rigs[i].projection.Orthographic?
    ensures forall i :: 0 <= i < |rigs| ==> StepAllAsWritten(k, window, intent, rigs)[i] == StepRig(k, window, intent, rigs[i])
    decreases |rigs|
  {
    if |rigs| > 0 {
      assert PanLeftBehind(window, intent, rigs[0]) == intent.pan;
      assert intent.(pan := intent.pan) == intent;
      var rest := rigs[1..];
      assert forall i :: 0 <= i < |rest| ==> rest[i] == rigs[i + 1];
      AsWrittenAgreesWithoutPerspectivePan(k, window, intent, rest);
      var out := StepAllAsWritten(k, window, intent, rigs);
      assert out == [StepRig(k, window, intent, rigs[0])] + StepAllAsWritten(k, window, intent, rest);
    }
  }

  /** With a single camera the shared pan does no harm. */
  lemma SingleCameraAsIntended(k: Kernel, window: Window, intent: Intent, rig: Rig)
    ensures StepAllAsWritten(k, window, intent, [rig]) == [StepRig(k, window, intent, rig)]
  {
  }

  /** Two perspective cameras with a field of view of 1 and an aspect ratio
      of 1 in a 100 x 100 window, dragged by (10, 0) with shift held: the
      first pans by the intended (0.1, 0) view units; the second is handed
      the already scaled (0.1, 0) and pans by (0.001, 0). */
  lemma PanCompoundsAcrossCameras(k: Kernel, w: Window, intent: Intent, rig: Rig)
    requires w == Window(100.0, 100.0) && intent == Intent(Zero2, Vec2(10.0, 0.0), 0.0, false)
    requires rig.projection == Perspective(1.0, 1.0)
    ensures ScaledPan(w, rig.projection, intent.pan) == Vec2(0.1, 0.0)
    ensures ScaledPan(w, rig.projection, Vec2(0.1, 0.0)) == Vec2(0.001, 0.0)
    ensures StepAllAsWritten(k, w, intent, [rig, rig])
         == [StepRig(k, w, intent, rig), StepRig(k, w, intent.(pan := Vec2(0.1, 0.0)), rig)]
  {
    FirstCameraLeavesScaledPan(w, intent, rig);
    TwoCameras(k, w, intent, rig);
  }

  /** The first camera of `PanCompoundsAcrossCameras` leaves the drag scaled
      to (0.1, 0), which scales again to (0.001, 0). */
  lemma FirstCameraLeavesScaledPan(w: Window, intent: Intent, rig: Rig)
    requires w == Window(100.0, 100.0) && intent == Intent(Zero2, Vec2(10.0, 0.0), 0.0, false)
    requires rig.projection == Perspective(1.0, 1.0)
    ensures ScaledPan(w, rig.projection, intent.pan) == Vec2(0.1, 0.0)
    ensures ScaledPan(w, rig.projection, Vec2(0.1, 0.0)) == Vec2(0.001, 0.0)
    ensures PanLeftBehind(w, intent, rig) == Vec2(0.1, 0.0)
  {
    assert Fired(intent) == Pan by {
      assert LengthSquared2(intent.rotationMove) == 0.0 && LengthSquared2(intent.pan) == 100.0;
    }
    assert ScaledPan(w, rig.projection, intent.pan) == Vec2(0.1, 0.0) by {
      HundredPixelScale(w, rig.projection, 10.0);
    }
    assert ScaledPan(w, rig.projection, Vec2(0.1, 0.0)) == Vec2(0.001, 0.0) by {
      HundredPixelScale(w, rig.projection, 0.1);
    }
  }

  /** In a 100 x 100 window with a field of view and aspect ratio of 1, a
      horizontal drag shrinks a hundredfold. */
  lemma HundredPixelScale(w: Window, projection: Projection, x: real)
    requires w == Window(100.0, 100.0) && projection == Perspective(1.0, 1.0)
    ensures ScaledPan(w, projection, Vec2(x, 0.0)) == Vec2(x / 100.0, 0.0)
  {
    assert 1.0 * 1.0 / 100.0 == 1.0 / 100.0;
  }

  /** The two-camera loop: the second camera sees what the first left. */
  lemma TwoCameras(k: Kernel, w: Window, intent: Intent, rig: Rig)
    ensures StepAllAsWritten(k, w, intent, [rig, rig])
         == [StepRig(k, w, intent, rig), StepRig(k, w, intent.(pan := PanLeftBehind(w, intent, rig)), rig)]
  {
    var next := intent.(pan := PanLeftBehind(w, intent, rig));
    assert [rig, rig][1..] == [rig] && [rig][1..] == [];
    StepAllUnfold(k, w, intent, [rig, rig]);
    StepAllUnfold(k, w, next, [rig]);
  }

  /** With the camera at the identity rotation and radius 1, the two
      identical cameras of `PanCompoundsAcrossCameras` end up with different
      foci, although the intended system moves them alike. */
  lemma IdenticalCamerasDiverge(k: Kernel, w: Window, intent: Intent, rig: Rig)
    requires IdentityFixes(k)
    requires w == Window(100.0, 100.0) && intent == Intent(Zero2, Vec2(10.0, 0.0), 0.0, false)
    requires rig.projection == Perspective(1.0, 1.0)
    requires rig.transform.rotation == Identity && rig.camera.radius == 1.0
    ensures StepAllAsWritten(k, w, intent, [rig, rig])[0].camera.focus == Add(rig.camera.focus, Vec3(-0.1, 0.0, 0.0))
    ensures StepAllAsWritten(k, w, intent, [rig, rig])[1].camera.focus == Add(rig.camera.focus, Vec3(-0.001, 0.0, 0.0))
  {
    PanCompoundsAcrossCameras(k, w, intent, rig);
    var second := intent.(pan := Vec2(0.1, 0.0));
    assert k.rotate(Identity, UnitX) == UnitX && k.rotate(Identity, UnitY) == UnitY;
    assert LengthSquared2(second.rotationMove) == 0.0 && LengthSquared2(second.pan) > 0.0;
    assert Fired(intent) == Pan && Fired(second) == Pan;
    PanOffsetAtIdentity(k, w, rig.projection, intent.pan, Vec2(0.1, 0.0));
    PanOffsetAtIdentity(k, w, rig.projection, second.pan, Vec2(0.001, 0.0));
  }

  /** At the identity rotation and radius 1, a pan moves the focus by the
      scaled drag, mirrored in x. */
  lemma PanOffsetAtIdentity(k: Kernel, w: Window, projection: Projection, pan: Vec2, scaled: Vec2)
    requires IdentityFixes(k)
    requires ScaledPan(w, projection, pan) == scaled
    ensures PanOffset(k, w, projection, Identity, 1.0, pan) == Vec3(-scaled.x, scaled.y, 0.0)
  {
    assert k.rotate(Identity, UnitX) == UnitX && k.rotate(Identity, UnitY) == UnitY;
  }

  /** A perspective camera with a zero field of view that pans scales the
      shared pan to zero, so no camera after it pans on this frame. */
  lemma ZeroFovStopsLaterPans(window: Window, intent: Intent, rig: Rig, aspectRatio: real)
    requires rig.projection == Perspective(0.0, aspectRatio)
    requires Fired(intent) == Pan
    ensures PanLeftBehind(window, intent, rig) == Zero2
    ensures Fired(intent.(pan := PanLeftBehind(window, intent, rig))) != Pan
  {
    assert 0.0 * aspectRatio == 0.0 && 0.0 / window.width == 0.0 && 0.0 / window.height == 0.0;
    assert ScaledPan(window, rig.projection, intent.pan) == Vec2(intent.pan.x * 0.0, intent.pan.y * 0.0) == Zero2;
    assert LengthSquared2(Zero2) == 0.0;
  }

  /** After a panning perspective camera with a zero field of view, every
      later camera is stepped with a zero pan. */
  lemma ZeroFovSilencesLaterCameras(k: Kernel, window: Window, intent: Intent, first: Rig, rest: seq<Rig>, aspectRatio: real)
    requires first.projection == Perspective(0.0, aspectRatio)
    requires Fired(intent) == Pan
    ensures forall i :: 0 <= i < |rest| ==>
      StepAllAsWritten(k, window, intent, [first] + rest)[i + 1] == StepRig(k, window, intent.(pan := Zero2), rest[i])
  {
    forall i | 0 <= i < |rest|
      ensures StepAllAsWritten(k, window, intent, [first] + rest)[i + 1] == StepRig(k, window, intent.(pan := Zero2), rest[i])
    {
      SilencedCamera(k, window, intent, first, rest, aspectRatio, i);
    }
  }

  /** One camera after the zero field of view camera. */
  lemma SilencedCamera(k: Kernel, window: Window, intent: Intent, first: Rig, rest: seq<Rig>, aspectRatio: real, i: nat)
    requires first.projection == Perspective(0.0, aspectRatio)
    requires Fired(intent) == Pan
    requires i < |rest|
    ensures StepAllAsWritten(k, window, intent, [first] + rest)[i + 1] == StepRig(k, window, intent.(pan := Zero2), rest[i])
  {
    assert PanLeftBehind(window, intent, first) == Zero2 && Fired(intent.(pan := Zero2)) != Pan by {
      ZeroFovStopsLaterPans(window, intent, first, aspectRatio);
    }
    LaterCameras(k, window, intent, first, rest, Zero2, i);
    AsWrittenAgreesWithoutPerspectivePan(k, window, intent.(pan := Zero2), rest);
  }

  /** On a frame that pans and also scrolls, the cameras that a zero field of
      view silenced fall through to the zoom branch: unlike the intended
      system, the scroll is not ignored during the pan drag. */
  lemma SilencedCamerasZoom(intent: Intent)
    requires Fired(intent) == Pan && intent.scroll != 0.0
    ensures Fired(intent.(pan := Zero2)) == Zoom
  {
    assert LengthSquared2(Zero2) == 0.0;
  }

  /** The cameras after the first are stepped as if the loop started at
      them with the pan the first one left behind. */
  lemma LaterCameras(k: Kernel, window: Window, intent: Intent, first: Rig, rest: seq<Rig>, left: Vec2, i: nat)
    requires left == PanLeftBehind(window, intent, first) && i < |rest|
    ensures StepAllAsWritten(k, window, intent, [first] + rest)[i + 1]
         == StepAllAsWritten(k, window, intent.(pan := left), rest)[i]
  {
    assert ([first] + rest)[0] == first && ([first] + rest)[1..] == rest;
    StepAllUnfold(k, window, intent, [first] + rest);
  }

  /** A frame that fires nothing leaves focus, radius, rotation and
      translation as they were; only the flag may be refreshed. */
  lemma IdleFrameChangesNothing(k: Kernel, window: Window, intent: Intent, rig: Rig)
    requires Fired(intent) == Idle
    ensures StepRig(k, window, intent, rig).camera.focus == rig.camera.focus
    ensures StepRig(k, window, intent, rig).camera.radius == rig.camera.radius
    ensures StepRig(k, window, intent, rig).transform == rig.transform
    ensures !intent.orbitButtonChanged ==> StepRig(k, window, intent, rig) == rig
  {
  }

  /** Whether or not anything fires, a rig whose translation agrees with
      its focus, rotation and radius still agrees after the step. */
  lemma StepKeepsRederived(k: Kernel, window: Window, intent: Intent, rig: Rig)
    requires Rederived(k, rig.camera, rig.transform)
    ensures Rederived(k, StepRig(k, window, intent, rig).camera, StepRig(k, window, intent, rig).transform)
  {
  }

  /** A camera created with the default orbit state starts above the radius
      floor, so the floor holds from the first frame on. */
  lemma DefaultCameraAboveFloor(k: Kernel, window: Window, intent: Intent, transform: Transform, projection: Projection)
    ensures DefaultPanOrbitCamera.radius >= MinRadius
    ensures StepRig(k, window, intent, Rig(DefaultPanOrbitCamera, transform, projection)).camera.radius >= MinRadius
  {
    StepKeepsRadiusFloor(k, window, intent, Rig(DefaultPanOrbitCamera, transform, projection));
  }

  /** The radius floor, once reached, survives every step. */
  lemma StepKeepsRadiusFloor(k: Kernel, window: Window, intent: Intent, rig: Rig)
    requires rig.camera.radius >= MinRadius
    ensures StepRig(k, window, intent, rig).camera.radius >= MinRadius
  {
  }

  /** Scrolling forwards never moves the camera away from the focus, and
      scrolling backwards never moves it closer. */
  lemma ZoomDirection(radius: real, scroll: real)
    ensures scroll >= 0.0 && radius >= MinRadius ==> Zoomed(radius, scroll) <= radius
    ensures scroll <= 0.0 && radius >= 0.0 ==> Zoomed(radius, scroll) >= radius
  {
    if scroll >= 0.0 && radius >= MinRadius {
      ProductNonNegative(scroll, radius);
      assert scroll * radius * ZoomRate >= 0.0;
    }
    if scroll <= 0.0 && radius >= 0.0 {
      ProductNonNegative(-scroll, radius);
      assert (-scroll) * radius == -(scroll * radius);
      assert scroll * radius * ZoomRate <= 0.0;
    }
  }

  /** From a radius below the floor, which a recenter (src/lib.rs:93) or the
      code that spawns the camera can leave behind, a forward scroll does not move the camera closer: the zoom lifts the
      radius to the floor. */
  lemma ForwardZoomFromBelowFloor(radius: real, scroll: real)
    requires 0.0 <= radius < MinRadius && scroll >= 0.0
    ensures Zoomed(radius, scroll) == MinRadius > radius
  {
    ProductNonNegative(scroll, radius);
    assert scroll * radius * ZoomRate >= 0.0;
  }

  /** While upside down, a horizontal drag orbits exactly as the mirrored
      drag would with the camera upright; the vertical drag is unaffected. */
  lemma UpsideDownMirrorsHorizontal(k: Kernel, window: Window, move: Vec2, rotation: Quat)
    ensures OrbitRotation(k, window, true, move, rotation)
         == OrbitRotation(k, window, false, Vec2(-move.x, move.y), rotation)
  {
    assert -(move.x / window.width) == (-move.x) / window.width;
  }

  /** With no vertical drag the orbit is a pure turntable yaw about the world
      y axis, applied on the outside of the current rotation. */
  lemma HorizontalOrbitIsTurntable(k: Kernel, window: Window, upsideDown: bool, move: Vec2, rotation: Quat)
    requires ExactAtZero(k) && IdentityNeutral(k)
    requires move.y == 0.0
    ensures var delta := move.x / window.width * Pi * 2.0;
            var deltaX := if upsideDown then -delta else delta;
            OrbitRotation(k, window, upsideDown, move, rotation) == k.mul(FromRotationY(k, -deltaX), rotation)
  {
    assert move.y / window.height == 0.0;
    assert FromRotationX(k, -(move.y / window.height * Pi)) == Identity;
  }

  /** With no horizontal drag the orbit is a pure pitch about the camera's
      own x axis, applied on the inside of the current rotation, whatever the
      upside-down flag says. */
  lemma VerticalOrbitIsLocalPitch(k: Kernel, window: Window, upsideDown: bool, move: Vec2, rotation: Quat)
    requires ExactAtZero(k) && IdentityNeutral(k)
    requires move.x == 0.0
    ensures OrbitRotation(k, window, upsideDown, move, rotation)
         == k.mul(rotation, FromRotationX(k, -(move.y / window.height * Pi)))
  {
    assert move.x / window.width == 0.0;
    assert FromRotationY(k, -(move.x / window.width * Pi * 2.0)) == Identity;
    assert FromRotationY(k, -(-(move.x / window.width * Pi * 2.0))) == Identity;
  }

  /** The pan displacement is the unit-radius displacement scaled by the
      radius: panning speed is proportional to the distance from the focus. */
  lemma PanScalesWithRadius(k: Kernel, window: Window, projection: Projection, rotation: Quat, radius: real, pan: Vec2)
    ensures PanOffset(k, window, projection, rotation, radius, pan)
         == Scale(PanOffset(k, window, projection, rotation, 1.0, pan), radius)
  {
  }

  /** An orthographic pan does not depend on the window size. */
  lemma OrthographicPanIgnoresWindow(k: Kernel, w1: Window, w2: Window, rotation: Quat, radius: real, pan: Vec2)
    ensures PanOffset(k, w1, Orthographic, rotation, radius, pan) == PanOffset(k, w2, Orthographic, rotation, radius, pan)
  {
  }

  /** A camera in the default orientation is upright. */
  lemma IdentityIsUpright(k: Kernel)
    requires IdentityFixes(k)
    ensures !UpsideDown(k, Identity)
  {
    assert k.rotate(Identity, UnitY) == UnitY;
  }

  /** While the orbit drag has motion, the frame's scroll is ignored: the
      radius and focus keep their values. */
  lemma OrbitDragIgnoresScroll(k: Kernel, window: Window, input: FrameInput, rig: Rig)
    requires OrbitRequested(input)
    requires LengthSquared2(SumMotion(input.motion)) > 0.0
    ensures Fired(Reduce(input)) == Orbit
    ensures StepRig(k, window, Reduce(input), rig).camera.radius == rig.camera.radius
    ensures StepRig(k, window, Reduce(input), rig).camera.focus == rig.camera.focus
  {
  }

  /** While the pan drag has motion, the frame's scroll is ignored and the
      rotation is kept. */
  lemma PanDragIgnoresScroll(k: Kernel, window: Window, input: FrameInput, rig: Rig)
    requires PanRequested(input)
    requires LengthSquared2(SumMotion(input.motion)) > 0.0
    ensures Fired(Reduce(input)) == Pan
    ensures StepRig(k, window, Reduce(input), rig).camera.radius == rig.camera.radius
    ensures StepRig(k, window, Reduce(input), rig).transform.rotation == rig.transform.rotation
  {
    var intent := Reduce(input);
    assert intent.rotationMove == Zero2 && intent.pan == SumMotion(input.motion);
    assert LengthSquared2(Zero2) == 0.0;
    assert Fired(intent) == Pan;
  }
}
