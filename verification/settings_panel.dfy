/** The gizmo settings panel (src/lib.rs:122-167): an egui window in which
    the user picks the gizmo orientation and which handles to show. Each
    frame the handle choice is projected onto the gizmo's translate-arrow and
    scale flags, and both choices are written back to the plugin's state.
    Drawing the widgets is not modelled; what the user clicked this frame is
    an input. */
module SettingsPanel {
  import opened Options
  import GizmoAlignment

  /** Which handle set the gizmo shows besides rotation and planes. */
  datatype TransformOrScale = Transform | Scale | Neither

  /** The gizmo's switches for its handle sets. */
  datatype GizmoPartsEnabled = GizmoPartsEnabled(translateArrows: bool, translatePlanes: bool, rotate: bool, scale: bool)

  /** The plugin's own state: the chosen orientation and handle set. */
  datatype CameraData = CameraData(transformOrientation: GizmoAlignment.GizmoSpace, uiShowTransformOrScale: TransformOrScale)

  /** The state the plugin starts with (src/lib.rs:66-69). */
  const InitialCameraData: CameraData := CameraData(GizmoAlignment.Global, Transform)

  /** What the panel saw from the user this frame. A collapsed window runs
      none of its contents. An open one reports the orientation picked in the
      combo box and the handle set picked with the radio buttons, if any, and
      whether each checkbox was clicked. */
  datatype PanelFrame =
    | Collapsed
    | Shown(pickedOrientation: Option<GizmoAlignment.GizmoSpace>, pickedHandles: Option<TransformOrScale>,
            clickedRotate: bool, clickedPlanes: bool)

  /** Everything the panel reads and writes. */
  datatype PanelState = PanelState(data: CameraData, parts: GizmoPartsEnabled)

  /** The translate-arrow and scale flags a handle set selects. */
  datatype HandleFlags = HandleFlags(translateArrows: bool, scale: bool)

  /** The projection of a handle set onto the two flags it controls: the
      arrows exactly for Transform, the scale handles exactly for Scale, and
      never both. */
  function FlagsOf(mode: TransformOrScale): (f: HandleFlags)
    ensures f.translateArrows <==> mode == Transform
    ensures f.scale <==> mode == Scale
    ensures !(f.translateArrows && f.scale)
  {
    match mode
    case Transform => HandleFlags(true, false)
    case Scale => HandleFlags(false, true)
    case Neither => HandleFlags(false, false)
  }

  /** Reading a handle set back from the flags. */
  function ModeOf(f: HandleFlags): TransformOrScale {
    if f.translateArrows then Transform
    else if f.scale then Scale
    else Neither
  }

  /** The flags determine the handle set: the projection loses nothing. */
  lemma ModeOfFlags(mode: TransformOrScale)
    ensures ModeOf(FlagsOf(mode)) == mode
  {
  }

  /** Every flag pair the projection can produce is read back to itself:
      those are exactly the pairs without both flags set. */
  lemma FlagsOfMode(f: HandleFlags)
    ensures FlagsOf(ModeOf(f)) == f <==> !(f.translateArrows && f.scale)
  {
  }

  /** The gizmo's flags show the stored handle set. */
  predicate Agrees(s: PanelState) {
    HandleFlags(s.parts.translateArrows, s.parts.scale) == FlagsOf(s.data.uiShowTransformOrScale)
  }

  /** One frame of the panel. A collapsed window changes nothing. An open one
      stores what the user picked, sets the two handle flags from the stored
      handle set, and then flips each checkbox the user clicked. */
  function UiSystem(s: PanelState, frame: PanelFrame): (r: PanelState)
    ensures frame.Collapsed? ==> r == s
    ensures frame.Shown? ==> Agrees(r)
    ensures frame.Shown? ==> r.data.transformOrientation == frame.pickedOrientation.GetOr(s.data.transformOrientation)
    ensures frame.Shown? ==> r.data.uiShowTransformOrScale == frame.pickedHandles.GetOr(s.data.uiShowTransformOrScale)
    ensures frame.Shown? ==> (r.parts.rotate <==> (s.parts.rotate != frame.clickedRotate))
    ensures frame.Shown? ==> (r.parts.translatePlanes <==> (s.parts.translatePlanes != frame.clickedPlanes))
  {
    match frame
    case Collapsed => s
    case Shown(pickedOrientation, pickedHandles, clickedRotate, clickedPlanes) =>
      var showing := pickedHandles.GetOr(s.data.uiShowTransformOrScale);
      var flags := FlagsOf(showing);
      var parts := s.parts.(translateArrows := flags.translateArrows, scale := flags.scale);
      var parts' := parts.(rotate := if clickedRotate then !parts.rotate else parts.rotate,
                           translatePlanes := if clickedPlanes then !parts.translatePlanes else parts.translatePlanes);
      PanelState(CameraData(pickedOrientation.GetOr(s.data.transformOrientation), showing), parts')
  }

  /** From the plugin's initial state, the first open frame in which nothing
      is picked shows the translate arrows and hides the scale handles,
      whatever the gizmo's switches were before. */
  lemma InitialPanelShowsArrows(parts: GizmoPartsEnabled)
    ensures var r := UiSystem(PanelState(InitialCameraData, parts), Shown(None, None, false, false));
            && r.data == InitialCameraData
            && r.parts.translateArrows && !r.parts.scale
            && r.parts.rotate == parts.rotate && r.parts.translatePlanes == parts.translatePlanes
  {
  }

  /** Once the flags show the stored handle set they keep doing so, whatever
      the user does. */
  lemma UiSystemKeepsAgreement(s: PanelState, frame: PanelFrame)
    requires Agrees(s)
    ensures Agrees(UiSystem(s, frame))
  {
  }

  /** A frame in which the user clicks nothing is a no-op once the flags
      agree, and makes them agree otherwise; a second such frame changes
      nothing more. */
  lemma QuietFrame(s: PanelState)
    ensures var quiet := Shown(None, None, false, false);
            && (Agrees(s) ==> UiSystem(s, quiet) == s)
            && UiSystem(UiSystem(s, quiet), quiet) == UiSystem(s, quiet)
  {
  }

  /** The rotate and plane switches never depend on the handle set, stored
      or picked. */
  lemma HandlesDoNotTouchRotateOrPlanes(s: PanelState, orientation: Option<GizmoAlignment.GizmoSpace>,
                                        h1: Option<TransformOrScale>, h2: Option<TransformOrScale>,
                                        clickedRotate: bool, clickedPlanes: bool)
    ensures UiSystem(s, Shown(orientation, h1, clickedRotate, clickedPlanes)).parts.rotate
         == UiSystem(s, Shown(orientation, h2, clickedRotate, clickedPlanes)).parts.rotate
    ensures UiSystem(s, Shown(orientation, h1, clickedRotate, clickedPlanes)).parts.translatePlanes
         == UiSystem(s, Shown(orientation, h2, clickedRotate, clickedPlanes)).parts.translatePlanes
  {
  }
}
