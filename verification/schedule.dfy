/** The order in which the plugin runs its systems in one frame
    (src/lib.rs:57-65): the orbit update and then the recenter, chained, on
    the one controllable camera; the settings panel and then the gizmo
    alignment, chained. Each chained system sees what the one before it
    wrote in the same frame. The two chains are not ordered relative to each
    other, so the camera rotation the gizmo's Screen orientation reads may be
    from before or after this frame's orbit; `GizmoChain` therefore takes the
    pick-source cameras as an input. */
module Schedule {
  import opened Geometry
  import opened Options
  import opened Input
  import opened PanOrbit
  import opened Recenter
  import opened Selection
  import opened GizmoAlignment
  import opened SettingsPanel

  /** The camera chain for the single camera: the orbit step, then the
      recenter, which reads the translation the step just wrote. */
  method CameraChain(k: Kernel, window: Option<Window>, input: FrameInput, rig: Rig, selection: seq<Selectable<Transform>>)
    returns (r: Rig)
    ensures var stepped := if window.None? then rig else StepRig(k, window.value, Reduce(input), rig);
            && r.transform == stepped.transform
            && r.projection == stepped.projection
            && (!AnySelected(selection) || RecenterKey !in input.keys.justReleased ==> r == stepped)
            && (AnySelected(selection) && RecenterKey in input.keys.justReleased ==>
                  && r.camera.focus == Centroid(selection)
                  && r.camera.radius == Length(k, Sub(stepped.transform.translation, Centroid(selection)))
                  && r.camera.upsideDown == stepped.camera.upsideDown)
  {
    var rigs := PanOrbitCameraSystem(k, window, input, [rig]);
    var stepped := rigs[0];
    var camera := CenterSelection(k, selection, stepped.camera, stepped.transform, input.keys);
    r := stepped.(camera := camera);
  }

  /** The gizmo chain: the panel, then the alignment update, which reads the
      orientation the panel just stored. */
  function GizmoChain(k: Kernel, s: PanelState, frame: PanelFrame, selection: seq<Selectable<GlobalTransform>>,
                      pickSources: seq<Transform>, alignment: Quat): (r: (PanelState, Quat))
    ensures r.0 == UiSystem(s, frame)
    ensures r.1 == UpdateGizmoSpace(k, r.0.data.transformOrientation, selection, pickSources, alignment)
  {
    var panel := UiSystem(s, frame);
    (panel, UpdateGizmoSpace(k, panel.data.transformOrientation, selection, pickSources, alignment))
  }

  /** Picking Global in the panel while something is selected resets the
      alignment in the same frame, whatever orientation was stored before. */
  lemma PickingGlobalTakesEffectAtOnce(k: Kernel, s: PanelState, selection: seq<Selectable<GlobalTransform>>,
                                       pickSources: seq<Transform>, alignment: Quat,
                                       handles: Option<TransformOrScale>, clickedRotate: bool, clickedPlanes: bool)
    requires AnySelected(selection)
    ensures GizmoChain(k, s, Shown(Some(Global), handles, clickedRotate, clickedPlanes), selection, pickSources, alignment).1 == Identity
  {
  }

  /** With the panel collapsed, the alignment follows the stored
      orientation. */
  lemma CollapsedPanelKeepsOrientation(k: Kernel, s: PanelState, selection: seq<Selectable<GlobalTransform>>,
                                       pickSources: seq<Transform>, alignment: Quat)
    ensures GizmoChain(k, s, Collapsed, selection, pickSources, alignment)
         == (s, UpdateGizmoSpace(k, s.data.transformOrientation, selection, pickSources, alignment))
  {
  }
}
