# easy-cam orbit camera, modelled in Dafny

This project models the decision logic of easy-cam's `CameraPlugin`, a
Bevy plugin that gives an editor-style orbit camera with a transform gizmo.
The plugin lives in `src/lib.rs`. The model covers these systems:

- **Input reduction** (`input.dfy`, module `Input`). One frame's mouse
  buttons, keys, motion events and wheel events become one `Intent`:
  - a middle drag without shift orbits;
  - a middle drag with either shift key pans;
  - the wheel zooms;
  - an edge of the orbit button is remembered.
- **Per-rig step** (`pan_orbit.dfy`, module `PanOrbit`). On an orbit-button
  edge the "upside down" flag is refreshed. Then at most one of orbit, pan or
  zoom fires, in that priority order. If one fired, the translation is
  re-derived from focus, rotation and radius. The system does nothing when
  there is no primary window. Otherwise it steps every camera.
  `PanOrbitCameraSystemAsWritten` does what the source does: one pan vector
  is shared by all cameras and is scaled in place by each perspective camera
  that pans, so the next camera receives the scaled value.
  `PanOrbitCameraSystem` is the intended version, in which every camera
  scales the same drag; the rest of the model uses it (see "## Findings").
- **Recenter** (`recenter.dfy`, module `Recenter`). Releasing the period key
  while something is selected moves the focus to the mean of the selected
  translations. The radius becomes the camera's distance to that point.
- **Gizmo alignment** (`gizmo_alignment.dfy`, module `GizmoAlignment`). The
  gizmo's alignment rotation follows the chosen orientation:
  - Global gives the identity;
  - Local gives the first selected entity's rotation;
  - Screen gives axes built from the single pick-source camera.
  - With nothing selected the alignment is kept in every orientation.
- **Settings panel** (`settings_panel.dfy`, module `SettingsPanel`). The
  handle choice is projected onto the gizmo's translate-arrow and scale
  flags. The rotate and planes checkboxes flip when clicked. The choices are
  written back to the plugin state.
- **Schedule** (`schedule.dfy`, module `Schedule`). The two chains the plugin
  registers are orbit-then-recenter and panel-then-gizmo. Each chain is
  modelled as one composed step. The plugin sets no order between the two
  chains. So in Screen orientation the gizmo may read the camera rotation
  from before or after this frame's orbit. For that reason the gizmo chain
  takes the pick-source cameras as an input.

Scalars are exact `real`s, and vectors and quaternions are plain records
(`geometry.dfy`). Sine, cosine, square root, the quaternion product, the
rotation of a vector, quaternion/matrix conversion, matrix-vector product
and the cross product come from a `Kernel` value. Every operation takes the
kernel as a parameter, and every property is proved for all kernels. Where
a property needs the kernel to behave like exact arithmetic somewhere, a
named predicate says so, for example `ExactAtZero` and `IdentityNeutral`.

The picking system's view of an entity, a placement plus a selected flag,
is one generic type (`selection.dfy`, module `Selection`). The recenter and
the gizmo share it.

Window sizes are positive reals (`Extent`). The window lookup is an
`Option`. The user's clicks in the panel are a `PanelFrame` input: either
the window is collapsed, or it reports what was picked and clicked.

## Model

| member | source | states |
|---|---|---|
| Input.Reduce | src/lib.rs:188-218 | Motion goes to the orbit only when the middle button is held without shift, and to the pan only when it is held with shift. It is discarded otherwise, so orbit and pan are never both non-zero. Scroll is the sum of the vertical wheel deltas. The edge flag is set iff the middle button was just pressed or just released. |
| Input.ReduceInput | src/lib.rs:194-218 | The source's event loops compute exactly the reduced intent. |
| Input.SumMotionAppend | src/lib.rs:202-204 | The accumulated motion is additive over any split of the event stream. |
| Input.ScrollIgnoresHorizontal | src/lib.rs:213-215 | The zoom amount depends only on the vertical wheel components. |
| Input.NoMotionRoutesNothing | src/lib.rs:199-212 | Without motion events neither orbit nor pan receives motion. |
| PanOrbit.Fired | src/lib.rs:228-267 | Exactly one branch is chosen. Orbit is chosen iff there is rotation motion. Pan is chosen iff there is pan motion and no rotation motion. Zoom is chosen iff there is scroll and neither motion. |
| PanOrbit.Zoomed | src/lib.rs:262-266 | The zoomed radius is never below 0.05. It is the shrunk radius or the floor, whichever is larger. |
| PanOrbit.Rederive | src/lib.rs:269-276 | The new translation is focus plus the rotated `(0, 0, radius)` offset. Rotation and scale are kept. |
| PanOrbit.StepRig | src/lib.rs:220-277 | The upside-down flag changes only on an orbit-button edge, and then comes from the pre-frame rotation. Each branch writes only its own field: orbit the rotation, pan the focus, zoom the radius. The translation is re-derived iff a branch fired, and is untouched otherwise. |
| PanOrbit.PanOrbitCameraSystem | src/lib.rs:169-278 | The intended system. Without a primary window no camera changes. Otherwise every camera takes one step with the same reduced intent, so each perspective camera scales the raw drag by its own field of view. |
| PanOrbit.StepAllAsWritten | src/lib.rs:194-277 | The camera loop as written: one output rig per camera, each camera stepped with the pan the previous one left behind. |
| PanOrbit.StepAllUnfold | src/lib.rs:220-277 | The first camera is stepped with the frame's intent; the rest see the pan it left behind. |
| PanOrbit.StepAllAdvance | src/lib.rs:220-277 | One iteration of the camera loop extends the already stepped prefix by one rig and hands on the pan that camera left behind. |
| PanOrbit.PanOrbitCameraSystemAsWritten | src/lib.rs:169-278 | The system as written. Without a primary window no camera changes. Otherwise the rigs are the loop over cameras that threads the shared, in-place scaled pan. |
| PanOrbit.StepCamerasAsWritten | src/lib.rs:220-277 | The loop over the cameras, carrying the mutable pan from one camera to the next, computes the as-written camera loop. |
| PanOrbit.AsWrittenAgreesWithoutPerspectivePan | src/lib.rs:246-255 | When the frame does not pan, or every camera is orthographic, the as-written loop steps every camera with the same intent, like the intended system. |
| PanOrbit.SingleCameraAsIntended | src/lib.rs:220-277 | With one camera the as-written loop and the intended system agree. |
| PanOrbit.PanCompoundsAcrossCameras | src/lib.rs:253-255 | Two perspective cameras (field of view 1, aspect ratio 1) in a 100 x 100 window, shift-dragged by (10, 0): the first pans with (0.1, 0), the second with (0.001, 0). |
| PanOrbit.FirstCameraLeavesScaledPan | src/lib.rs:246-255 | In that frame the first camera leaves the shared pan at (0.1, 0), which scales again to (0.001, 0). |
| PanOrbit.HundredPixelScale | src/lib.rs:253-255 | In a 100 x 100 window with field of view and aspect ratio 1, a horizontal drag is divided by 100. |
| PanOrbit.TwoCameras | src/lib.rs:220-277 | With two cameras the second is stepped with the pan the first left behind. |
| PanOrbit.IdenticalCamerasDiverge | src/lib.rs:253-261 | Two identical cameras at the identity rotation and radius 1, in that frame, move their foci by (-0.1, 0, 0) and (-0.001, 0, 0). |
| PanOrbit.PanOffsetAtIdentity | src/lib.rs:257-260 | At the identity rotation and radius 1, a pan moves the focus by the scaled drag with x mirrored. |
| PanOrbit.ZeroFovStopsLaterPans | src/lib.rs:246-255 | A panning perspective camera with field of view 0 zeroes the shared pan, so the next camera does not pan; `ZeroFovSilencesLaterCameras` extends this to every later camera. |
| PanOrbit.ZeroFovSilencesLaterCameras | src/lib.rs:220-277 | After a panning perspective camera with field of view 0, every later camera is stepped with a zero pan. |
| PanOrbit.SilencedCamera | src/lib.rs:220-277 | Any one camera after that camera is stepped with a zero pan. |
| PanOrbit.LaterCameras | src/lib.rs:220-277 | The cameras after the first are stepped as if the loop began at them with the pan the first left behind. |
| PanOrbit.SilencedCamerasZoom | src/lib.rs:246-267 | On a frame that pans and scrolls, a camera handed a zero pan takes the zoom branch instead. |
| PanOrbit.IdleFrameChangesNothing | src/lib.rs:228-276 | When no branch fires, focus, radius and the transform keep their values. Without an edge the whole rig is unchanged. |
| PanOrbit.StepKeepsRederived | src/lib.rs:269-276 | A rig whose translation agrees with focus, rotation and radius still agrees after any step. |
| PanOrbit.DefaultCameraAboveFloor | src/lib.rs:44-51 | The default camera's radius of 5 is above the 0.05 floor, so the floor holds after its first step. |
| PanOrbit.StepKeepsRadiusFloor | src/lib.rs:262-266 | A radius at or above 0.05 stays there through every step. |
| PanOrbit.ZoomDirection | src/lib.rs:264-266 | From a radius at or above 0.05, scrolling forwards never increases it. Scrolling backwards never decreases a non-negative radius. |
| PanOrbit.ForwardZoomFromBelowFloor | src/lib.rs:262-266 | From a non-negative radius below 0.05, which a recenter (src/lib.rs:93) or the code that spawns the camera can leave, a forward scroll raises the radius to 0.05. |
| PanOrbit.UpsideDown | src/lib.rs:224-225 | Has no ensures of its own; `IdentityIsUpright` and `StepRig`'s flag clause state its properties. |
| PanOrbit.OrbitRotation | src/lib.rs:232-244 | Has no ensures of its own; `UpsideDownMirrorsHorizontal`, `HorizontalOrbitIsTurntable` and `VerticalOrbitIsLocalPitch` state its properties. |
| PanOrbit.ScaledPan | src/lib.rs:253-255 | Has no ensures of its own; `OrthographicPanIgnoresWindow`, `HundredPixelScale` and `ZeroFovStopsLaterPans` state its properties. |
| PanOrbit.PanOffset | src/lib.rs:251-260 | Has no ensures of its own; `PanScalesWithRadius`, `OrthographicPanIgnoresWindow` and `PanOffsetAtIdentity` state its properties. |
| PanOrbit.PanLeftBehind | src/lib.rs:246-255 | Has no ensures of its own; `FirstCameraLeavesScaledPan`, `ZeroFovStopsLaterPans` and `AsWrittenAgreesWithoutPerspectivePan` state its properties. |
| PanOrbit.UpsideDownMirrorsHorizontal | src/lib.rs:232-239 | Orbiting upside down equals orbiting upright with the horizontal drag mirrored. |
| PanOrbit.HorizontalOrbitIsTurntable | src/lib.rs:240-244 | A purely horizontal drag is a yaw about the world y axis, composed on the left. |
| PanOrbit.VerticalOrbitIsLocalPitch | src/lib.rs:232-244 | A purely vertical drag is a pitch about the local x axis, composed on the right, whatever the upside-down flag. |
| PanOrbit.PanScalesWithRadius | src/lib.rs:259-260 | The pan displacement is proportional to the radius. |
| PanOrbit.OrthographicPanIgnoresWindow | src/lib.rs:253-255 | Only a perspective projection scales the pan by field of view per pixel. |
| PanOrbit.IdentityIsUpright | src/lib.rs:224-225 | A camera in the identity orientation is not upside down. |
| PanOrbit.OrbitDragIgnoresScroll | src/lib.rs:199-267 | During an orbit drag with motion, the frame's scroll changes neither radius nor focus. |
| PanOrbit.PanDragIgnoresScroll | src/lib.rs:205-267 | For the per-rig step and so the intended system: during a pan drag with motion, the frame's scroll does not change the radius, and the rotation is kept. As written, this fails for cameras after a zero field of view camera (`SilencedCamerasZoom`). |
| Recenter.SelectedCountPositive | src/lib.rs:78-89 | With anything selected the count is positive, so the division is defined. |
| Recenter.Centroid | src/lib.rs:81-90 | The centre times the count equals the sum of the selected translations. |
| Recenter.CenterSelection | src/lib.rs:73-96 | Without a selection, or without a period-key release, the camera is untouched. Otherwise the focus is the centroid of the selection, the radius is the distance to it, and the flag is kept. |
| Recenter.CentroidOfCoincident | src/lib.rs:81-90 | If every selected entity is at one point, the centre is that point. |
| Recenter.CoincidentTotal | src/lib.rs:81-87 | The sum of n selected translations at one point is that point scaled by n. |
| Recenter.CentroidOfPair | src/lib.rs:81-90 | Two selected entities give their midpoint. |
| Recenter.RecenterRadiusCanBreakFloor | src/lib.rs:91-93 | The recentered radius is not clamped: it can be 0, below the zoom floor. |
| GizmoAlignment.FirstSelected | src/lib.rs:297-303 | The first selected entity in query order, or none iff nothing is selected. |
| GizmoAlignment.UpdateGizmoSpace | src/lib.rs:290-337 | With nothing selected the alignment is kept in every orientation. Otherwise: Global gives the identity; Local gives the first selected entity's rotation; Screen with other than one pick-source camera keeps the alignment, and with one gives the camera-facing axes. |
| GizmoAlignment.WritesOrKeeps | src/lib.rs:305-329 | When nothing is written, the alignment is kept. When something is written, it does not depend on the previous alignment. |
| GizmoAlignment.UpdateIdempotent | src/lib.rs:305-329 | A second update in the same state changes nothing. |
| GizmoAlignment.LocalUsesOnlyFirst | src/lib.rs:306-309 | In Local orientation, entities after the first selected one do not affect the alignment. |
| GizmoAlignment.GlobalIgnoresTransforms | src/lib.rs:311-314 | In Global orientation only whether anything is selected matters. |
| GizmoAlignment.ScreenAlignment | src/lib.rs:321-326 | Has no ensures of its own; `ScreenFollowsCameraRotation` and the Screen clause of `UpdateGizmoSpace` state its properties. |
| GizmoAlignment.ScreenFollowsCameraRotation | src/lib.rs:316-329 | In Screen orientation the alignment depends on the camera's rotation only: not on the selection, the camera's translation or the previous alignment. |
| SettingsPanel.FlagsOf | src/lib.rs:147-160 | The arrows are on iff Transform is chosen, and the scale handles iff Scale is. They are never both on. |
| SettingsPanel.ModeOfFlags | src/lib.rs:147-160 | The handle set can be read back from its flags. |
| SettingsPanel.FlagsOfMode | src/lib.rs:147-160 | The flag pairs the projection produces are exactly those without both flags set. |
| SettingsPanel.UiSystem | src/lib.rs:129-167 | A collapsed panel changes nothing. An open one stores the picked orientation and handle set, sets the two flags from the handle set, and flips exactly the clicked checkboxes. |
| SettingsPanel.InitialPanelShowsArrows | src/lib.rs:66-69 | From the initial plugin state, the first open frame without picks shows the translate arrows and hides the scale handles. The stored state and the rotate and planes switches are kept. |
| SettingsPanel.UiSystemKeepsAgreement | src/lib.rs:147-165 | Flags that agree with the stored handle set keep agreeing. |
| SettingsPanel.QuietFrame | src/lib.rs:134-165 | An open panel with no clicks is a no-op once the flags agree, and is idempotent. |
| SettingsPanel.HandlesDoNotTouchRotateOrPlanes | src/lib.rs:147-162 | The handle choice never affects the rotate and planes switches. |
| Schedule.CameraChain | src/lib.rs:57-59 | The recenter runs after the orbit step and reads the translation the step wrote. It overrides focus and radius, and keeps the transform. |
| Schedule.GizmoChain | src/lib.rs:63-64 | The gizmo update reads the orientation the panel stored in the same frame. |
| Schedule.PickingGlobalTakesEffectAtOnce | src/lib.rs:140-165 | Picking Global with a selection resets the alignment to the identity in the same frame. |
| Schedule.CollapsedPanelKeepsOrientation | src/lib.rs:136-165 | With the panel collapsed, the alignment follows the stored orientation. |

## Left out

- Plugin registration (src/lib.rs:54-71) is not modelled as such. It is ECS glue. Only the order of the two chains it sets up is modelled (`Schedule`), together with the initial plugin state (`SettingsPanel.InitialCameraData`).
- `plugin_enabled` (src/lib.rs:99-120) is not modelled. It is egui pointer queries, and its `run_if` is commented out, so it never runs.
- egui rendering of the window, combo box, radio buttons and checkboxes is not modelled. The user's picks and clicks are the `PanelFrame` input.
- The primary-window query and its error log (src/lib.rs:178-186) become `Option<Window>`. `None` means the frame does nothing.
- Floating-point numerics are not modelled:
  - sine, cosine, square root, quaternion and matrix products and conversions are the `Kernel` parameter;
  - f32 rounding, NaN and infinity are left out, and scalars are exact reals.
- A zero-size window is left out. `Extent` requires positive sizes. Only the orbit (src/lib.rs:233, 240) and the perspective pan (src/lib.rs:254) divide by the window size, where f32 gives infinities or NaN. A zoom or an orthographic pan would work with a 0x0 window in the source. Those frames are excluded from the model as well.
- The panic of `single_mut` when there is not exactly one camera (src/lib.rs:92) is left out. The recenter takes exactly one camera.
- The commented-out `adjust` (src/lib.rs:280-288) is dead code and not modelled.
- Bevy keeps unread events for one more frame; the model does not. On a frame without a primary window (src/lib.rs:178-186) the system returns before reading either the motion or the wheel events, so both carry over to the next frame in the source. When neither orbit nor pan is requested (src/lib.rs:199-212), the motion events are not read and carry over likewise. In the model all of these events are dropped at the end of the frame.
- Recenter.CenterSelection: the radius is stated as the kernel's square root of the squared distance. Nothing is proved about it as a Euclidean distance, because the square root is abstract.
- The recenter does not re-derive the camera translation. The model keeps that behaviour, and does not prove where the camera jumps on the next frame in which a branch fires.

## Findings

| source | as written | input that shows it | evidently intended | confidence | as-written member | corrected member |
|---|---|---|---|---|---|---|
| src/lib.rs:254 | `pan` is declared once before the camera loop (src/lib.rs:194) and scaled in place (`pan *= …`) by every perspective camera that pans, so each later camera receives the already scaled vector. | Two perspective cameras with field of view 1 and aspect ratio 1, a 100 x 100 window, a shift-drag of (10, 0): the first camera pans by (0.1, 0) view units, the second by (0.001, 0). A camera with field of view 0 zeroes the pan for every camera after it; on a frame that also scrolls, those cameras fall through to the zoom branch (src/lib.rs:262), so the scroll is not ignored during the pan drag for them. | Each camera scales the frame's drag by its own field of view and the window size, independently of the other cameras, as the comment at src/lib.rs:249 says. | not executed; high | PanOrbit.PanOrbitCameraSystemAsWritten, PanOrbit.PanCompoundsAcrossCameras, PanOrbit.IdenticalCamerasDiverge, PanOrbit.ZeroFovSilencesLaterCameras, PanOrbit.SilencedCamerasZoom | PanOrbit.PanOrbitCameraSystem, which `Schedule.CameraChain` uses; PanOrbit.AsWrittenAgreesWithoutPerspectivePan shows the two agree whenever no perspective camera pans |
