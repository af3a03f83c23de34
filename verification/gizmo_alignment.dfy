/** Aligning the transform gizmo (src/lib.rs:290-337): each frame the
    gizmo's alignment rotation follows the orientation chosen in the settings
    panel — the world axes, the first selected entity's own axes, or axes
    facing the pick-source camera. With nothing selected the previous
    alignment is kept, whatever the orientation. */
module GizmoAlignment {
  import opened Geometry
  import opened Options
  import opened Selection

  /** The orientation the gizmo's handles are drawn in. */
  datatype GizmoSpace = Global | Local | Screen

  /** The position of the first selected entity, in query order. */
  function FirstSelected(selection: seq<Selectable<GlobalTransform>>): (r: Option<nat>)
    ensures r.None? <==> !AnySelected(selection)
    ensures r.Some? ==> r.value < |selection| && selection[r.value].selected
    ensures r.Some? ==> forall j :: 0 <= j < r.value ==> !selection[j].selected
  {
    if |selection| == 0 then None
    else if selection[0].selected then Some(0)
    else
      match FirstSelected(selection[1..])
      case None =>
        assert forall i | 0 < i < |selection| :: selection[i] == selection[1..][i - 1];
        None
      case Some(i) =>
        assert forall j :: 0 < j < i + 1 ==> selection[j] == selection[1..][j - 1];
        Some(i + 1)
  }

  /** The gizmo alignment in Screen mode: the camera's local z axis as the
      second column, its local y axis as the third, their cross product as
      the first, read back as a rotation. */
  function ScreenAlignment(k: Kernel, camera: Transform): Quat {
    var direction := k.rotate(camera.rotation, UnitZ);
    var up := k.rotate(camera.rotation, UnitY);
    k.quatFromMat3(Mat3(k.cross(direction, up), direction, up))
  }

  /** The alignment after one frame, from the chosen orientation, the
      selectable entities, the cameras tagged as pick sources, and the
      alignment before the frame. */
  function UpdateGizmoSpace(k: Kernel, space: GizmoSpace, selection: seq<Selectable<GlobalTransform>>,
                            pickSources: seq<Transform>, alignment: Quat): (r: Quat)
    // nothing selected: sticky in every orientation
    ensures !AnySelected(selection) ==> r == alignment
    ensures space == Global && AnySelected(selection) ==> r == Identity
    // Local: the rotation of the first selected entity and of no other
    ensures space == Local ==>
      forall i :: 0 <= i < |selection| && selection[i].selected && (forall j :: 0 <= j < i ==> !selection[j].selected)
        ==> r == k.quatFromMat3(selection[i].transform.matrix3)
    // Screen: needs exactly one pick-source camera, else the frame is skipped
    ensures space == Screen && |pickSources| != 1 ==> r == alignment
    ensures space == Screen && |pickSources| == 1 && AnySelected(selection) ==> r == ScreenAlignment(k, pickSources[0])
  {
    var first := FirstSelected(selection);
    match space
    case Local =>
      (match first
       case Some(i) => k.quatFromMat3(selection[i].transform.matrix3)
       case None => alignment)
    case Global =>
      if first.Some? then Identity else alignment
    case Screen =>
      if |pickSources| != 1 then alignment
      else if first.Some? then ScreenAlignment(k, pickSources[0])
      else alignment
  }

  /** Whenever the frame writes the alignment, what it writes does not depend
      on the alignment before. */
  predicate Writes(space: GizmoSpace, selection: seq<Selectable<GlobalTransform>>, pickSources: seq<Transform>) {
    AnySelected(selection) && (space != Screen || |pickSources| == 1)
  }

  /** A frame that writes nothing keeps the previous alignment; one that
      writes makes the previous alignment irrelevant (it may still write the
      value already there). */
  lemma WritesOrKeeps(k: Kernel, space: GizmoSpace, selection: seq<Selectable<GlobalTransform>>,
                      pickSources: seq<Transform>, a1: Quat, a2: Quat)
    ensures !Writes(space, selection, pickSources) ==> UpdateGizmoSpace(k, space, selection, pickSources, a1) == a1
    ensures Writes(space, selection, pickSources) ==>
      UpdateGizmoSpace(k, space, selection, pickSources, a1) == UpdateGizmoSpace(k, space, selection, pickSources, a2)
  {
  }

  /** Running the update a second time in the same state changes nothing. */
  lemma UpdateIdempotent(k: Kernel, space: GizmoSpace, selection: seq<Selectable<GlobalTransform>>,
                         pickSources: seq<Transform>, alignment: Quat)
    ensures var once := UpdateGizmoSpace(k, space, selection, pickSources, alignment);
            UpdateGizmoSpace(k, space, selection, pickSources, once) == once
  {
    WritesOrKeeps(k, space, selection, pickSources, alignment, UpdateGizmoSpace(k, space, selection, pickSources, alignment));
  }

  /** In Local orientation only the first selected entity counts: the
      entities after it, selected or not, do not affect the alignment. */
  lemma LocalUsesOnlyFirst(k: Kernel, s1: seq<Selectable<GlobalTransform>>, s2: seq<Selectable<GlobalTransform>>, i: nat,
                           pickSources: seq<Transform>, alignment: Quat)
    requires FirstSelected(s1) == Some(i)
    requires i < |s2| && forall j :: 0 <= j <= i ==> s2[j] == s1[j]
    ensures UpdateGizmoSpace(k, Local, s1, pickSources, alignment)
         == UpdateGizmoSpace(k, Local, s2, pickSources, alignment)
         == k.quatFromMat3(s1[i].transform.matrix3)
  {
  }

  /** In Global orientation the entities' placements do not matter, only
      whether any of them is selected. */
  lemma GlobalIgnoresTransforms(k: Kernel, s1: seq<Selectable<GlobalTransform>>, s2: seq<Selectable<GlobalTransform>>,
                                pickSources: seq<Transform>, alignment: Quat)
    requires AnySelected(s1) == AnySelected(s2)
    ensures UpdateGizmoSpace(k, Global, s1, pickSources, alignment)
         == UpdateGizmoSpace(k, Global, s2, pickSources, alignment)
  {
  }

  /** In Screen orientation the alignment follows the camera's rotation
      only: neither which entity is selected nor the camera's translation or
      scale changes it. */
  lemma ScreenFollowsCameraRotation(k: Kernel, s1: seq<Selectable<GlobalTransform>>, s2: seq<Selectable<GlobalTransform>>,
                                    c1: Transform, c2: Transform, a1: Quat, a2: Quat)
    requires AnySelected(s1) && AnySelected(s2)
    requires c1.rotation == c2.rotation
    ensures UpdateGizmoSpace(k, Screen, s1, [c1], a1) == UpdateGizmoSpace(k, Screen, s2, [c2], a2)
  {
  }
}
