/** Recentering the orbit on the selection (src/lib.rs:73-96): when the
    period key is released while something is selected, the camera's focus
    moves to the mean of the selected entities' translations and its radius
    becomes the camera's distance to that point. */
module Recenter {
  import opened Geometry
  import opened Input
  import opened PanOrbit
  import opened Selection

  const RecenterKey: KeyCode := Period

  /** The sum of the selected translations, in iteration order. */
  function SelectedTotal(selection: seq<Selectable<Transform>>): Vec3 {
    if |selection| == 0 then Zero3
    else
      var last := selection[|selection| - 1];
      var total := SelectedTotal(selection[..|selection| - 1]);
      if last.selected then Add(total, last.transform.translation) else total
  }

  /** The number of selected entities. */
  function SelectedCount(selection: seq<Selectable<Transform>>): nat {
    if |selection| == 0 then 0
    else
      var last := selection[|selection| - 1];
      var count := SelectedCount(selection[..|selection| - 1]);
      if last.selected then count + 1 else count
  }

  /** Something selected means a positive count, so the mean is defined. */
  lemma {:induction false} SelectedCountPositive(selection: seq<Selectable<Transform>>)
    requires AnySelected(selection)
    ensures SelectedCount(selection) > 0
  {
    var init := selection[..|selection| - 1];
    if !selection[|selection| - 1].selected {
      var i :| 0 <= i < |selection| && selection[i].selected;
      assert init[i] == selection[i];
      SelectedCountPositive(init);
    }
  }

  /** The arithmetic mean of the selected translations. */
  function Centroid(selection: seq<Selectable<Transform>>): (c: Vec3)
    requires AnySelected(selection)
    ensures Scale(c, SelectedCount(selection) as real) == SelectedTotal(selection)
  {
    SelectedCountPositive(selection);
    var n := SelectedCount(selection) as real;
    var total := SelectedTotal(selection);
    Vec3(total.x / n, total.y / n, total.z / n)
  }

  /** The recenter step. Without a selection, or on a frame where the period
      key was not just released, the camera is untouched. Otherwise the focus
      becomes the centroid of the selection and the radius the camera's
      distance to it; the camera transform itself is not moved. */
  method CenterSelection(k: Kernel, selection: seq<Selectable<Transform>>, camera: PanOrbitCamera,
                         cameraTransform: Transform, keys: ButtonInput<KeyCode>)
    returns (c: PanOrbitCamera)
    ensures !AnySelected(selection) || RecenterKey !in keys.justReleased ==> c == camera
    ensures AnySelected(selection) && RecenterKey in keys.justReleased ==>
      && c.focus == Centroid(selection)
      && c.radius == Length(k, Sub(cameraTransform.translation, Centroid(selection)))
      && c.upsideDown == camera.upsideDown
  {
    if !AnySelected(selection) {
      return camera;
    }
    c := camera;
    if RecenterKey in keys.justReleased {
      var total := Zero3;
      var pointCount: nat := 0;
      var i := 0;
      while i < |selection|
        invariant 0 <= i <= |selection|
        invariant total == SelectedTotal(selection[..i])
        invariant pointCount == SelectedCount(selection[..i])
      {
        assert selection[..i + 1][..i] == selection[..i];
        if selection[i].selected {
          total := Add(total, selection[i].transform.translation);
          pointCount := pointCount + 1;
        }
        i := i + 1;
      }
      assert selection[..i] == selection;
      SelectedCountPositive(selection);
      var n := pointCount as real;
      var center := Vec3(total.x / n, total.y / n, total.z / n);
      c := c.(radius := Length(k, Sub(cameraTransform.translation, center)));
      c := c.(focus := center);
    }
  }

  /** When every selected entity sits at the same point, that point is the
      centroid. */
  lemma CentroidOfCoincident(selection: seq<Selectable<Transform>>, p: Vec3)
    requires AnySelected(selection)
    requires forall i :: 0 <= i < |selection| && selection[i].selected ==> selection[i].transform.translation == p
    ensures Centroid(selection) == p
  {
    CoincidentTotal(selection, p);
    SelectedCountPositive(selection);
    ScaleCancel(Centroid(selection), p, SelectedCount(selection) as real);
  }

  lemma {:induction false} CoincidentTotal(selection: seq<Selectable<Transform>>, p: Vec3)
    requires forall i :: 0 <= i < |selection| && selection[i].selected ==> selection[i].transform.translation == p
    ensures SelectedTotal(selection) == Scale(p, SelectedCount(selection) as real)
  {
    if |selection| > 0 {
      var init := selection[..|selection| - 1];
      assert forall i :: 0 <= i < |init| ==> init[i] == selection[i];
      CoincidentTotal(init, p);
      if selection[|selection| - 1].selected {
        ScaleSucc(p, SelectedCount(init) as real);
      }
    }
  }

  /** Two selected entities: the focus moves to their midpoint. */
  lemma CentroidOfPair(selection: seq<Selectable<Transform>>, a: Selectable<Transform>, b: Selectable<Transform>)
    requires selection == [a, b] && a.selected && b.selected
    ensures AnySelected(selection)
    ensures Centroid(selection) == Scale(Add(a.transform.translation, b.transform.translation), 0.5)
  {
    assert selection[0].selected;
    var p, q := a.transform.translation, b.transform.translation;
    var first := [a];
    assert selection[..1] == first && first[..0] == [];
    assert SelectedCount(first) == 1 && SelectedTotal(first) == Add(Zero3, p) == p;
    assert SelectedCount(selection) == 2;
    assert SelectedTotal(selection) == Add(p, q);
    var mid := Scale(Add(p, q), 0.5);
    assert Scale(mid, 2.0) == Add(p, q);
    ScaleCancel(Centroid(selection), mid, 2.0);
  }

  /** The recentered radius is not clamped: with the camera standing on the
      selected entity, it becomes zero, below the floor a zoom keeps. */
  lemma RecenterRadiusCanBreakFloor(k: Kernel, p: Vec3, t: Transform)
    requires k.sqrt(0.0) == 0.0
    requires t.translation == p
    ensures AnySelected([Selectable(t, true)])
    ensures Length(k, Sub(p, Centroid([Selectable(t, true)]))) == 0.0 < MinRadius
  {
    var selection := [Selectable(t, true)];
    assert selection[0].selected;
    assert selection[..0] == [];
    CentroidOfCoincident(selection, p);
    assert Sub(p, p) == Zero3;
  }
}
