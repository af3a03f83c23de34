/** The picking system's view of an entity, shared by the recenter and the
    gizmo alignment: a placement (local or world, depending on which query
    reads it) and whether the entity is currently selected. */
module Selection {

  datatype Selectable<T> = Selectable(transform: T, selected: bool)

  /** Some entity is selected. */
  predicate AnySelected<T>(selection: seq<Selectable<T>>) {
    exists i | 0 <= i < |selection| :: selection[i].selected
  }
}
