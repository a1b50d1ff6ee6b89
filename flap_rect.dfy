/**
 * The same rectangle kernel as src/rect.c, as the top-level rect.c has it
 * under `flapRect*` names.  Its getters, setters, collision test and index
 * table have the same bodies as src/rect.c's, so module Rect models both
 * (the contracts of Rect.SetX … Rect.SetSize, Rect.IntersectSymmetric,
 * Rect.TouchingDoNotIntersect and Rect.IndicesInsideVertices hold of
 * rect.c as they stand).  What rect.c has of its own is its static store.
 */
module FlapRect {
  import opened Rect

  /** rect.c's own static `vertices`/`count`; flapRectNew is Rect.RectStore.New on it. */
  method NewStore() returns (store: RectStore)
    ensures fresh(store) && fresh(store.vertices)
    ensures store.vertices.Length == Capacity && store.count == 0
  {
    store := new RectStore();
  }
}
