/**
 * The untextured rectangle kernel of src/rect.c: a static array of
 * 1 + FLAP_NUM_PIPES * 2 rectangles handed out by a bump allocator, the
 * getters and setters that rewrite vertex positions in place, the collision
 * test and the constant index table.
 *
 * A rectangle's vertices are laid out
 *     v0 top-left, v1 top-right, v2 bottom-left, v3 bottom-right,
 * which is the layout the setters below maintain.  The `Rect` type with a
 * `vertices` member used here is not part of this model; only the x/y
 * fields the file touches are modelled.
 */
module Rect {
  import Sprite

  /** Length of the static `vertices` array. */
  const Capacity: nat := 1 + Sprite.FlapNumPipes * 2

  datatype Point = Point(x: real, y: real)

  datatype Quad = Quad(v0: Point, v1: Point, v2: Point, v3: Point)

  const Blank: Quad := Quad(Point(0.0, 0.0), Point(0.0, 0.0), Point(0.0, 0.0), Point(0.0, 0.0))

  function GetX(r: Quad): real { r.v0.x }

  function GetY(r: Quad): real { r.v0.y }

  function GetWidth(r: Quad): real { r.v1.x - r.v0.x }

  function GetHeight(r: Quad): real { r.v2.y - r.v0.y }

  predicate SameY(r: Quad, s: Quad) {
    s.v0.y == r.v0.y && s.v1.y == r.v1.y && s.v2.y == r.v2.y && s.v3.y == r.v3.y
  }

  predicate SameX(r: Quad, s: Quad) {
    s.v0.x == r.v0.x && s.v1.x == r.v1.x && s.v2.x == r.v2.x && s.v3.x == r.v3.x
  }

  /** The four x coordinates of s are those of r moved by dx. */
  predicate ShiftedX(r: Quad, s: Quad, dx: real) {
    s.v0.x == r.v0.x + dx && s.v1.x == r.v1.x + dx && s.v2.x == r.v2.x + dx && s.v3.x == r.v3.x + dx
  }

  predicate ShiftedY(r: Quad, s: Quad, dy: real) {
    s.v0.y == r.v0.y + dy && s.v1.y == r.v1.y + dy && s.v2.y == r.v2.y + dy && s.v3.y == r.v3.y + dy
  }

  /** rect_intersect: the half-open boxes [x, x + w) x [y, y + h) overlap. */
  predicate Intersect(a: Quad, b: Quad) {
    GetX(a) < GetX(b) + GetWidth(b) && GetX(b) < GetX(a) + GetWidth(a) &&
    GetY(a) < GetY(b) + GetHeight(b) && GetY(b) < GetY(a) + GetHeight(a)
  }

  /** rect_set_x: translates all four vertices horizontally by x - v0.x. */
  function SetX(r: Quad, x: real): (s: Quad)
    ensures GetX(s) == x && ShiftedX(r, s, x - GetX(r)) && SameY(r, s)
    ensures GetWidth(s) == GetWidth(r) && GetHeight(s) == GetHeight(r)
  {
    var dx := x - r.v0.x;
    Quad(r.v0.(x := r.v0.x + dx), r.v1.(x := r.v1.x + dx), r.v2.(x := r.v2.x + dx), r.v3.(x := r.v3.x + dx))
  }

  /** rect_set_y: translates all four vertices vertically by y - v0.y. */
  function SetY(r: Quad, y: real): (s: Quad)
    ensures GetY(s) == y && ShiftedY(r, s, y - GetY(r)) && SameX(r, s)
    ensures GetWidth(s) == GetWidth(r) && GetHeight(s) == GetHeight(r)
  {
    var dy := y - r.v0.y;
    Quad(r.v0.(y := r.v0.y + dy), r.v1.(y := r.v1.y + dy), r.v2.(y := r.v2.y + dy), r.v3.(y := r.v3.y + dy))
  }

  /** rect_set_position: set_x, then set_y. */
  function SetPosition(r: Quad, x: real, y: real): (s: Quad)
    ensures GetX(s) == x && GetY(s) == y
    ensures ShiftedX(r, s, x - GetX(r)) && ShiftedY(r, s, y - GetY(r))
    ensures GetWidth(s) == GetWidth(r) && GetHeight(s) == GetHeight(r)
  {
    SetY(SetX(r, x), y)
  }

  /** rect_move: set_x to x + dx, then set_y to the (unchanged) y + dy. */
  function Move(r: Quad, dx: real, dy: real): (s: Quad)
    ensures ShiftedX(r, s, dx) && ShiftedY(r, s, dy)
    ensures GetWidth(s) == GetWidth(r) && GetHeight(s) == GetHeight(r)
  {
    var moved := SetX(r, GetX(r) + dx);
    SetY(moved, GetY(moved) + dy)
  }

  /** rect_set_width: the right-hand vertices v1 and v3 go to x + width. */
  function SetWidth(r: Quad, width: real): (s: Quad)
    ensures GetWidth(s) == width && s.v3.x == GetX(r) + width
    ensures s.v0 == r.v0 && s.v2 == r.v2 && s.v1.y == r.v1.y && s.v3.y == r.v3.y
    ensures GetX(s) == GetX(r) && GetY(s) == GetY(r) && GetHeight(s) == GetHeight(r)
  {
    var right := GetX(r) + width;
    r.(v1 := r.v1.(x := right), v3 := r.v3.(x := right))
  }

  /** rect_set_height: the bottom vertices v2 and v3 go to y + height. */
  function SetHeight(r: Quad, height: real): (s: Quad)
    ensures GetHeight(s) == height && s.v3.y == GetY(r) + height
    ensures s.v0 == r.v0 && s.v1 == r.v1 && s.v2.x == r.v2.x && s.v3.x == r.v3.x
    ensures GetX(s) == GetX(r) && GetY(s) == GetY(r) && GetWidth(s) == GetWidth(r)
  {
    var bottom := GetY(r) + height;
    r.(v2 := r.v2.(y := bottom), v3 := r.v3.(y := bottom))
  }

  /** rect_set_size: set_width, then set_height. */
  function SetSize(r: Quad, width: real, height: real): (s: Quad)
    ensures GetWidth(s) == width && GetHeight(s) == height
    ensures GetX(s) == GetX(r) && GetY(s) == GetY(r)
  {
    SetHeight(SetWidth(r, width), height)
  }

  lemma IntersectSymmetric(a: Quad, b: Quad)
    ensures Intersect(a, b) <==> Intersect(b, a)
  {
  }

  /** Rectangles that only share an edge do not collide. */
  lemma TouchingDoNotIntersect(a: Quad, b: Quad)
    requires GetX(a) + GetWidth(a) == GetX(b) || GetY(a) + GetHeight(a) == GetY(b)
    ensures !Intersect(a, b) && !Intersect(b, a)
  {
  }

  /** rect_move(dx, dy) is rect_set_position(x + dx, y + dy). */
  lemma MoveIsSetPosition(r: Quad, dx: real, dy: real)
    ensures Move(r, dx, dy) == SetPosition(r, GetX(r) + dx, GetY(r) + dy)
  {
  }

  /** set_width and set_height write disjoint fields, so their order does not matter. */
  lemma SetSizeOrderIrrelevant(r: Quad, width: real, height: real)
    ensures SetSize(r, width, height) == SetWidth(SetHeight(r, height), width)
  {
  }

  /** Moving both rectangles by the same offset does not change whether they collide. */
  lemma IntersectTranslationInvariant(a: Quad, b: Quad, dx: real, dy: real)
    ensures Intersect(Move(a, dx, dy), Move(b, dx, dy)) <==> Intersect(a, b)
  {
  }

  /**
   * `indices` as written.  Groups 0..6 are (4k, 4k+1, 4k+2, 4k+2, 4k+1, 4k+3);
   * the last two groups are not (see IndicesAsWrittenDeviate).
   */
  const Indices: seq<nat> :=
      [0,  1,  2,  2,  1,  3] + [4,  5,  6,  6,  5,  7] + [8,  9,  10, 10, 9,  11]
    + [12, 13, 14, 14, 13, 15] + [16, 17, 18, 18, 17, 19] + [20, 21, 22, 22, 21, 23]
    + [24, 25, 26, 26, 25, 27] + [28, 29, 27, 27, 29, 31] + [32, 33, 34, 34, 33, 34]

  /** Indices of rectangle k drawn as triangles (v0, v1, v2) and (v2, v1, v3). */
  predicate GroupIsQuad(t: seq<nat>, k: nat)
    requires 6 * k + 6 <= |t|
  {
    t[6 * k] == 4 * k && t[6 * k + 1] == 4 * k + 1 && t[6 * k + 2] == 4 * k + 2 &&
    t[6 * k + 3] == 4 * k + 2 && t[6 * k + 4] == 4 * k + 1 && t[6 * k + 5] == 4 * k + 3
  }

  /** Every entry names a vertex of the 9 * 4 in `vertices`. */
  lemma IndicesInsideVertices()
    ensures |Indices| == 6 * Capacity
    ensures forall j :: 0 <= j < |Indices| ==> Indices[j] < 4 * Capacity
  {
  }

  /** Groups 0..6 of `indices` are quads. */
  lemma IndicesFirstSevenGroups()
    ensures |Indices| == 6 * Capacity
    ensures forall k :: 0 <= k < 7 ==> GroupIsQuad(Indices, k)
  {
    IndicesGroupsBelowFour();
    IndicesGroupsFourToSeven();
  }

  lemma IndicesGroupsBelowFour()
    ensures |Indices| == 6 * Capacity
    ensures forall k :: 0 <= k < 4 ==> GroupIsQuad(Indices, k)
  {
  }

  lemma IndicesGroupsFourToSeven()
    ensures |Indices| == 6 * Capacity
    ensures forall k :: 4 <= k < 7 ==> GroupIsQuad(Indices, k)
  {
  }

  /**
   * Group 7 reuses vertex 27 and never names vertex 30; group 8 repeats
   * vertex 34 and never names vertex 35.  So rectangles 7 and 8 are not
   * drawn as their own two triangles.
   */
  lemma IndicesAsWrittenDeviate()
    ensures |Indices| == 6 * Capacity
    ensures !GroupIsQuad(Indices, 7) && !GroupIsQuad(Indices, 8)
    ensures 30 !in Indices && 35 !in Indices
  {
  }

  /** The table every rectangle's vertices call for: group k is (4k, 4k+1, 4k+2, 4k+2, 4k+1, 4k+3). */
  function IntendedIndices(n: nat): (t: seq<nat>)
    ensures |t| == 6 * n
  {
    if n == 0 then []
    else IntendedIndices(n - 1) + [4 * (n - 1), 4 * (n - 1) + 1, 4 * (n - 1) + 2,
                                   4 * (n - 1) + 2, 4 * (n - 1) + 1, 4 * (n - 1) + 3]
  }

  lemma {:induction false} IntendedIndicesAreQuads(n: nat, k: nat)
    requires k < n
    ensures GroupIsQuad(IntendedIndices(n), k)
  {
    var t := IntendedIndices(n - 1);
    assert IntendedIndices(n)[..6 * (n - 1)] == t;
    if k < n - 1 {
      IntendedIndicesAreQuads(n - 1, k);
      assert forall j :: 0 <= j < |t| ==> IntendedIndices(n)[j] == t[j];
    }
  }

  /** The intended table draws every rectangle and stays inside `vertices`. */
  lemma IntendedIndicesInsideVertices(j: nat)
    requires j < 6 * Capacity
    ensures IntendedIndices(Capacity)[j] < 4 * Capacity
    ensures GroupIsQuad(IntendedIndices(Capacity), j / 6)
  {
    IntendedIndicesAreQuads(Capacity, j / 6);
  }

  /** The static `vertices` array and its `count` of handed-out rectangles. */
  class RectStore {
    const vertices: array<Quad>
    var count: nat

    constructor ()
      ensures fresh(vertices) && vertices.Length == Capacity && count == 0
      ensures forall i :: 0 <= i < Capacity ==> vertices[i] == Blank
    {
      vertices := new Quad[Capacity](_ => Blank);
      count := 0;
    }

    /**
     * rect_new: returns slot `count` and bumps it, writing nothing.  There
     * is no check against the array length; the precondition excludes the
     * call that would hand out a slot past the end.
     */
    method New() returns (slot: nat)
      requires count < vertices.Length
      modifies this`count
      ensures slot == old(count) && count == old(count) + 1
    {
      slot := count;
      count := count + 1;
    }
  }

  // In-place forms: a `Rect *` is element i of the store's array.

  method SetXAt(rects: array<Quad>, i: nat, x: real)
    requires i < rects.Length
    modifies rects
    ensures rects[..] == old(rects[..])[i := SetX(old(rects[i]), x)]
  {
    rects[i] := SetX(rects[i], x);
  }

  method SetYAt(rects: array<Quad>, i: nat, y: real)
    requires i < rects.Length
    modifies rects
    ensures rects[..] == old(rects[..])[i := SetY(old(rects[i]), y)]
  {
    rects[i] := SetY(rects[i], y);
  }

  method SetPositionAt(rects: array<Quad>, i: nat, x: real, y: real)
    requires i < rects.Length
    modifies rects
    ensures rects[..] == old(rects[..])[i := SetPosition(old(rects[i]), x, y)]
  {
    SetXAt(rects, i, x);
    SetYAt(rects, i, y);
  }

  method MoveAt(rects: array<Quad>, i: nat, dx: real, dy: real)
    requires i < rects.Length
    modifies rects
    ensures rects[..] == old(rects[..])[i := Move(old(rects[i]), dx, dy)]
  {
    SetXAt(rects, i, GetX(rects[i]) + dx);
    SetYAt(rects, i, GetY(rects[i]) + dy);
  }

  method SetWidthAt(rects: array<Quad>, i: nat, width: real)
    requires i < rects.Length
    modifies rects
    ensures rects[..] == old(rects[..])[i := SetWidth(old(rects[i]), width)]
  {
    rects[i] := SetWidth(rects[i], width);
  }

  method SetHeightAt(rects: array<Quad>, i: nat, height: real)
    requires i < rects.Length
    modifies rects
    ensures rects[..] == old(rects[..])[i := SetHeight(old(rects[i]), height)]
  {
    rects[i] := SetHeight(rects[i], height);
  }

  method SetSizeAt(rects: array<Quad>, i: nat, width: real, height: real)
    requires i < rects.Length
    modifies rects
    ensures rects[..] == old(rects[..])[i := SetSize(old(rects[i]), width, height)]
  {
    SetWidthAt(rects, i, width);
    SetHeightAt(rects, i, height);
  }
}
