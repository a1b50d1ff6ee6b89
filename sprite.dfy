/**
 * The textured sprite quad shared by every sprite back end (src/sprite.h).
 *
 * A sprite is four vertices, each with a position (x, y) and a texture
 * coordinate (tx, ty).  The setters and the collision test assume the
 * layout
 *     v0 top-left, v1 bottom-left, v2 bottom-right, v3 top-right,
 * in screen coordinates where y grows downwards.  The sprite back ends keep
 * their sprites in a static array; a `Sprite *` is modelled as an index into
 * an `array<Quad>`, and the inline setters as methods that rewrite that one
 * element in place.
 */
module Sprite {
  const NumPlayers: nat := 1
  const SpritesPerPipe: nat := 4
  const NumPipes: nat := 4
  const NumSprites: nat := NumPlayers + SpritesPerPipe * NumPipes

  /** flap.h's FLAP_NUM_PIPES, which sizes the rectangle and sprite stores of the back ends. */
  const FlapNumPipes: nat := 4

  datatype Vertex = Vertex(x: real, y: real, tx: real, ty: real)

  datatype Quad = Quad(v0: Vertex, v1: Vertex, v2: Vertex, v3: Vertex)

  /** The zero-initialised contents of a static sprite slot. */
  const Blank: Quad := Quad(Vertex(0.0, 0.0, 0.0, 0.0), Vertex(0.0, 0.0, 0.0, 0.0),
                            Vertex(0.0, 0.0, 0.0, 0.0), Vertex(0.0, 0.0, 0.0, 0.0))

  // The getters read single vertex fields.

  function GetX(q: Quad): real { q.v0.x }

  function GetRight(q: Quad): real { q.v2.x }

  function GetY(q: Quad): real { q.v0.y }

  function GetBottom(q: Quad): real { q.v1.y }

  function GetW(q: Quad): real { q.v2.x - q.v1.x }

  function GetH(q: Quad): real { q.v1.y - q.v0.y }

  /** Left edge v0/v1, right edge v2/v3, top edge v0/v3, bottom edge v1/v2. */
  predicate Rectangular(q: Quad) {
    q.v0.x == q.v1.x && q.v2.x == q.v3.x && q.v0.y == q.v3.y && q.v1.y == q.v2.y
  }

  predicate SamePositions(q: Quad, r: Quad) {
    r.v0.x == q.v0.x && r.v1.x == q.v1.x && r.v2.x == q.v2.x && r.v3.x == q.v3.x &&
    r.v0.y == q.v0.y && r.v1.y == q.v1.y && r.v2.y == q.v2.y && r.v3.y == q.v3.y
  }

  predicate SameTexture(q: Quad, r: Quad) {
    r.v0.tx == q.v0.tx && r.v1.tx == q.v1.tx && r.v2.tx == q.v2.tx && r.v3.tx == q.v3.tx &&
    r.v0.ty == q.v0.ty && r.v1.ty == q.v1.ty && r.v2.ty == q.v2.ty && r.v3.ty == q.v3.ty
  }

  predicate SameY(q: Quad, r: Quad) {
    r.v0.y == q.v0.y && r.v1.y == q.v1.y && r.v2.y == q.v2.y && r.v3.y == q.v3.y
  }

  predicate SameX(q: Quad, r: Quad) {
    r.v0.x == q.v0.x && r.v1.x == q.v1.x && r.v2.x == q.v2.x && r.v3.x == q.v3.x
  }

  /** sprite_set_x: moves the left edge to `left`, keeping the distance v2.x - v0.x. */
  function SetX(q: Quad, left: real): (r: Quad)
    ensures GetX(r) == left && r.v1.x == left
    ensures GetRight(r) - GetX(r) == q.v2.x - q.v0.x && r.v3.x == GetRight(r)
    ensures SameY(q, r) && SameTexture(q, r)
    ensures Rectangular(q) ==> Rectangular(r) && GetW(r) == GetW(q)
  {
    var right := left + (q.v2.x - q.v0.x);
    q.(v0 := q.v0.(x := left), v1 := q.v1.(x := left),
       v2 := q.v2.(x := right), v3 := q.v3.(x := right))
  }

  /** sprite_set_y: moves the top edge to `top`, keeping the distance v1.y - v0.y. */
  function SetY(q: Quad, top: real): (r: Quad)
    ensures GetY(r) == top && r.v3.y == top
    ensures GetH(r) == GetH(q) && r.v2.y == GetBottom(r)
    ensures SameX(q, r) && SameTexture(q, r)
    ensures Rectangular(q) ==> Rectangular(r)
  {
    var bottom := top + (q.v1.y - q.v0.y);
    q.(v0 := q.v0.(y := top), v1 := q.v1.(y := bottom),
       v2 := q.v2.(y := bottom), v3 := q.v3.(y := top))
  }

  /** sprite_set_w: puts the right edge at v0.x + w. */
  function SetW(q: Quad, w: real): (r: Quad)
    ensures GetRight(r) == GetX(q) + w && r.v3.x == GetRight(r)
    ensures r.v0 == q.v0 && r.v1 == q.v1
    ensures SameY(q, r) && SameTexture(q, r)
    ensures Rectangular(q) ==> Rectangular(r) && GetW(r) == w
  {
    var right := q.v0.x + w;
    q.(v2 := q.v2.(x := right), v3 := q.v3.(x := right))
  }

  /** sprite_set_h: puts the bottom edge at v0.y + h. */
  function SetH(q: Quad, h: real): (r: Quad)
    ensures GetH(r) == h && r.v2.y == GetBottom(r)
    ensures r.v0 == q.v0 && r.v3 == q.v3
    ensures SameX(q, r) && SameTexture(q, r)
    ensures Rectangular(q) ==> Rectangular(r)
  {
    var bottom := q.v0.y + h;
    q.(v1 := q.v1.(y := bottom), v2 := q.v2.(y := bottom))
  }

  /** sprite_set_th: stretches the texture vertically to v0.ty + th. */
  function SetTh(q: Quad, th: real): (r: Quad)
    ensures r.v1.ty == q.v0.ty + th && r.v2.ty == q.v0.ty + th
    ensures r.v0 == q.v0 && r.v3 == q.v3
    ensures r.v1.x == q.v1.x && r.v1.y == q.v1.y && r.v1.tx == q.v1.tx
    ensures r.v2.x == q.v2.x && r.v2.y == q.v2.y && r.v2.tx == q.v2.tx
    ensures SamePositions(q, r)
  {
    var bottom := q.v0.ty + th;
    q.(v1 := q.v1.(ty := bottom), v2 := q.v2.(ty := bottom))
  }

  /**
   * The texture-coordinate part of sprite_new: left is shared by v0/v1, right
   * by v2/v3, top by v0/v3 and bottom by v1/v2; positions are not written.
   */
  function WithTexture(q: Quad, left: real, top: real, right: real, bottom: real): (r: Quad)
    ensures r.v0.tx == left && r.v1.tx == left && r.v2.tx == right && r.v3.tx == right
    ensures r.v0.ty == top && r.v3.ty == top && r.v1.ty == bottom && r.v2.ty == bottom
    ensures SamePositions(q, r)
  {
    q.(v0 := q.v0.(tx := left, ty := top), v1 := q.v1.(tx := left, ty := bottom),
       v2 := q.v2.(tx := right, ty := bottom), v3 := q.v3.(tx := right, ty := top))
  }

  /** sprite_intersect: the open boxes [left, right) x [top, bottom) overlap. */
  predicate Intersect(a: Quad, b: Quad) {
    GetX(a) < GetRight(b) && GetX(b) < GetRight(a) && GetY(a) < GetBottom(b) && GetY(b) < GetBottom(a)
  }

  lemma IntersectSymmetric(a: Quad, b: Quad)
    ensures Intersect(a, b) <==> Intersect(b, a)
  {
  }

  /** Sprites that only share a vertical or a horizontal edge do not collide. */
  lemma TouchingDoNotIntersect(a: Quad, b: Quad)
    requires GetRight(a) == GetX(b) || GetBottom(a) == GetY(b)
    ensures !Intersect(a, b) && !Intersect(b, a)
  {
  }

  /** A sprite with positive width and height collides with itself. */
  lemma IntersectSelf(a: Quad)
    requires GetX(a) < GetRight(a) && GetY(a) < GetBottom(a)
    ensures Intersect(a, a)
  {
  }

  /** Setting both coordinates makes any quad rectangular. */
  lemma SetXYEstablishesRectangular(q: Quad, left: real, top: real)
    ensures Rectangular(SetY(SetX(q, left), top))
    ensures GetX(SetY(SetX(q, left), top)) == left && GetY(SetY(SetX(q, left), top)) == top
  {
  }

  // In-place forms: a `Sprite *` is element i of the back end's array.

  method SetXAt(sprites: array<Quad>, i: nat, left: real)
    requires i < sprites.Length
    modifies sprites
    ensures sprites[..] == old(sprites[..])[i := SetX(old(sprites[i]), left)]
  {
    sprites[i] := SetX(sprites[i], left);
  }

  method SetYAt(sprites: array<Quad>, i: nat, top: real)
    requires i < sprites.Length
    modifies sprites
    ensures sprites[..] == old(sprites[..])[i := SetY(old(sprites[i]), top)]
  {
    sprites[i] := SetY(sprites[i], top);
  }

  method SetWAt(sprites: array<Quad>, i: nat, w: real)
    requires i < sprites.Length
    modifies sprites
    ensures sprites[..] == old(sprites[..])[i := SetW(old(sprites[i]), w)]
  {
    sprites[i] := SetW(sprites[i], w);
  }

  method SetHAt(sprites: array<Quad>, i: nat, h: real)
    requires i < sprites.Length
    modifies sprites
    ensures sprites[..] == old(sprites[..])[i := SetH(old(sprites[i]), h)]
  {
    sprites[i] := SetH(sprites[i], h);
  }

  method SetThAt(sprites: array<Quad>, i: nat, th: real)
    requires i < sprites.Length
    modifies sprites
    ensures sprites[..] == old(sprites[..])[i := SetTh(old(sprites[i]), th)]
  {
    sprites[i] := SetTh(sprites[i], th);
  }

  // The index buffer of the sprite back ends: quad k is drawn as the
  // triangles (4k, 4k+1, 4k+2) and (4k+2, 4k, 4k+3).

  /** Offset of the c-th index of a quad's six from the quad's first vertex. */
  function Corner(c: nat): nat
    requires c < 6
  {
    [0, 1, 2, 2, 0, 3][c]
  }

  function QuadGroup(k: nat): (g: seq<nat>)
    ensures |g| == 6
  {
    [4 * k, 4 * k + 1, 4 * k + 2, 4 * k + 2, 4 * k, 4 * k + 3]
  }

  /** The index table for n quads; the back ends spell its entries out literally. */
  function QuadIndices(n: nat): (t: seq<nat>)
    ensures |t| == 6 * n
  {
    if n == 0 then [] else QuadIndices(n - 1) + QuadGroup(n - 1)
  }

  lemma {:induction false} QuadIndicesAt(n: nat, k: nat, c: nat)
    requires k < n && c < 6
    ensures QuadIndices(n)[6 * k + c] == 4 * k + Corner(c)
  {
    if k < n - 1 {
      QuadIndicesAt(n - 1, k, c);
      assert QuadIndices(n) == QuadIndices(n - 1) + QuadGroup(n - 1);
    } else {
      assert QuadIndices(n) == QuadIndices(n - 1) + QuadGroup(n - 1);
      assert QuadIndices(n)[6 * k + c] == QuadGroup(n - 1)[c];
    }
  }

  /** Every one of the first 6m indices names one of the first 4m vertices. */
  lemma QuadIndicesBelow(n: nat, m: nat, j: nat)
    requires m <= n && j < 6 * m
    ensures QuadIndices(n)[j] < 4 * m
  {
    var k, c := j / 6, j % 6;
    assert j == 6 * k + c;
    QuadIndicesAt(n, k, c);
    assert k < m;
  }
}
