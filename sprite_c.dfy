/**
 * The first Vulkan sprite back end (src/sprite.c).  It keeps only
 * 1 + FLAP_NUM_PIPES * 2 sprite slots, takes integer texture rectangles,
 * repeats the setter bodies of src/sprite.h, and measures sprites for
 * collision by origin plus size rather than by the far corner.
 */
module SpriteC {
  import opened Sprite
  import SpriteImpl


  const Capacity: nat := 1 + FlapNumPipes * 2

  /** `sprite_indices`: 21 quads. */
  const Indices: seq<nat> := QuadIndices(21)

  /** vkCmdDrawIndexed(cmd_buf, 6 * (1 + FLAP_NUM_PIPES * 2), 1, 0, 0, 0). */
  const DrawCount: nat := 6 * (1 + FlapNumPipes * 2)

  /** The file's static `sprite_vertices`/`sprite_count` over the loaded texture. */
  method NewStore(textureWidth: nat, textureHeight: nat) returns (store: SpriteImpl.SpriteStore)
    requires textureWidth > 0 && textureHeight > 0
    ensures fresh(store) && fresh(store.vertices) && store.Valid()
    ensures store.vertices.Length == Capacity && store.count == 0
    ensures store.textureWidth == textureWidth as real && store.textureHeight == textureHeight as real
  {
    store := new SpriteImpl.SpriteStore(Capacity, textureWidth as real, textureHeight as real);
  }

  /**
   * sprite_new(int x, int y, int w, int h): the rectangle is converted to
   * float before the division by the texture size.
   */
  method NewSprite(store: SpriteImpl.SpriteStore, x: int, y: int, w: int, h: int) returns (slot: nat)
    requires store.Valid() && store.count < store.vertices.Length
    modifies store`count, store.vertices
    ensures slot == old(store.count) && store.count == old(store.count) + 1
    ensures store.vertices[..] == old(store.vertices[..])[slot := SpriteImpl.Textured(old(store.vertices[slot]),
              store.textureWidth, store.textureHeight, x as real, y as real, w as real, h as real)]
  {
    slot := store.New(x as real, y as real, w as real, h as real);
  }

  /** sprite_intersect of this file: x + w and y + h with w = v2.x - v1.x. */
  predicate Intersect(a: Quad, b: Quad) {
    GetX(a) < GetX(b) + GetW(b) && GetX(b) < GetX(a) + GetW(a) &&
    GetY(a) < GetY(b) + GetH(b) && GetY(b) < GetY(a) + GetH(a)
  }

  lemma IntersectSymmetric(a: Quad, b: Quad)
    ensures Intersect(a, b) <==> Intersect(b, a)
  {
  }

  lemma TouchingDoNotIntersect(a: Quad, b: Quad)
    requires GetX(a) + GetW(a) == GetX(b) || GetY(a) + GetH(a) == GetY(b)
    ensures !Intersect(a, b) && !Intersect(b, a)
  {
  }

  /** On rectangular quads the two collision tests agree. */
  lemma AgreesWithHeaderIntersect(a: Quad, b: Quad)
    requires Rectangular(a) && Rectangular(b)
    ensures Intersect(a, b) <==> Sprite.Intersect(a, b)
  {
  }

  /** A quad whose left edge is skewed: the two collision tests differ on it. */
  lemma DisagreesOnSkewedQuad()
    ensures var a := Quad(Vertex(0.0, 0.0, 0.0, 0.0), Vertex(1.0, 1.0, 0.0, 0.0),
                          Vertex(2.0, 1.0, 0.0, 0.0), Vertex(2.0, 0.0, 0.0, 0.0));
            var b := Quad(Vertex(1.5, 0.0, 0.0, 0.0), Vertex(1.5, 1.0, 0.0, 0.0),
                          Vertex(3.0, 1.0, 0.0, 0.0), Vertex(3.0, 0.0, 0.0, 0.0));
            Sprite.Intersect(a, b) && !Intersect(a, b)
  {
  }

  /** get_w after set_w(w) is w exactly when the left edge is vertical (v0.x = v1.x). */
  lemma GetWAfterSetW(q: Quad, w: real)
    ensures GetW(SetW(q, w)) == w <==> q.v0.x == q.v1.x
  {
  }

  /** The table has 21 quads, but the draw never leaves the first 9 (the slots that exist). */
  lemma DrawStaysInside()
    ensures DrawCount <= |Indices|
    ensures forall j :: 0 <= j < DrawCount ==> Indices[j] < 4 * Capacity
  {
    forall j | 0 <= j < DrawCount
      ensures Indices[j] < 4 * Capacity
    {
      QuadIndicesBelow(21, Capacity, j);
    }
  }

  lemma IndicesFollowQuadPattern(k: nat, c: nat)
    requires k < 21 && c < 6
    ensures |Indices| == 126 && Indices[6 * k + c] == 4 * k + Corner(c)
  {
    QuadIndicesAt(21, k, c);
  }
}
