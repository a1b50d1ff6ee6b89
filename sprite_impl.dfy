/**
 * The sprite storage of src/sprite_impl.h: a static array of quads handed
 * out by a bump allocator, the texture coordinates sprite_new writes, and
 * the constant index table.  src/sprite_gl.c and src/sprite_vk.c repeat the
 * same allocator body over their own arrays; their modules reuse this class
 * with their own capacity and texture size.
 */
module SpriteImpl {
  import opened Sprite

  const IndicesPerSprite: nat := 6

  const TextureWidth: real := 128.0
  const TextureHeight: real := 32.0

  /** `indices`: 42 quads written out literally in the header. */
  const Indices: seq<nat> := QuadIndices(42)

  /** The prefix of `indices` that the 3DS back end draws (src/sprite_3ds.c:20-21). */
  const DrawCount: nat := IndicesPerSprite * NumSprites

  /**
   * The texture rectangle sprite_new gives a quad: the pixel rectangle
   * (x, y, w, h) of the atlas, divided by the atlas size.
   */
  function Textured(q: Quad, width: real, height: real, x: real, y: real, w: real, h: real): (r: Quad)
    requires width > 0.0 && height > 0.0
    ensures r.v0.tx * width == x && r.v0.ty * height == y
    ensures r.v2.tx * width == x + w && r.v2.ty * height == y + h
    ensures SamePositions(q, r)
  {
    WithTexture(q, x / width, y / height, (x + w) / width, (y + h) / height)
  }

  /** A static `vertices[]` array with its `count` of handed-out slots. */
  class SpriteStore {
    const textureWidth: real
    const textureHeight: real
    const vertices: array<Quad>
    var count: nat

    ghost predicate Valid()
      reads this
    {
      textureWidth > 0.0 && textureHeight > 0.0
    }

    /** The zero-initialised static array, before any sprite_new. */
    constructor (capacity: nat, textureWidth: real, textureHeight: real)
      requires textureWidth > 0.0 && textureHeight > 0.0
      ensures Valid() && fresh(vertices)
      ensures this.textureWidth == textureWidth && this.textureHeight == textureHeight
      ensures vertices.Length == capacity && count == 0
      ensures forall i :: 0 <= i < capacity ==> vertices[i] == Blank
    {
      this.textureWidth := textureWidth;
      this.textureHeight := textureHeight;
      vertices := new Quad[capacity](_ => Blank);
      count := 0;
    }

    /**
     * sprite_new: hands out slot `count` and bumps it by one.  The C code does
     * not compare `count` with the array length; a call past the end writes
     * outside the array, which the precondition excludes.
     */
    method New(textureX: real, textureY: real, textureW: real, textureH: real) returns (slot: nat)
      requires Valid() && count < vertices.Length
      modifies this`count, vertices
      ensures Valid()
      ensures slot == old(count) && count == old(count) + 1
      ensures vertices[..] == old(vertices[..])[slot := Textured(old(vertices[slot]),
                textureWidth, textureHeight, textureX, textureY, textureW, textureH)]
    {
      slot := count;
      count := count + 1;
      var left := textureX / textureWidth;
      var top := textureY / textureHeight;
      var right := (textureX + textureW) / textureWidth;
      var bottom := (textureY + textureH) / textureHeight;
      vertices[slot] := WithTexture(vertices[slot], left, top, right, bottom);
    }
  }

  /** The header's own store: kNumSprites slots over a 128x32 atlas. */
  method NewStore() returns (store: SpriteStore)
    ensures fresh(store) && fresh(store.vertices) && store.Valid()
    ensures store.vertices.Length == NumSprites && store.count == 0
    ensures store.textureWidth == TextureWidth && store.textureHeight == TextureHeight
  {
    store := new SpriteStore(NumSprites, TextureWidth, TextureHeight);
  }

  /** Group k of `indices` is (4k, 4k+1, 4k+2, 4k+2, 4k, 4k+3). */
  lemma IndicesFollowQuadPattern(k: nat, c: nat)
    requires k < 42 && c < 6
    ensures |Indices| == 252 && Indices[6 * k + c] == 4 * k + Corner(c)
  {
    QuadIndicesAt(42, k, c);
  }

  /** The drawn prefix of `indices` only names vertices inside `vertices[kNumSprites]`. */
  lemma DrawStaysInside()
    ensures DrawCount <= |Indices|
    ensures forall j :: 0 <= j < DrawCount ==> Indices[j] < 4 * NumSprites
  {
    forall j | 0 <= j < DrawCount
      ensures Indices[j] < 4 * NumSprites
    {
      QuadIndicesBelow(42, NumSprites, j);
    }
  }
}
