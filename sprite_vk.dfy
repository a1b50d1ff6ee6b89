/**
 * The Vulkan sprite back end (src/sprite_vk.c): a static store of
 * 1 + 4 * FLAP_NUM_PIPES quads whose texture coordinates are divided by the
 * loaded texture's size, the index table and the indexed draw.
 */
module SpriteVk {
  import opened Sprite
  import SpriteImpl


  const Capacity: nat := 1 + 4 * FlapNumPipes

  const Indices: seq<nat> := QuadIndices(42)

  /** vkCmdDrawIndexed(cmd, 6 * (1 + 4 * FLAP_NUM_PIPES), 1, 0, 0, 0). */
  const DrawCount: nat := 6 * (1 + 4 * FlapNumPipes)
  const FirstIndex: nat := 0

  /**
   * The file's static `sprite_vertices`/`sprite_count`.  sprite_new divides by
   * `sprite_texture.width`/`.height`, the size of the loaded atlas, which
   * must be non-zero.
   */
  method NewStore(textureWidth: nat, textureHeight: nat) returns (store: SpriteImpl.SpriteStore)
    requires textureWidth > 0 && textureHeight > 0
    ensures fresh(store) && fresh(store.vertices) && store.Valid()
    ensures store.vertices.Length == Capacity && store.count == 0
    ensures store.textureWidth == textureWidth as real && store.textureHeight == textureHeight as real
  {
    store := new SpriteImpl.SpriteStore(Capacity, textureWidth as real, textureHeight as real);
  }

  lemma IndicesFollowQuadPattern(k: nat, c: nat)
    requires k < 42 && c < 6
    ensures |Indices| == 252 && Indices[6 * k + c] == 4 * k + Corner(c)
  {
    QuadIndicesAt(42, k, c);
  }

  /** The draw [FirstIndex, FirstIndex + DrawCount) stays inside the table and `sprite_vertices`. */
  lemma DrawStaysInside()
    ensures FirstIndex + DrawCount <= |Indices|
    ensures forall j :: FirstIndex <= j < FirstIndex + DrawCount ==> Indices[j] < 4 * Capacity
  {
    forall j | FirstIndex <= j < FirstIndex + DrawCount
      ensures Indices[j] < 4 * Capacity
    {
      QuadIndicesBelow(42, Capacity, j);
    }
  }
}
