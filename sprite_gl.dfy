/**
 * The OpenGL sprite back end (src/sprite_gl.c): its own static store of
 * 1 + 4 * FLAP_NUM_PIPES quads over the 128x32 atlas, the same index table,
 * the draw count, and the choice of shader sources by GL version string.
 */
module SpriteGl {
  import opened Sprite
  import SpriteImpl


  const TextureWidth: real := 128.0
  const TextureHeight: real := 32.0

  const Capacity: nat := 1 + 4 * FlapNumPipes

  const Indices: seq<nat> := QuadIndices(42)

  /** Indices passed to glDrawElements. */
  const DrawCount: nat := 6 * (1 + 4 * FlapNumPipes)

  /** The file's static `vertices`/`count`; sprite_new is SpriteImpl.SpriteStore.New. */
  method NewStore() returns (store: SpriteImpl.SpriteStore)
    ensures fresh(store) && fresh(store.vertices) && store.Valid()
    ensures store.vertices.Length == Capacity && store.count == 0
    ensures store.textureWidth == TextureWidth && store.textureHeight == TextureHeight
  {
    store := new SpriteImpl.SpriteStore(Capacity, TextureWidth, TextureHeight);
  }

  lemma IndicesFollowQuadPattern(k: nat, c: nat)
    requires k < 42 && c < 6
    ensures |Indices| == 252 && Indices[6 * k + c] == 4 * k + Corner(c)
  {
    QuadIndicesAt(42, k, c);
  }

  /** The drawn indices stay inside the table and inside `vertices`. */
  lemma DrawStaysInside()
    ensures DrawCount <= |Indices|
    ensures forall j :: 0 <= j < DrawCount ==> Indices[j] < 4 * Capacity
  {
    forall j | 0 <= j < DrawCount
      ensures Indices[j] < 4 * Capacity
    {
      QuadIndicesBelow(42, Capacity, j);
    }
  }

  /**
   * C `strncmp(a, b, n) == 0` on NUL-terminated strings, the terminator
   * being the end of the sequence: the first n characters agree, where a
   * string that ends early only matches one that ends at the same place.
   */
  predicate StrnEqual(a: string, b: string, n: nat)
    decreases n
  {
    n == 0 ||
    (if a == [] || b == [] then a == [] && b == []
     else a[0] == b[0] && StrnEqual(a[1..], b[1..], n - 1))
  }

  /** Comparing against the whole of a pattern is a prefix test. */
  lemma {:induction false} StrnEqualIsPrefix(a: string, p: string)
    ensures StrnEqual(a, p, |p|) <==> p <= a
  {
    if p != [] && a != [] {
      StrnEqualIsPrefix(a[1..], p[1..]);
      assert p <= a <==> p[0] == a[0] && p[1..] <= a[1..];
    }
  }

  datatype ShaderSources = ShaderSources(vertex: string, fragment: string)

  const EsShaders: ShaderSources := ShaderSources("shaders/sprite_es.vert", "shaders/sprite_es.frag")
  const DesktopShaders: ShaderSources := ShaderSources("shaders/sprite_gl.vert", "shaders/sprite_gl.frag")

  /** sprite_gl_init's shader choice on the GL_VERSION string. */
  function ChooseShaders(version: string): (s: ShaderSources)
    ensures "OpenGL ES" <= version ==> s == EsShaders
    ensures !("OpenGL ES" <= version) ==> s == DesktopShaders
  {
    StrnEqualIsPrefix(version, "OpenGL ES");
    if StrnEqual(version, "OpenGL ES", 9) then EsShaders else DesktopShaders
  }
}
