/**
 * The bookkeeping of src/buffer.c: the size a buffer is rounded to, the
 * memory type it is allocated from, whether its memory is mapped, and what
 * buffer_write copies into the mapping.
 *
 * Mapped memory is a sequence of bytes, `None` where Vulkan leaves the
 * contents undefined.  The `Buffer` structure src/buffer.c writes (with its
 * `size` and `data` fields) is declared outside the files modelled here; only
 * those fields and the memory handle's type index are modelled.
 */
module Buffer {
  import opened Vulkan
  import Device

  /** `(size / alignment + 1) * alignment`. */
  function ActualSize(size: nat, alignment: nat): (r: nat)
    requires alignment > 0
  {
    (size / alignment + 1) * alignment
  }

  lemma MulAdd(q: nat, a: nat)
    ensures (q + 1) * a == q * a + a
  {
  }

  lemma {:induction false} MulMonotone(x: nat, y: nat, a: nat)
    requires x <= y
    ensures x * a <= y * a
  {
    if x < y {
      MulMonotone(x, y - 1, a);
      MulAdd(y - 1, a);
    }
  }

  /** Euclidean division is unique: n = k * a + r with r < a fixes n % a. */
  lemma DivUnique(n: nat, k: nat, r: nat, a: nat)
    requires a > 0 && r < a && n == k * a + r
    ensures n % a == r
  {
    var k', r' := n / a, n % a;
    assert n == k' * a + r';
    if k' < k {
      MulMonotone(k' + 1, k, a);
      MulAdd(k', a);
      assert false;
    } else if k < k' {
      MulMonotone(k + 1, k', a);
      MulAdd(k, a);
      assert false;
    }
  }

  /**
   * The rounded size is a multiple of the alignment strictly above the
   * request and at most one alignment unit more.
   */
  lemma ActualSizeBounds(size: nat, alignment: nat)
    requires alignment > 0
    ensures ActualSize(size, alignment) % alignment == 0
    ensures size < ActualSize(size, alignment) <= size + alignment
  {
    var q := size / alignment;
    MulAdd(q, alignment);
    DivUnique(ActualSize(size, alignment), q + 1, 0, alignment);
    assert size == q * alignment + size % alignment;
  }

  /** An already aligned request still gains a whole unit. */
  lemma ActualSizeOfAligned(size: nat, alignment: nat)
    requires alignment > 0 && size % alignment == 0
    ensures ActualSize(size, alignment) == size + alignment
  {
    var q := size / alignment;
    MulAdd(q, alignment);
    assert size == q * alignment + size % alignment;
  }

  /** The rounded size is the least multiple of the alignment above the request. */
  lemma ActualSizeLeast(size: nat, alignment: nat, m: nat)
    requires alignment > 0 && m % alignment == 0 && size < m
    ensures ActualSize(size, alignment) <= m
  {
    var q := size / alignment;
    var k := m / alignment;
    assert m == k * alignment + m % alignment;
    assert size == q * alignment + size % alignment;
    if k <= q {
      MulMonotone(k, q, alignment);
      assert false;
    }
    MulMonotone(q + 1, k, alignment);
  }

  /** Bytes written into mapped memory. */
  function Defined(bytes: seq<bv8>): (r: seq<Option<bv8>>)
    ensures |r| == |bytes| && forall i :: 0 <= i < |bytes| ==> r[i] == Some(bytes[i])
  {
    seq(|bytes|, i requires 0 <= i < |bytes| => Some(bytes[i]))
  }

  /** A `Buffer` structure: its recorded size, memory type, mapping and mapped bytes. */
  class Buffer {
    var size: nat
    var memoryTypeIndex: nat
    /** `data != NULL`. */
    var mapped: bool
    var contents: seq<Option<bv8>>
    /** Whether `window_fail_with_error` was reached. */
    var failed: bool

    ghost predicate Valid()
      reads this
    {
      |contents| == size
    }

    /** `Buffer buffer = {0}`. */
    constructor ()
      ensures Valid() && size == 0 && memoryTypeIndex == 0 && !mapped && contents == [] && !failed
    {
      size, memoryTypeIndex := 0, 0;
      mapped := false;
      contents := [];
      failed := false;
    }

    /**
     * buffer_create: the size is rounded to the device's non-coherent atom
     * size and recorded, the memory type comes from device_find_memory_type,
     * and the memory is mapped only when HOST_VISIBLE is requested.
     */
    method Create(requested: nat, alignment: nat, typeBits: bv32, types: seq<bv32>, wanted: bv32)
      requires alignment > 0 && |types| <= MaxMemoryTypes
      modifies this
      ensures Valid() && size == ActualSize(requested, alignment)
      ensures memoryTypeIndex == Device.MemoryType(typeBits, types, wanted).id
      ensures failed == (old(failed) || Device.MemoryType(typeBits, types, wanted).failed)
      ensures mapped == (old(mapped) || wanted & MemoryHostVisibleBit != 0)
      ensures forall i :: 0 <= i < size ==> contents[i].None?
    {
      size := (requested / alignment + 1) * alignment;
      var r := Device.FindMemoryType(typeBits, types, wanted);
      memoryTypeIndex := r.id;
      failed := failed || r.failed;
      contents := seq(size, i => None);
      if wanted & MemoryHostVisibleBit != 0 {
        mapped := true;
      }
    }

    /** buffer_destroy unmaps exactly when `data` is set; it does not clear `data`. */
    method Destroy() returns (unmapped: bool)
      ensures unmapped == mapped
    {
      unmapped := mapped;
    }

    /**
     * buffer_write as written: it copies `size` bytes, the rounded size, from
     * the source, which must therefore hold at least that many.
     */
    method WriteAsWritten(src: seq<bv8>)
      requires Valid() && mapped && size <= |src|
      modifies this`contents
      ensures Valid() && contents == Defined(src[..size])
    {
      contents := Defined(src[..size]);
    }

    /** buffer_write as intended: the source's bytes, at the start of the mapping. */
    method Write(src: seq<bv8>)
      requires Valid() && mapped && |src| <= size
      modifies this`contents
      ensures Valid() && contents == Defined(src) + old(contents)[|src|..]
      ensures forall i :: 0 <= i < |src| ==> contents[i] == Some(src[i])
    {
      contents := Defined(src) + contents[|src|..];
    }

    /** buffer_copy: the region copied is the source buffer's recorded size. */
    method CopyTo(dst: Buffer) returns (regionSize: nat)
      ensures regionSize == size
    {
      regionSize := size;
    }
  }
}
