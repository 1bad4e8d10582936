// Memory helpers (final_platform_layer.hpp, namespace memory): clearing and
// copying a byte range in blocks of 8, 4, 2 or 1 bytes followed by a byte
// tail, and the aligned allocator that keeps its base pointer in front of
// the block it hands out.
module Memory {
  import opened Common
  import opened Buffers

  type byte = bv8

  /** Shift amounts that turn a byte count into a count of 8, 4 or 2 byte blocks. */
  const MEM_SHIFT_64: nat := 3
  const MEM_SHIFT_32: nat := 2
  const MEM_SHIFT_16: nat := 1

  /** `x >> s` on an unsigned size: `s` halvings. */
  function ShiftRight(x: nat, s: nat): (r: nat)
    ensures r <= x
  {
    if s == 0 then x else ShiftRight(x / 2, s - 1)
  }

  /** `n` blocks of `w` bytes: the byte count a block loop advances by. */
  function Times(n: nat, w: nat): (r: nat)
  {
    if n == 0 then 0 else Times(n - 1, w) + w
  }

  lemma {:induction false} TimesIsProduct(n: nat, w: nat)
    ensures Times(n, w) == n * w
  {
    if n > 0 {
      TimesIsProduct(n - 1, w);
    }
  }

  lemma {:induction false} TimesGrows(i: nat, n: nat, w: nat)
    requires i < n
    ensures Times(i + 1, w) <= Times(n, w)
  {
    if i + 1 < n {
      TimesGrows(i, n - 1, w);
    }
  }

  /** A run of `n` zero bytes. */
  function Zeros(n: nat): (r: seq<byte>)
    ensures |r| == n && forall k :: 0 <= k < n ==> r[k] == 0
  {
    seq(n, _ => 0)
  }

  /**
   * The block type a clear or copy macro is instantiated with: its size in
   * bytes and the shift passed alongside it.
   */
  datatype Block = Block(width: nat, shift: nat)

  /** The bytes the block loop of the clear and copy macros covers. */
  function BlockBytes(size: nat, b: Block): nat
  {
    if b.width > 1 then Times(ShiftRight(size, b.shift), b.width) else 0
  }

  /** MemoryClear's choice of block (final_platform_layer.hpp:1863-1873). */
  function ClearBlock(size: nat): (b: Block)
  {
    if size % 8 == 0 then Block(8, MEM_SHIFT_64)
    else if size % 4 == 0 then Block(4, MEM_SHIFT_32)
    else if size % 2 == 0 then Block(2, MEM_SHIFT_16)
    else Block(1, 0)
  }

  /**
   * MemoryCopy's choice of block (final_platform_layer.hpp:1875-1885): the
   * 2-byte branch is given the 4-byte shift.
   */
  function CopyBlock(size: nat): (b: Block)
  {
    if size % 8 == 0 then Block(8, MEM_SHIFT_64)
    else if size % 4 == 0 then Block(4, MEM_SHIFT_32)
    else if size % 2 == 0 then Block(2, MEM_SHIFT_32)
    else Block(1, 0)
  }

  lemma ShiftRightSmall(x: nat)
    ensures ShiftRight(x, 1) == x / 2 && ShiftRight(x, 2) == x / 4 && ShiftRight(x, 3) == x / 8
  {
    assert ShiftRight(x, 3) == ShiftRight(x / 2 / 2 / 2, 0);
    assert ShiftRight(x, 2) == ShiftRight(x / 2 / 2, 0);
  }

  lemma EvenMultiples(size: nat)
    ensures size % 8 == 0 ==> size % 4 == 0
    ensures size % 4 == 0 ==> size % 2 == 0
  {
    if size % 8 == 0 {
      RemainderUnique(size, 4, 2 * (size / 8), 0);
    }
    if size % 4 == 0 {
      RemainderUnique(size, 2, 2 * (size / 4), 0);
    }
  }

  /** MemoryClear's blocks cover every byte whenever the size is even. */
  lemma ClearBlocksCover(size: nat)
    ensures BlockBytes(size, ClearBlock(size)) == if size % 2 == 0 then size else 0
    ensures BlockBytes(size, ClearBlock(size)) <= size
  {
    ShiftRightSmall(size);
    EvenMultiples(size);
    if size % 8 == 0 {
      assert BlockBytes(size, ClearBlock(size)) == Times(size / 8, 8);
      TimesIsProduct(size / 8, 8);
    } else if size % 4 == 0 {
      assert BlockBytes(size, ClearBlock(size)) == Times(size / 4, 4);
      TimesIsProduct(size / 4, 4);
    } else if size % 2 == 0 {
      assert BlockBytes(size, ClearBlock(size)) == Times(size / 2, 2);
      TimesIsProduct(size / 2, 2);
    } else {
      assert ClearBlock(size) == Block(1, 0);
    }
  }

  /**
   * MemoryCopy's blocks cover every byte of a size that is a multiple of 4;
   * for a size of the form 4q + 2 the blocks cover only 2q bytes, and the
   * byte tail copies the remaining 2q + 2.
   */
  lemma CopyBlocksCover(size: nat)
    ensures size % 4 == 0 ==> BlockBytes(size, CopyBlock(size)) == size
    ensures size % 4 == 2 ==> BlockBytes(size, CopyBlock(size)) == (size - 2) / 2
    ensures size % 2 == 1 ==> BlockBytes(size, CopyBlock(size)) == 0
    ensures BlockBytes(size, CopyBlock(size)) <= size
  {
    ShiftRightSmall(size);
    EvenMultiples(size);
    if size % 8 == 0 {
      assert BlockBytes(size, CopyBlock(size)) == Times(size / 8, 8);
      TimesIsProduct(size / 8, 8);
    } else if size % 4 == 0 {
      assert BlockBytes(size, CopyBlock(size)) == Times(size / 4, 4);
      TimesIsProduct(size / 4, 4);
    } else if size % 2 == 0 {
      assert BlockBytes(size, CopyBlock(size)) == Times(size / 4, 2);
      TimesIsProduct(size / 4, 2);
    } else {
      assert CopyBlock(size) == Block(1, 0);
    }
  }

  /**
   * FPL_CLEARMEM_INTERNAL (final_platform_layer.hpp:1629-1645): zeroes
   * `size >> shift` blocks of `width` bytes, then every byte from the end of
   * the blocks up to `size`. Returns the bytes the block loop cleared.
   */
  method ClearBlocks(mem: array<byte>, size: nat, b: Block) returns (clearedBytes: nat)
    requires size <= mem.Length
    requires BlockBytes(size, b) <= size
    modifies mem
    ensures clearedBytes == BlockBytes(size, b)
    ensures mem[..] == Overwrite(old(mem[..]), 0, Zeros(size))
  {
    clearedBytes := 0;
    if b.width > 1 {
      var blocks := ShiftRight(size, b.shift);
      var i := 0;
      while i != blocks
        invariant i <= blocks && clearedBytes == Times(i, b.width) <= size
        invariant forall k :: 0 <= k < mem.Length ==> mem[k] == if k < clearedBytes then 0 else old(mem[k])
      {
        TimesGrows(i, blocks, b.width);
        forall k | clearedBytes <= k < clearedBytes + b.width {
          mem[k] := 0;
        }
        i := i + 1;
        clearedBytes := clearedBytes + b.width;
      }
    }
    var p := clearedBytes;
    while p != size
      invariant clearedBytes <= p <= size
      invariant forall k :: 0 <= k < mem.Length ==> mem[k] == if k < p then 0 else old(mem[k])
    {
      mem[p] := 0;
      p := p + 1;
    }
    forall k | 0 <= k < mem.Length
      ensures mem[..][k] == Overwrite(old(mem[..]), 0, Zeros(size))[k]
    {
      OverwriteAt(old(mem[..]), 0, Zeros(size), k);
    }
  }

  /**
   * FPL_COPYMEM_INTERNAL (final_platform_layer.hpp:1647-1665): copies
   * `sourceSize >> shift` blocks of `width` bytes, then every byte from the
   * end of the blocks up to `sourceSize`. The source is read-only memory
   * distinct from `dest`. Returns the bytes the block loop copied.
   */
  method CopyBlocks(source: seq<byte>, sourceSize: nat, dest: array<byte>, b: Block) returns (copiedBytes: nat)
    requires sourceSize <= |source| && sourceSize <= dest.Length
    requires BlockBytes(sourceSize, b) <= sourceSize
    modifies dest
    ensures copiedBytes == BlockBytes(sourceSize, b)
    ensures dest[..] == Overwrite(old(dest[..]), 0, source[..sourceSize])
  {
    copiedBytes := 0;
    if b.width > 1 {
      var blocks := ShiftRight(sourceSize, b.shift);
      var i := 0;
      while i != blocks
        invariant i <= blocks && copiedBytes == Times(i, b.width) <= sourceSize
        invariant forall k :: 0 <= k < dest.Length ==> dest[k] == if k < copiedBytes then source[k] else old(dest[k])
      {
        TimesGrows(i, blocks, b.width);
        forall k | copiedBytes <= k < copiedBytes + b.width {
          dest[k] := source[k];
        }
        i := i + 1;
        copiedBytes := copiedBytes + b.width;
      }
    }
    var p := copiedBytes;
    while p != sourceSize
      invariant copiedBytes <= p <= sourceSize
      invariant forall k :: 0 <= k < dest.Length ==> dest[k] == if k < p then source[k] else old(dest[k])
    {
      dest[p] := source[p];
      p := p + 1;
    }
    forall k | 0 <= k < dest.Length
      ensures dest[..][k] == Overwrite(old(dest[..]), 0, source[..sourceSize])[k]
    {
      OverwriteAt(old(dest[..]), 0, source[..sourceSize], k);
    }
  }

  /**
   * MemoryClear (final_platform_layer.hpp:1863-1873): the first `size` bytes
   * of `mem` become zero and the rest is untouched, whichever block is chosen.
   */
  method MemoryClear(mem: array<byte>, size: nat)
    requires size <= mem.Length
    modifies mem
    ensures mem[..] == Overwrite(old(mem[..]), 0, Zeros(size))
  {
    ClearBlocksCover(size);
    var _ := ClearBlocks(mem, size, ClearBlock(size));
  }

  /**
   * MemoryCopy (final_platform_layer.hpp:1875-1885): the first `sourceSize`
   * bytes of `target` become those of `source` and the rest is untouched,
   * the 2-byte branch included.
   */
  method MemoryCopy(source: seq<byte>, sourceSize: nat, target: array<byte>)
    requires sourceSize <= |source| && sourceSize <= target.Length
    modifies target
    ensures target[..] == Overwrite(old(target[..]), 0, source[..sourceSize])
  {
    CopyBlocksCover(sourceSize);
    var _ := CopyBlocks(source, sourceSize, target, CopyBlock(sourceSize));
  }

  // ---------------------------------------------------------------------
  // Aligned allocation (final_platform_layer.hpp:1824-1854), as arithmetic
  // on addresses. MemoryAllocate hands out a zeroed block at `base`; the
  // words a call stores into that block are returned as a map from address
  // to value, every other byte of the block staying zero.

  /** sizeof(void *) on a 64-bit build. */
  const PTR_SIZE: nat := 8

  /** `x & y` on unsigned integers, bit by bit from the lowest. */
  function BitAnd(x: nat, y: nat): (r: nat)
    ensures r <= x && r <= y
  {
    if x == 0 || y == 0 then 0
    else 2 * BitAnd(x / 2, y / 2) + (if x % 2 == 1 && y % 2 == 1 then 1 else 0)
  }

  /** 1, 2, 4, 8, ... */
  predicate PowerOfTwo(n: nat)
  {
    n == 1 || (n >= 2 && n % 2 == 0 && PowerOfTwo(n / 2))
  }

  /** For a power of two `a`, masking with `a - 1` keeps the remainder modulo `a`. */
  lemma {:induction false} MaskIsRemainder(x: nat, a: nat)
    requires PowerOfTwo(a)
    ensures BitAnd(x, a - 1) == x % a
  {
    if a == 1 {
      RemainderUnique(x, 1, x, 0);
    } else if x == 0 {
      RemainderUnique(0, a, 0, 0);
    } else {
      var h := a / 2;
      MaskIsRemainder(x / 2, h);
      {
        assert (a - 1) / 2 == h - 1 && (a - 1) % 2 == 1;
        assert BitAnd(x, a - 1) == 2 * ((x / 2) % h) + x % 2;
        HalveRemainder(x, h);
      }
    }
  }

  lemma HalveRemainder(x: nat, h: nat)
    requires h >= 1
    ensures 2 * ((x / 2) % h) + x % 2 == x % (2 * h)
  {
    var q := (x / 2) / h;
    var r := (x / 2) % h;
    assert x / 2 == h * q + r;
    assert x == 2 * (x / 2) + x % 2;
    assert x == (2 * h) * q + (2 * r + x % 2);
    RemainderUnique(x, 2 * h, q, 2 * r + x % 2);
  }

  lemma RemainderUnique(x: nat, d: nat, q: nat, r: nat)
    requires r < d && x == d * q + r
    ensures x / d == q && x % d == r
  {
    var q' := x / d;
    var r' := x % d;
    assert x == d * q' + r';
    assert d * (q - q') == r' - r;
    MulBounds(d, q - q');
  }

  lemma MulBounds(d: nat, n: int)
    ensures n >= 1 ==> d * n >= d
    ensures n <= -1 ==> d * n <= 0 - d
  {
    if n >= 1 {
      MulAtLeast(d, n);
    } else if n <= -1 {
      MulAtLeast(d, -n);
      assert d * n == -(d * -n);
    }
  }

  lemma MulSucc(d: nat, q: nat)
    ensures d * (q + 1) == d * q + d
  {
  }

  lemma {:induction false} MulAtLeast(d: nat, n: nat)
    requires n >= 1
    ensures d * n >= d
  {
    if n > 1 {
      MulAtLeast(d, n - 1);
      assert d * n == d * (n - 1) + d;
    }
  }

  lemma {:induction false} BitAndSelf(x: nat)
    ensures BitAnd(x, x) == x
  {
    if x > 0 {
      BitAndSelf(x / 2);
    }
  }

  /**
   * The source's alignment test `alignment > 0 && !(alignment & (alignment - 1))`
   * holds exactly for the powers of two.
   */
  lemma {:induction false} AlignmentTest(a: nat)
    ensures (a > 0 && BitAnd(a, a - 1) == 0) <==> PowerOfTwo(a)
  {
    if PowerOfTwo(a) {
      MaskIsRemainder(a, a);
    } else if a > 1 {
      if a % 2 == 1 {
        BitAndSelf(a / 2);
        assert (a - 1) / 2 == a / 2;
        assert BitAnd(a, a - 1) == 2 * (a / 2);
      } else {
        assert (a - 1) / 2 == a / 2 - 1;
        assert BitAnd(a, a - 1) == 2 * BitAnd(a / 2, a / 2 - 1);
        AlignmentTest(a / 2);
      }
    }
  }

  /** What an aligned allocation hands out: a pointer and the words it stored. */
  datatype Aligned = Aligned(ptr: nat, stored: map<nat, nat>)

  /** The size MemoryAlignedAllocate requests: a pointer, the size, twice the alignment. */
  function AlignedRequestSize(size: nat, alignment: nat): nat
  {
    PTR_SIZE + size + 2 * alignment
  }

  /** The padding that moves `p` up to the next multiple of `alignment`, or 0. */
  function Padding(p: nat, alignment: nat): (pad: nat)
    requires alignment > 0
  {
    var mask := alignment - 1;
    if alignment > 1 && BitAnd(p, mask) != 0 then alignment - BitAnd(p, mask) else 0
  }

  /** For a power of two, the padding is below the alignment and reaches a multiple of it. */
  lemma PaddingAligns(p: nat, alignment: nat)
    requires PowerOfTwo(alignment)
    ensures Padding(p, alignment) < alignment
    ensures (p + Padding(p, alignment)) % alignment == 0
  {
    MaskIsRemainder(p, alignment);
    var q := p / alignment;
    var r := p % alignment;
    DivMod(p, alignment);
    if r != 0 {
      MulSucc(alignment, q);
      RemainderUnique(p + (alignment - r), alignment, q + 1, 0);
    } else {
      RemainderUnique(p, alignment, q, 0);
    }
  }

  lemma DivMod(x: nat, d: nat)
    requires d > 0
    ensures x == d * (x / d) + x % d && x % d < d
  {
  }

  /**
   * MemoryAlignedAllocate as written (final_platform_layer.hpp:1824-1846):
   * the padding is added to the zeroed word stored at the candidate address
   * rather than to the address, so the block starts right after the stored
   * base pointer whatever the alignment.
   */
  function AlignedAllocateAsWritten(size: nat, alignment: nat, base: nat): (r: Aligned)
    requires size > 0 && alignment > 0 && BitAnd(alignment, alignment - 1) == 0
    ensures r.ptr == base + PTR_SIZE
    ensures r.ptr - PTR_SIZE in r.stored && r.stored[r.ptr - PTR_SIZE] == base
  {
    var p := base + PTR_SIZE;
    var pad := Padding(p, alignment);
    var stored := if pad != 0 then map[p := 0 + pad] else map[];
    Aligned(p, stored[p - PTR_SIZE := base])
  }

  /**
   * MemoryAlignedFree as written (final_platform_layer.hpp:1848-1854): the
   * base is the address one pointer before `ptr`, computed without reading
   * memory.
   */
  function AlignedFreeAsWritten(ptr: nat): (base: int)
    requires ptr != 0
    ensures base + PTR_SIZE == ptr
  {
    ptr - PTR_SIZE
  }

  /** Freeing what the as-written allocator returned releases its base. */
  lemma AsWrittenRoundTrip(size: nat, alignment: nat, base: nat)
    requires size > 0 && alignment > 0 && BitAnd(alignment, alignment - 1) == 0
    ensures AlignedFreeAsWritten(AlignedAllocateAsWritten(size, alignment, base).ptr) == base
  {
  }

  /**
   * The as-written allocator breaks both promises of its declaration
   * (final_platform_layer.hpp:953-954): for a page-aligned base and an
   * alignment of 16 the pointer is not 16-aligned and the first word of the
   * block is not zero.
   */
  lemma AsWrittenMisaligns(size: nat, alignment: nat, base: nat)
    requires size > 0 && PowerOfTwo(alignment) && PTR_SIZE < alignment
    requires base % alignment == 0
    ensures BitAnd(alignment, alignment - 1) == 0
    ensures var r := AlignedAllocateAsWritten(size, alignment, base);
      r.ptr % alignment == PTR_SIZE && r.ptr in r.stored && r.stored[r.ptr] == alignment - PTR_SIZE
  {
    AlignmentTest(alignment);
    var p := base + PTR_SIZE;
    OffsetRemainder(base, alignment, PTR_SIZE);
    var pad := Padding(p, alignment);
    assert pad == alignment - PTR_SIZE by {
      MaskIsRemainder(p, alignment);
    }
    var r := AlignedAllocateAsWritten(size, alignment, base);
    assert r.ptr == p && p != p - PTR_SIZE;
    assert r.stored == map[p := pad][p - PTR_SIZE := base];
  }

  lemma OffsetRemainder(base: nat, d: nat, off: nat)
    requires off < d && base % d == 0
    ensures (base + off) % d == off
  {
    DivMod(base, d);
    RemainderUnique(base + off, d, base / d, off);
  }

  /**
   * MemoryAlignedAllocate as intended: the padding moves the pointer, and the
   * base is stored in the word just before it.
   */
  function AlignedAllocate(size: nat, alignment: nat, base: nat): (r: Aligned)
    requires size > 0 && alignment > 0 && BitAnd(alignment, alignment - 1) == 0
    ensures r.ptr % alignment == 0
    ensures base + PTR_SIZE <= r.ptr && r.ptr + size <= base + AlignedRequestSize(size, alignment)
    ensures r.stored == map[r.ptr - PTR_SIZE := base]
  {
    AlignmentTest(alignment);
    var p := base + PTR_SIZE;
    PaddingAligns(p, alignment);
    var q := p + Padding(p, alignment);
    Aligned(q, map[q - PTR_SIZE := base])
  }

  /** MemoryAlignedFree as intended: reads the base stored just before `ptr`. */
  function AlignedFree(ptr: nat, stored: map<nat, nat>): (base: Option<nat>)
    requires ptr != 0
    ensures base.Some? <==> ptr >= PTR_SIZE && ptr - PTR_SIZE in stored
  {
    if ptr >= PTR_SIZE && ptr - PTR_SIZE in stored then Some(stored[ptr - PTR_SIZE]) else None
  }

  /**
   * Freeing what the intended allocator returned releases its base, and the
   * block it hands out is left all zero.
   */
  lemma AlignedRoundTrip(size: nat, alignment: nat, base: nat)
    requires size > 0 && alignment > 0 && BitAnd(alignment, alignment - 1) == 0
    ensures var r := AlignedAllocate(size, alignment, base);
      AlignedFree(r.ptr, r.stored) == Some(base)
      && forall a :: a in r.stored ==> a + PTR_SIZE <= r.ptr
  {
  }
}
