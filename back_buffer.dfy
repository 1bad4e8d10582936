// The software video back buffer (final_platform_layer.hpp:1553-1562,
// 3231-3298): a top-down array of 32-bit pixels with its width, height and
// stride in bytes. Allocation through MemoryAlignedAllocate is a fresh
// array; the BITMAPINFO header filled in for GDI is not modelled.
module BackBuffer {
  import opened Common

  /** The colour every new buffer is cleared to: opaque black. */
  const OPAQUE_BLACK: bv32 := 0xFF00_0000

  /** Bytes per pixel: sizeof(uint32_t). */
  const PIXEL_SIZE: nat := 4

  /**
   * The byte size Win32CreateVideoSoftware_Internal hands to the allocator:
   * the stride, four bytes per pixel of a 32-bit width, times the height,
   * computed in a 64-bit size_t (final_platform_layer.hpp:3248-3249).
   */
  function ByteSize(width: nat, height: nat): (size: nat)
    ensures size < U64
    ensures width * PIXEL_SIZE * height < U64 ==> size == width * PIXEL_SIZE * height
  {
    (width * PIXEL_SIZE * height) % U64
  }

  /**
   * A size the back buffer can take: 32-bit sides, neither zero, whose byte
   * size does not wrap. MemoryAlignedAllocate asserts a non-zero byte size
   * (final_platform_layer.hpp:1825); a wrapped size that is not zero would
   * let the clearing loop run past the block.
   */
  predicate Allocatable(width: nat, height: nat)
  {
    0 < width < U32 && 0 < height < U32 && width * PIXEL_SIZE * height < U64
  }

  /** An allocatable size asks for exactly four bytes per pixel, and for some. */
  lemma AllocatableByteSize(width: nat, height: nat)
    requires Allocatable(width, height)
    ensures ByteSize(width, height) == width * height * PIXEL_SIZE > 0
  {
    assert width * PIXEL_SIZE * height == width * height * PIXEL_SIZE;
    assert width * height > 0 by {
      assert width * height >= width * 1;
    }
  }

  /** Sides that fit the 16-bit words of a WM_SIZE message always make an allocatable size. */
  lemma WordSizeAllocatable(width: nat, height: nat)
    requires 0 < width < 0x1_0000 && 0 < height < 0x1_0000
    ensures Allocatable(width, height)
  {
    assert width * PIXEL_SIZE <= 0x1_0000 * PIXEL_SIZE;
    assert width * PIXEL_SIZE * height <= 0x1_0000 * PIXEL_SIZE * height;
    assert 0x1_0000 * PIXEL_SIZE * height <= 0x1_0000 * PIXEL_SIZE * 0x1_0000;
  }

  /** Every pixel holds `color`. */
  ghost predicate AllPixels(pixels: seq<bv32>, color: bv32)
  {
    forall i :: 0 <= i < |pixels| ==> pixels[i] == color
  }

  /** Row `y` of a `width`-wide buffer of `height` rows lies inside it and ends where row `y + 1` starts. */
  lemma RowFits(y: nat, width: nat, height: nat)
    requires y < height
    ensures y * width + width == (y + 1) * width <= width * height
  {
    assert (y + 1) * width <= height * width by {
      assert y + 1 <= height;
    }
  }

  /** One row of the clearing loop: `width` pixels from `start` on. */
  method FillRow(pixels: array<bv32>, start: nat, width: nat, color: bv32)
    requires start + width <= pixels.Length
    requires forall i :: 0 <= i < start ==> pixels[i] == color
    modifies pixels
    ensures forall i :: 0 <= i < start + width ==> pixels[i] == color
  {
    var x := 0;
    while x < width
      invariant x <= width
      invariant forall i :: 0 <= i < start + x ==> pixels[i] == color
    {
      pixels[start + x] := color;
      x := x + 1;
    }
  }

  /**
   * The clearing loop: row by row, each pixel of the row in turn, through a
   * pointer advancing over the whole buffer.
   */
  method FillPixels(pixels: array<bv32>, width: nat, height: nat, color: bv32)
    requires pixels.Length == width * height
    modifies pixels
    ensures AllPixels(pixels[..], color)
  {
    var p := 0;
    var y := 0;
    while y < height
      invariant y <= height && p == y * width
      invariant forall i :: 0 <= i < p ==> pixels[i] == color
    {
      RowFits(y, width, height);
      FillRow(pixels, p, width, color);
      p := p + width;
      y := y + 1;
    }
  }

  /** VideoBackBuffer, inside Win32VideoSoftwareState_Internal; `pixels` is null when released. */
  class VideoBackBuffer {
    var pixels: array?<bv32>
    var width: nat
    var height: nat
    var stride: nat

    /** A buffer is either allocated to its dimensions or entirely zeroed. */
    ghost predicate Valid()
      reads this
    {
      if pixels == null then width == 0 && height == 0 && stride == 0
      else pixels.Length == width * height && stride == width * PIXEL_SIZE
    }

    /** The zeroed state `{}`. */
    constructor()
      ensures Valid() && pixels == null
    {
      pixels := null;
      width := 0;
      height := 0;
      stride := 0;
    }

    /**
     * Win32CreateVideoSoftware_Internal (final_platform_layer.hpp:3241-3273):
     * a new buffer of `width` x `height` pixels, stride four bytes per pixel,
     * cleared to opaque black; it always reports success. The block holds
     * exactly ByteSize bytes, which must be allocatable.
     */
    method Create(width: nat, height: nat) returns (result: bool)
      requires Allocatable(width, height)
      modifies this
      ensures Valid() && result
      ensures pixels != null && pixels.Length * PIXEL_SIZE == ByteSize(width, height)
      ensures this.width == width && this.height == height && stride == width * PIXEL_SIZE
      ensures pixels != null && fresh(pixels) && AllPixels(pixels[..], OPAQUE_BLACK)
    {
      this.width := width;
      this.height := height;
      stride := width * PIXEL_SIZE;
      AllocatableByteSize(width, height);
      var memory := new bv32[width * height];
      FillPixels(memory, width, height, OPAQUE_BLACK);
      pixels := memory;
      result := true;
    }

    /** Win32ReleaseVideoSoftwareContext_Internal (final_platform_layer.hpp:3232-3239). */
    method Release()
      requires pixels != null
      modifies this
      ensures Valid() && pixels == null
    {
      pixels := null;
      width := 0;
      height := 0;
      stride := 0;
    }
  }
}
