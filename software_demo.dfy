// The software rendering demo (demos/FPL_Software/fpl_software.cpp): a
// 16-bit xorshift generator and the frame it paints into the back buffer,
// one random opaque colour per pixel, row by row. The surrounding main loop
// (platform start-up, window updates, flips) is platform I/O and not modelled.
module SoftwareDemo {
  import opened BackBuffer

  /** UCHAR_MAX, the modulus RandomByte reduces by. */
  const UCHAR_MAX: nat := 255

  /** `index ^= index << 13`, truncated to the 16-bit field. */
  function XorShl13(x: bv16): bv16 { x ^ (x << 13) }

  /** `index ^= index >> 9`. */
  function XorShr9(x: bv16): bv16 { x ^ (x >> 9) }

  /** `index ^= index << 7`, truncated to the 16-bit field. */
  function XorShl7(x: bv16): bv16 { x ^ (x << 7) }

  /** The three xorshift steps of RandomU16, in order. */
  function Next(x: bv16): bv16
  {
    XorShl7(XorShr9(XorShl13(x)))
  }

  /** Zero is the one state the generator maps to zero. */
  lemma NextZero(x: bv16)
    ensures Next(x) == 0 <==> x == 0
  {
  }

  /** The 13- and 9-bit steps undo themselves: shifting twice clears the field. */
  lemma StepsSelfInverse(x: bv16)
    ensures XorShl13(XorShl13(x)) == x && XorShr9(XorShr9(x)) == x
  {
  }

  /** The 7-bit step undone: shifting three times clears the field. */
  function UnXorShl7(y: bv16): (x: bv16)
    ensures XorShl7(x) == y
  {
    y ^ (y << 7) ^ (y << 14)
  }

  lemma UnXorShl7Inverse(x: bv16)
    ensures UnXorShl7(XorShl7(x)) == x
  {
  }

  /** The step undone, in reverse order. */
  function Prev(y: bv16): (x: bv16)
    ensures Next(x) == y
  {
    var b := UnXorShl7(y);
    var a := XorShr9(b);
    StepsSelfInverse(a);
    StepsSelfInverse(b);
    XorShl13(a)
  }

  /**
   * Prev also undoes Next, so the generator is a permutation of the 16-bit
   * states: two states with the same successor are equal.
   */
  lemma PrevNext(x: bv16)
    ensures Prev(Next(x)) == x
    ensures forall z: bv16 :: Next(z) == Next(x) ==> z == x
  {
    var a := XorShl13(x);
    var b := XorShr9(a);
    UnXorShl7Inverse(b);
    StepsSelfInverse(a);
    StepsSelfInverse(x);
    forall z: bv16 | Next(z) == Next(x)
      ensures z == x
    {
      var a' := XorShl13(z);
      var b' := XorShr9(a');
      UnXorShl7Inverse(b');
      StepsSelfInverse(a');
      StepsSelfInverse(z);
    }
  }

  /** The state after `n` calls of RandomU16. */
  function Advance(seed: bv16, n: nat): bv16
  {
    if n == 0 then seed else Next(Advance(seed, n - 1))
  }

  /** Only the zero state maps to zero: a series stays zero, or never reaches it. */
  lemma {:induction false} AdvanceZero(seed: bv16, n: nat)
    ensures Advance(seed, n) == 0 <==> seed == 0
  {
    if n > 0 {
      AdvanceZero(seed, n - 1);
      NextZero(Advance(seed, n - 1));
    }
  }

  /** RandomByte's reduction: the 16-bit value modulo UCHAR_MAX. */
  function Byte(v: bv16): bv8
  {
    (v as int % UCHAR_MAX) as bv8
  }

  /** A byte drawn this way is never 255. */
  lemma ByteBelowMax(v: bv16)
    ensures Byte(v) < 255
  {
  }

  /** The colour the inner loop packs from its three channels. */
  function PackColor(r: bv8, g: bv8, b: bv8): bv32
  {
    (0xFF << 24) | ((r as bv32) << 16) | ((g as bv32) << 8) | (b as bv32)
  }

  /** The packed colour reads back as alpha 0xFF over red, green and blue, one byte each. */
  lemma PackColorFields(r: bv8, g: bv8, b: bv8)
    ensures var c := PackColor(r, g, b);
      c >> 24 == 0xFF && (c >> 16) & 0xFF == r as bv32 && (c >> 8) & 0xFF == g as bv32 && c & 0xFF == b as bv32
  {
  }

  /** The colour drawn from state `s`: red, green and blue from the next three states. */
  function ColorFrom(s: bv16): bv32
  {
    PackColor(Byte(Next(s)), Byte(Next(Next(s))), Byte(Next(Next(Next(s)))))
  }

  /** The first `n` colours a series starting at `seed` produces. */
  function Colors(seed: bv16, n: nat): (colors: seq<bv32>)
    ensures |colors| == n
  {
    seq(n, i requires 0 <= i < n => ColorFrom(Advance(seed, 3 * i)))
  }

  /** A colour the demo can draw: opaque, and no channel at 255. */
  predicate DemoColor(c: bv32)
  {
    c >> 24 == 0xFF && (c >> 16) & 0xFF < 255 && (c >> 8) & 0xFF < 255 && c & 0xFF < 255
  }

  lemma ColorFromIsDemoColor(s: bv16)
    ensures DemoColor(ColorFrom(s))
  {
    var r, g, b := Byte(Next(s)), Byte(Next(Next(s))), Byte(Next(Next(Next(s))));
    ByteBelowMax(Next(s));
    ByteBelowMax(Next(Next(s)));
    ByteBelowMax(Next(Next(Next(s))));
    PackColorFields(r, g, b);
    assert (r as bv32) < 255 && (g as bv32) < 255 && (b as bv32) < 255;
  }

  /** One more colour: the next one drawn, three states further on. */
  lemma ColorsStep(seed: bv16, p: nat)
    ensures Colors(seed, p + 1) == Colors(seed, p) + [ColorFrom(Advance(seed, 3 * p))]
    ensures Advance(seed, 3 * (p + 1)) == Next(Next(Next(Advance(seed, 3 * p))))
  {
    assert Advance(seed, 3 * p + 3) == Next(Advance(seed, 3 * p + 2));
    assert Advance(seed, 3 * p + 2) == Next(Advance(seed, 3 * p + 1));
    assert Colors(seed, p + 1)[..p] == Colors(seed, p);
  }

  /** Every colour is opaque and no channel ever reaches 255. */
  lemma ColorsOpaque(seed: bv16, n: nat)
    ensures forall i :: 0 <= i < n ==> DemoColor(Colors(seed, n)[i])
  {
    forall i | 0 <= i < n
      ensures DemoColor(Colors(seed, n)[i])
    {
      ColorFromIsDemoColor(Advance(seed, 3 * i));
    }
  }

  /** RandomSeries: the generator's state. */
  class RandomSeries {
    var index: bv16

    constructor(seed: bv16)
      ensures index == seed
    {
      index := seed;
    }

    /** RandomU16 (demos/FPL_Software/fpl_software.cpp:8-13): steps the state and returns it. */
    method RandomU16() returns (r: bv16)
      modifies this
      ensures index == Next(old(index)) && r == index
    {
      index := XorShl13(index);
      index := XorShr9(index);
      index := XorShl7(index);
      r := index;
    }

    /** RandomByte (demos/FPL_Software/fpl_software.cpp:15-18). */
    method RandomByte() returns (r: bv8)
      modifies this
      ensures index == Next(old(index)) && r == Byte(index)
    {
      var v := RandomU16();
      r := (v as int % UCHAR_MAX) as bv8;
    }
  }

  /**
   * The body of the inner loop (demos/FPL_Software/fpl_software.cpp:34-37):
   * red, green and blue drawn in that order, packed under an opaque alpha.
   */
  method RandomColor(series: RandomSeries) returns (color: bv32)
    modifies series
    ensures color == ColorFrom(old(series.index))
    ensures series.index == Next(Next(Next(old(series.index))))
  {
    var r := series.RandomByte();
    var g := series.RandomByte();
    var b := series.RandomByte();
    color := PackColor(r, g, b);
  }

  /** `*p++ = color`: the next colour of the series goes to pixel `p`. */
  method DrawPixel(pixels: array<bv32>, p: nat, series: RandomSeries, ghost seed: bv16)
    requires p < pixels.Length
    requires pixels[..p] == Colors(seed, p) && series.index == Advance(seed, 3 * p)
    modifies pixels, series
    ensures pixels[..p + 1] == Colors(seed, p + 1) && series.index == Advance(seed, 3 * (p + 1))
  {
    ColorsStep(seed, p);
    var color := RandomColor(series);
    pixels[p] := color;
    assert pixels[..p + 1] == pixels[..p] + [color];
  }

  /**
   * The inner loop for one row: `width` pixels from `start` on, each a
   * fresh colour, the pointer moving one pixel at a time.
   */
  method DrawRow(pixels: array<bv32>, start: nat, width: nat, series: RandomSeries, ghost seed: bv16)
    requires start + width <= pixels.Length
    requires pixels[..start] == Colors(seed, start) && series.index == Advance(seed, 3 * start)
    modifies pixels, series
    ensures pixels[..start + width] == Colors(seed, start + width)
    ensures series.index == Advance(seed, 3 * (start + width))
  {
    var p := start;
    var x := 0;
    while x < width
      invariant x <= width && p == start + x
      invariant pixels[..p] == Colors(seed, p) && series.index == Advance(seed, 3 * p)
    {
      DrawPixel(pixels, p, series, seed);
      p := p + 1;
      x := x + 1;
    }
  }

  /** Row `y` starts `y * stride` bytes in, which is pixel `y * width` when the stride is four bytes per pixel. */
  lemma RowStart(y: nat, width: nat, stride: nat)
    requires stride == width * PIXEL_SIZE
    ensures y * stride / PIXEL_SIZE == y * width
  {
    assert y * stride == (y * width) * PIXEL_SIZE;
  }

  /**
   * One frame of the demo (demos/FPL_Software/fpl_software.cpp:29-43): every
   * row starts at its byte offset `y * stride`, and the whole buffer ends
   * up holding the series' next width * height colours in order.
   */
  method DrawFrame(backBuffer: VideoBackBuffer, series: RandomSeries)
    requires backBuffer.Valid() && backBuffer.pixels != null
    modifies backBuffer.pixels, series
    ensures backBuffer.pixels[..] == Colors(old(series.index), backBuffer.width * backBuffer.height)
    ensures series.index == Advance(old(series.index), 3 * (backBuffer.width * backBuffer.height))
  {
    var pixels := backBuffer.pixels;
    var width := backBuffer.width;
    var height := backBuffer.height;
    var stride := backBuffer.stride;
    ghost var seed := series.index;
    ghost var done := 0;
    var y := 0;
    while y < height
      invariant y <= height && done == y * width
      invariant pixels[..done] == Colors(seed, done) && series.index == Advance(seed, 3 * done)
    {
      RowFits(y, width, height);
      RowStart(y, width, stride);
      var p := y * stride / PIXEL_SIZE;
      DrawRow(pixels, p, width, series, seed);
      done := done + width;
      y := y + 1;
    }
    assert pixels[..] == pixels[..height * width];
  }
}
