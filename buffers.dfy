// Byte and character buffers seen as sequences: what it means to overwrite a
// window of a buffer and leave every other cell alone.
module Buffers {
  /** `buf` with the cells from `off` on replaced by `data`. */
  function Overwrite<T>(buf: seq<T>, off: nat, data: seq<T>): (r: seq<T>)
    requires off + |data| <= |buf|
    ensures |r| == |buf|
    ensures r[off..off + |data|] == data
    ensures forall k :: 0 <= k < |buf| && !(off <= k < off + |data|) ==> r[k] == buf[k]
  {
    buf[..off] + data + buf[off + |data|..]
  }

  /** Reading the cells of an overwritten buffer one by one. */
  lemma OverwriteAt<T>(buf: seq<T>, off: nat, data: seq<T>, k: nat)
    requires off + |data| <= |buf| && k < |buf|
    ensures Overwrite(buf, off, data)[k] == if off <= k < off + |data| then data[k - off] else buf[k]
  {
  }

  /** Storing one cell is overwriting a window of length one. */
  lemma OverwriteSingle<T>(buf: seq<T>, k: nat, x: T)
    requires k < |buf|
    ensures buf[k := x] == Overwrite(buf, k, [x])
  {
    assert buf[k := x] == buf[..k] + [x] + buf[k + 1..];
  }

  /**
   * A second write that starts inside or right after a first one and reaches
   * at least its end leaves the first write's head followed by the second.
   */
  lemma OverwriteOverlap<T>(buf: seq<T>, off: nat, x: seq<T>, k: nat, y: seq<T>)
    requires k <= |x| <= k + |y|
    requires off + k + |y| <= |buf|
    ensures off + |x| <= |buf|
    ensures Overwrite(Overwrite(buf, off, x), off + k, y) == Overwrite(buf, off, x[..k] + y)
  {
    var m := Overwrite(buf, off, x);
    var a := Overwrite(m, off + k, y);
    assert m[..off + k] == buf[..off] + x[..k];
    assert m[off + k + |y|..] == buf[off + k + |y|..];
  }

  /** Storing one cell right after a written window extends the window. */
  lemma OverwriteAppend<T>(buf: seq<T>, off: nat, x: seq<T>, v: T)
    requires off + |x| < |buf|
    ensures Overwrite(buf, off, x)[off + |x| := v] == Overwrite(buf, off, x + [v])
  {
    OverwriteSingle(Overwrite(buf, off, x), off + |x|, v);
    OverwriteOverlap(buf, off, x, |x|, [v]);
    assert x[..|x|] == x;
  }

  /** A write placed right after a written window extends the window. */
  lemma OverwriteThen<T>(buf: seq<T>, off: nat, x: seq<T>, y: seq<T>)
    requires off + |x| + |y| <= |buf|
    ensures Overwrite(Overwrite(buf, off, x), off + |x|, y) == Overwrite(buf, off, x + y)
  {
    OverwriteOverlap(buf, off, x, |x|, y);
    assert x[..|x|] == x;
  }

  /** Storing over the last cell of a written window replaces that cell. */
  lemma OverwriteLast<T>(buf: seq<T>, off: nat, x: seq<T>, v: T, w: T)
    requires off + |x| < |buf|
    ensures Overwrite(buf, off, x + [v])[off + |x| := w] == Overwrite(buf, off, x + [w])
  {
    OverwriteSingle(Overwrite(buf, off, x + [v]), off + |x|, w);
    OverwriteOverlap(buf, off, x + [v], |x|, [w]);
    assert (x + [v])[..|x|] == x;
  }
}
