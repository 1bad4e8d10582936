// NUL-terminated ANSI strings (final_platform_layer.hpp, namespace strings).
// A readable C string is a sequence of memory cells that contains a NUL; a
// null pointer is `None`. A written string is a window of a `char` array.
module CStrings {
  import opened Common
  import opened Buffers

  /** The memory holds a complete C string: a NUL occurs in it. */
  predicate Terminated(mem: seq<char>) { NUL in mem }

  /** The index of the first NUL: the length of the C string stored in `mem`. */
  function Len(mem: seq<char>): (n: nat)
    requires Terminated(mem)
    ensures n < |mem| && mem[n] == NUL && NUL !in mem[..n]
  {
    if mem[0] == NUL then 0
    else
      assert mem == [mem[0]] + mem[1..];
      var n := Len(mem[1..]);
      assert mem[..n + 1] == [mem[0]] + mem[1..][..n];
      n + 1
  }

  /** The characters of the C string stored in `mem`, without its NUL. */
  function Text(mem: seq<char>): (t: seq<char>)
    requires Terminated(mem)
  {
    mem[..Len(mem)]
  }

  /** The length of a C string is the only index that holds the first NUL. */
  lemma LenUnique(mem: seq<char>, k: nat)
    requires k < |mem| && mem[k] == NUL && NUL !in mem[..k]
    ensures Terminated(mem) && Len(mem) == k
  {
    var n := Len(mem);
    assert forall i :: 0 <= i < k ==> mem[..k][i] == mem[i] != NUL;
    assert forall i :: 0 <= i < n ==> mem[..n][i] == mem[i] != NUL;
  }

  /** A scan that stops at a NUL before passing the length has reached the length. */
  lemma StopsAtLen(mem: seq<char>, i: nat)
    requires Terminated(mem) && i <= Len(mem) && mem[i] == NUL
    ensures i == Len(mem)
  {
    var n := Len(mem);
    assert forall k :: 0 <= k < n ==> mem[..n][k] == mem[k] != NUL;
  }

  /**
   * Memory holding the characters `t` at `p` followed by a NUL reads back as
   * the C string `t` from `p`.
   */
  lemma TextAt(mem: seq<char>, p: nat, t: seq<char>)
    requires p + |t| < |mem| && mem[p..p + |t|] == t && mem[p + |t|] == NUL && NUL !in t
    ensures Terminated(mem[p..]) && Text(mem[p..]) == t
  {
    assert mem[p..][..|t|] == t;
    LenUnique(mem[p..], |t|);
  }

  /** A C string inside a window of memory reads the same from the whole memory. */
  lemma TextInWindow(mem: seq<char>, off: nat, w: seq<char>, a: nat)
    requires off + |w| <= |mem| && mem[off..off + |w|] == w
    requires a <= |w| && Terminated(w[a..])
    ensures Terminated(mem[off + a..]) && Text(mem[off + a..]) == Text(w[a..])
  {
    var n := Len(w[a..]);
    forall k | 0 <= k <= n
      ensures mem[off + a + k] == w[a..][k]
    {
      assert mem[off..off + |w|][a + k] == w[a + k];
    }
    assert mem[off + a..off + a + n] == w[a..][..n];
    TextAt(mem, off + a, Text(w[a..]));
  }

  /** The C string written as `t + [NUL]` reads back as `t`. */
  lemma TextOfTerminated(t: seq<char>)
    requires NUL !in t
    ensures Terminated(t + [NUL]) && Text(t + [NUL]) == t
  {
    TextAt(t + [NUL], 0, t);
  }

  /**
   * GetAnsiStringLength (final_platform_layer.hpp:1761-1769): counts the
   * characters before the first NUL; a null string has length 0.
   */
  method GetAnsiStringLength(str: Option<seq<char>>) returns (n: nat)
    requires str.Some? ==> Terminated(str.value)
    ensures str.None? ==> n == 0
    ensures str.Some? ==> n < |str.value| && str.value[n] == NUL && NUL !in str.value[..n]
  {
    n := 0;
    if str.Some? {
      var s := str.value;
      while s[n] != NUL
        invariant n <= Len(s)
        invariant NUL !in s[..n]
        decreases Len(s) - n
      {
        assert s[..n + 1] == s[..n] + [s[n]];
        n := n + 1;
      }
      LenUnique(s, n);
    }
  }

  /**
   * CopyAnsiString (final_platform_layer.hpp:1781-1791): copies `sourceLen`
   * characters to `dest` at `destOff` and writes a NUL after them, given room
   * for `sourceLen + 1` characters; nothing else in `dest` changes. The
   * returned position is the start of the destination.
   */
  method CopyAnsiString(source: seq<char>, sourceLen: nat, dest: array<char>, destOff: nat, maxDestLen: nat)
    returns (r: nat)
    requires sourceLen <= |source|
    requires sourceLen + 1 <= maxDestLen
    requires destOff + maxDestLen <= dest.Length
    modifies dest
    ensures r == destOff
    ensures dest[..] == Overwrite(old(dest[..]), destOff, source[..sourceLen] + [NUL])
  {
    r := destOff;
    var index := 0;
    while index < sourceLen
      invariant index <= sourceLen
      invariant forall k :: 0 <= k < dest.Length ==>
        dest[k] == if destOff <= k < destOff + index then source[k - destOff] else old(dest[k])
    {
      dest[destOff + index] := source[index];
      index := index + 1;
    }
    dest[destOff + sourceLen] := NUL;
    forall k | 0 <= k < dest.Length
      ensures dest[..][k] == Overwrite(old(dest[..]), destOff, source[..sourceLen] + [NUL])[k]
    {
      OverwriteAt(old(dest[..]), destOff, source[..sourceLen] + [NUL], k);
    }
  }

  /**
   * CopyAnsiString without a length (final_platform_layer.hpp:1793-1798):
   * copies the whole C string `source`, NUL included.
   */
  method CopyTerminatedAnsiString(source: seq<char>, dest: array<char>, destOff: nat, maxDestLen: nat)
    returns (r: nat)
    requires Terminated(source)
    requires Len(source) + 1 <= maxDestLen
    requires destOff + maxDestLen <= dest.Length
    modifies dest
    ensures r == destOff
    ensures dest[..] == Overwrite(old(dest[..]), destOff, Text(source) + [NUL])
  {
    var sourceLen := GetAnsiStringLength(Some(source));
    LenUnique(source, sourceLen);
    r := CopyAnsiString(source, sourceLen, dest, destOff, maxDestLen);
  }
}
