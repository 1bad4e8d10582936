// Searching and joining character sequences: the vocabulary the path and
// command-line helpers are specified in.
module Texts {
  import opened Common

  /** The position of the last `c` in `t`, if any. */
  function LastIndex(t: seq<char>, c: char): (r: Option<nat>)
    ensures r.None? ==> c !in t
    ensures r.Some? ==> r.value < |t| && t[r.value] == c && c !in t[r.value + 1..]
  {
    if |t| == 0 then None
    else if t[|t| - 1] == c then Some(|t| - 1)
    else
      var r := LastIndex(t[..|t| - 1], c);
      assert t == t[..|t| - 1] + [t[|t| - 1]];
      assert r.Some? ==> t[r.value + 1..] == t[..|t| - 1][r.value + 1..] + [t[|t| - 1]];
      r
  }

  /** The position of the first `c` in `t`, if any. */
  function FirstIndex(t: seq<char>, c: char): (r: Option<nat>)
    ensures r.None? ==> c !in t
    ensures r.Some? ==> r.value < |t| && t[r.value] == c && c !in t[..r.value]
  {
    if |t| == 0 then None
    else if t[0] == c then Some(0)
    else
      assert t == [t[0]] + t[1..];
      match FirstIndex(t[1..], c)
      case None => None
      case Some(k) =>
        assert t[..k + 1] == [t[0]] + t[1..][..k];
        Some(k + 1)
  }

  /** The last occurrence is the one with no further occurrence after it. */
  lemma {:induction false} LastIndexIs(t: seq<char>, c: char, k: nat)
    requires k < |t| && t[k] == c && c !in t[k + 1..]
    ensures LastIndex(t, c) == Some(k)
  {
    if k < |t| - 1 {
      assert t[|t| - 1] in t[k + 1..];
      assert t[..|t| - 1][k + 1..] == t[k + 1..|t| - 1];
      LastIndexIs(t[..|t| - 1], c, k);
    }
  }

  /** A text without `c` has no last occurrence of it. */
  lemma LastIndexAbsent(t: seq<char>, c: char)
    requires c !in t
    ensures LastIndex(t, c) == None
  {
  }

  /** The first occurrence is the one with no earlier occurrence before it. */
  lemma {:induction false} FirstIndexIs(t: seq<char>, c: char, k: nat)
    requires k < |t| && t[k] == c && c !in t[..k]
    ensures FirstIndex(t, c) == Some(k)
  {
    if k > 0 {
      assert t[0] in t[..k];
      assert t[1..][..k - 1] == t[1..k];
      FirstIndexIs(t[1..], c, k - 1);
    }
  }

  /** The number of times `c` occurs in `t`. */
  function Count(t: seq<char>, c: char): nat
  {
    if |t| == 0 then 0
    else Count(t[..|t| - 1], c) + (if t[|t| - 1] == c then 1 else 0)
  }

  /** A prefix holds no more occurrences than the whole text. */
  lemma {:induction false} CountPrefix(t: seq<char>, c: char, j: nat)
    requires j <= |t|
    ensures Count(t[..j], c) <= Count(t, c)
  {
    if j < |t| {
      assert t[..|t| - 1][..j] == t[..j];
      CountPrefix(t[..|t| - 1], c, j);
    } else {
      assert t[..j] == t;
    }
  }

  /** The sum of the lengths of `ts`. */
  function TotalLength(ts: seq<seq<char>>): nat
  {
    if |ts| == 0 then 0 else TotalLength(ts[..|ts| - 1]) + |ts[|ts| - 1]|
  }

  /** The texts `ts` with one `sep` between each pair of neighbours. */
  function Join(ts: seq<seq<char>>, sep: char): seq<char>
  {
    if |ts| == 0 then []
    else if |ts| == 1 then ts[0]
    else Join(ts[..|ts| - 1], sep) + [sep] + ts[|ts| - 1]
  }

  /** Joining adds exactly one separator between neighbours, none at the end. */
  lemma {:induction false} JoinLength(ts: seq<seq<char>>, sep: char)
    requires |ts| >= 1
    ensures |Join(ts, sep)| == TotalLength(ts) + |ts| - 1
  {
    if |ts| > 1 {
      JoinLength(ts[..|ts| - 1], sep);
      assert ts[..|ts| - 1][..|ts| - 2] == ts[..|ts| - 2];
    } else {
      assert ts[..0] == [];
    }
  }

  /** A character that occurs in no text and is not the separator does not occur in their join. */
  lemma {:induction false} JoinAvoids(ts: seq<seq<char>>, sep: char, c: char)
    requires c != sep
    requires forall i :: 0 <= i < |ts| ==> c !in ts[i]
    ensures c !in Join(ts, sep)
  {
    if |ts| > 1 {
      JoinAvoids(ts[..|ts| - 1], sep, c);
    }
  }
}
