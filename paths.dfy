// Path helpers of final_platform_layer.hpp (namespace paths), Win32 build.
// Results that the source returns as pointers into the input are offsets into
// the input's memory; a null result is `None` (or `false` for the helpers that
// write into a destination buffer and return it).
module Paths {
  import opened Common
  import opened Buffers
  import opened Texts
  import opened CStrings

  /** Path separator of the Win32 build (final_platform_layer.hpp:1671-1677). */
  const PATH_SEPARATOR: char := '\\'
  /** File extension separator (final_platform_layer.hpp:1671-1677). */
  const FILE_EXT_SEPARATOR: char := '.'

  /** Where the file name of path `t` starts: after its last separator, or at 0. */
  function NameStart(t: seq<char>): (n: nat)
    ensures n <= |t| && PATH_SEPARATOR !in t[n..]
    ensures n > 0 ==> t[n - 1] == PATH_SEPARATOR
  {
    match LastIndex(t, PATH_SEPARATOR)
    case None => 0
    case Some(k) => k + 1
  }

  /** Where the extension of `t` starts: the first dot of its file name, if any. */
  function ExtensionStart(t: seq<char>): (r: Option<nat>)
    ensures r.None? ==> FILE_EXT_SEPARATOR !in t[NameStart(t)..]
    ensures r.Some? ==> NameStart(t) <= r.value < |t| && t[r.value] == FILE_EXT_SEPARATOR
                        && FILE_EXT_SEPARATOR !in t[NameStart(t)..r.value]
  {
    var n := NameStart(t);
    match FirstIndex(t[n..], FILE_EXT_SEPARATOR)
    case None => None
    case Some(k) =>
      assert t[n..][..k] == t[n..n + k];
      Some(n + k)
  }

  /** How much of `t` ExtractFilePath keeps: everything before the last separator (0 if none). */
  function DirectoryLength(t: seq<char>): (n: nat)
    ensures n < |t| || n == 0
    ensures n > 0 ==> t[n] == PATH_SEPARATOR && PATH_SEPARATOR !in t[n + 1..]
    ensures n == 0 && |t| > 0 ==> PATH_SEPARATOR !in t[1..]
  {
    match LastIndex(t, PATH_SEPARATOR)
    case None => 0
    case Some(k) => k
  }

  /** How much of `t` ChangeFileExtension keeps: up to the last dot of the file name, or all of it. */
  function StemLength(t: seq<char>): (n: nat)
    ensures NameStart(t) <= n <= |t|
    ensures n < |t| ==> t[n] == FILE_EXT_SEPARATOR && FILE_EXT_SEPARATOR !in t[n + 1..]
    ensures n == |t| ==> FILE_EXT_SEPARATOR !in t[NameStart(t)..]
  {
    var s := NameStart(t);
    match LastIndex(t[s..], FILE_EXT_SEPARATOR)
    case None => |t|
    case Some(k) =>
      assert t[s + k + 1..] == t[s..][k + 1..];
      s + k
  }

  /** Scans the C string `mem` for the last occurrence of `c`, as the source's pointer loops do. */
  method ScanLast(mem: seq<char>, from: nat, c: char) returns (r: Option<nat>, len: nat)
    requires Terminated(mem) && from <= Len(mem)
    ensures len == Len(mem)
    ensures r == match LastIndex(Text(mem)[from..], c) { case None => None case Some(k) => Some(from + k) }
  {
    ghost var t := Text(mem);
    var i := from;
    r := None;
    while mem[i] != NUL
      invariant from <= i <= |t| == Len(mem)
      invariant r.None? ==> c !in t[from..i]
      invariant r.Some? ==> from <= r.value < i && t[r.value] == c && c !in t[r.value + 1..i]
      decreases |t| - i
    {
      if mem[i] == c {
        r := Some(i);
      } else {
        assert t[from..i + 1] == t[from..i] + [t[i]];
        assert r.Some? ==> t[r.value + 1..i + 1] == t[r.value + 1..i] + [t[i]];
      }
      i := i + 1;
    }
    StopsAtLen(mem, i);
    assert t[from..i] == t[from..];
    if r.Some? {
      assert t[from..][r.value - from + 1..] == t[r.value + 1..i];
      LastIndexIs(t[from..], c, r.value - from);
    } else {
      LastIndexAbsent(t[from..], c);
    }
    len := i;
  }

  /**
   * ExtractFileName (final_platform_layer.hpp:1936-1953): the file name
   * starts after the last separator, or is the whole path; null stays null.
   */
  method ExtractFileName(sourcePath: Option<seq<char>>) returns (r: Option<nat>)
    requires sourcePath.Some? ==> Terminated(sourcePath.value)
    ensures sourcePath.None? ==> r.None?
    ensures sourcePath.Some? ==> r == Some(NameStart(Text(sourcePath.value)))
  {
    r := None;
    if sourcePath.Some? {
      var last, _ := ScanLast(sourcePath.value, 0, PATH_SEPARATOR);
      assert Text(sourcePath.value)[0..] == Text(sourcePath.value);
      r := Some(0);
      if last.Some? {
        r := Some(last.value + 1);
      }
    }
  }

  /**
   * ExtractFileExtension (final_platform_layer.hpp:1914-1934): the extension
   * starts at the FIRST dot of the file name; none when the name has no dot.
   */
  method ExtractFileExtension(sourcePath: Option<seq<char>>) returns (r: Option<nat>)
    requires sourcePath.Some? ==> Terminated(sourcePath.value)
    ensures sourcePath.None? ==> r.None?
    ensures sourcePath.Some? ==> r == ExtensionStart(Text(sourcePath.value))
  {
    r := None;
    if sourcePath.Some? {
      var mem := sourcePath.value;
      ghost var t := Text(mem);
      var filename := ExtractFileName(sourcePath);
      if filename.Some? {
        var n := filename.value;
        r := ScanFirst(mem, n, FILE_EXT_SEPARATOR);
      }
    }
  }

  /** Scans the C string `mem` from `from` for the first occurrence of `c`, stopping there. */
  method ScanFirst(mem: seq<char>, from: nat, c: char) returns (r: Option<nat>)
    requires Terminated(mem) && from <= Len(mem)
    ensures r == match FirstIndex(Text(mem)[from..], c) { case None => None case Some(k) => Some(from + k) }
  {
    ghost var t := Text(mem);
    var i := from;
    r := None;
    while mem[i] != NUL
      invariant from <= i <= Len(mem)
      invariant c !in t[from..i]
      decreases Len(mem) - i
    {
      if mem[i] == c {
        assert t[from..][..i - from] == t[from..i];
        FirstIndexIs(t[from..], c, i - from);
        return Some(i);
      }
      assert t[from..i + 1] == t[from..i] + [t[i]];
      i := i + 1;
    }
    StopsAtLen(mem, i);
    assert t[from..] == t[from..i];
  }

  /**
   * ExtractFilePath (final_platform_layer.hpp:1892-1912): copies the part
   * before the last separator and returns the destination; returns null when
   * there is no separator or the only one is at index 0.
   */
  method ExtractFilePath(sourcePath: Option<seq<char>>, destPath: array<char>, maxDestLen: nat) returns (r: bool)
    requires sourcePath.Some? ==> Terminated(sourcePath.value)
    requires maxDestLen >= (if sourcePath.Some? then Len(sourcePath.value) else 0) + 1
    requires maxDestLen <= destPath.Length
    modifies destPath
    ensures r <==> sourcePath.Some? && DirectoryLength(Text(sourcePath.value)) != 0
    ensures r ==> destPath[..] == Overwrite(old(destPath[..]), 0,
                    Text(sourcePath.value)[..DirectoryLength(Text(sourcePath.value))] + [NUL])
    ensures !r ==> destPath[..] == old(destPath[..])
  {
    var sourceLen := GetAnsiStringLength(sourcePath);
    r := false;
    if sourcePath.Some? {
      var mem := sourcePath.value;
      var last, _ := ScanLast(mem, 0, PATH_SEPARATOR);
      assert Text(mem)[0..] == Text(mem);
      var copyLen := if last.Some? then last.value else 0;
      if copyLen != 0 {
        assert Text(mem)[..copyLen] == mem[..copyLen];
        var _ := CopyAnsiString(mem, copyLen, destPath, 0, maxDestLen);
        r := true;
      }
    }
  }

  /**
   * ChangeFileExtension (final_platform_layer.hpp:1955-2004): writes the path
   * up to the LAST dot of its file name (all of it without a dot), then the
   * new extension and a NUL; null when the path is null.
   */
  method ChangeFileExtension(filePath: Option<seq<char>>, newFileExtension: Option<seq<char>>,
                             destPath: array<char>, maxDestLen: nat) returns (r: bool)
    requires filePath.Some? ==> Terminated(filePath.value)
    requires newFileExtension.Some? ==> Terminated(newFileExtension.value)
    requires filePath.Some? ==> newFileExtension.Some?
    requires maxDestLen >= (if filePath.Some? then Len(filePath.value) else 0)
                         + (if newFileExtension.Some? then Len(newFileExtension.value) else 0) + 2
    requires maxDestLen <= destPath.Length
    modifies destPath
    ensures r <==> filePath.Some?
    ensures r ==> destPath[..] == Overwrite(old(destPath[..]), 0,
                    ChangedExtension(Text(filePath.value), Text(newFileExtension.value)) + [NUL])
    ensures !r ==> destPath[..] == old(destPath[..])
  {
    var pathLen := GetAnsiStringLength(filePath);
    var extLen := GetAnsiStringLength(newFileExtension);
    r := false;
    if filePath.Some? {
      var mem := filePath.value;
      ghost var t := Text(mem);
      var copyLen := FindStemLength(mem, pathLen);
      ghost var before := destPath[..];
      assert mem[..copyLen] == t[..copyLen] by {
        assert t[..copyLen] == mem[..Len(mem)][..copyLen];
      }
      var _ := CopyAnsiString(mem, copyLen, destPath, 0, maxDestLen);
      var ext := newFileExtension.value;
      LenUnique(ext, extLen);
      var _ := CopyAnsiString(ext, extLen, destPath, copyLen, maxDestLen - copyLen);
      ChangeAssembly(before, t, copyLen, Text(ext));
      r := true;
    }
  }

  /**
   * The scans of ChangeFileExtension: the last separator, then the last dot
   * after it; the kept part ends at that dot, or is the whole path.
   */
  method FindStemLength(mem: seq<char>, pathLen: nat) returns (copyLen: nat)
    requires Terminated(mem) && pathLen == Len(mem)
    ensures copyLen == StemLength(Text(mem))
  {
    ghost var t := Text(mem);
    var lastPathSeparator, _ := ScanLast(mem, 0, PATH_SEPARATOR);
    var nameStart := if lastPathSeparator.Some? then lastPathSeparator.value + 1 else 0;
    assert nameStart == NameStart(t) by {
      assert t[0..] == t;
    }
    var lastExtSeparator, _ := ScanLast(mem, nameStart, FILE_EXT_SEPARATOR);
    copyLen := if lastExtSeparator.Some? then lastExtSeparator.value else pathLen;
  }

  /** The text ChangeFileExtension produces for path `t` and extension `e`. */
  function ChangedExtension(t: seq<char>, e: seq<char>): seq<char>
  {
    t[..StemLength(t)] + e
  }

  /** ChangeFileExtension's two copies leave the kept prefix, the extension and a NUL. */
  lemma ChangeAssembly(d0: seq<char>, t: seq<char>, n: nat, e: seq<char>)
    requires n <= |t| && n + |e| + 1 <= |d0|
    ensures Overwrite(Overwrite(d0, 0, t[..n] + [NUL]), n, e + [NUL]) == Overwrite(d0, 0, t[..n] + e + [NUL])
  {
    OverwriteOverlap(d0, 0, t[..n] + [NUL], n, e + [NUL]);
    assert (t[..n] + [NUL])[..n] + (e + [NUL]) == t[..n] + e + [NUL];
  }

  /** The texts of the C strings `paths`. */
  function TextsOf(paths: seq<seq<char>>): (ts: seq<seq<char>>)
    requires forall i :: 0 <= i < |paths| ==> Terminated(paths[i])
    ensures |ts| == |paths| && forall i :: 0 <= i < |paths| ==> ts[i] == Text(paths[i])
  {
    seq(|paths|, i requires 0 <= i < |paths| => Text(paths[i]))
  }

  /** What CombinePath has written after the first `i` of `ts` paths (the separator after each). */
  ghost function CombinedPrefix(ts: seq<seq<char>>, i: nat): (p: seq<char>)
    requires i <= |ts|
  {
    if i == 0 then [] else Join(ts[..i], PATH_SEPARATOR) + [PATH_SEPARATOR]
  }

  /**
   * CombinePath (final_platform_layer.hpp:2006-2027): writes the paths joined
   * by exactly one separator each, no trailing separator, then a NUL, and
   * returns the destination.
   */
  method CombinePath(destPath: array<char>, maxDestPathLen: nat, paths: seq<seq<char>>) returns (r: nat)
    requires forall i :: 0 <= i < |paths| ==> Terminated(paths[i])
    requires maxDestPathLen <= destPath.Length
    requires |paths| > 0 ==> |Join(TextsOf(paths), PATH_SEPARATOR)| + 1 <= maxDestPathLen
    requires |paths| == 0 ==> destPath.Length >= 1
    modifies destPath
    ensures r == 0
    ensures destPath[..] == Overwrite(old(destPath[..]), 0, Join(TextsOf(paths), PATH_SEPARATOR) + [NUL])
  {
    ghost var ts := TextsOf(paths);
    ghost var n := |paths|;
    ghost var d0 := destPath[..];
    var curDestPosition := 0;
    var currentDestPtr := 0;
    var pathIndex := 0;
    while pathIndex < |paths|
      invariant pathIndex <= n && currentDestPtr == curDestPosition
      invariant pathIndex < n || n == 0 ==>
        |CombinedPrefix(ts, pathIndex)| <= maxDestPathLen &&
        curDestPosition == |CombinedPrefix(ts, pathIndex)| &&
        destPath[..] == Overwrite(d0, 0, CombinedPrefix(ts, pathIndex))
      invariant pathIndex == n > 0 ==>
        curDestPosition == |Join(ts, PATH_SEPARATOR)| &&
        destPath[..] == Overwrite(d0, 0, Join(ts, PATH_SEPARATOR) + [NUL])
    {
      ghost var prefix := CombinedPrefix(ts, pathIndex);
      assert |prefix| + |ts[pathIndex]| <= |Join(ts, PATH_SEPARATOR)| && prefix + ts[pathIndex] == Join(ts[..pathIndex + 1], PATH_SEPARATOR) by {
        PrefixThenPath(ts, pathIndex);
        JoinPrefixLength(ts, pathIndex + 1, PATH_SEPARATOR);
      }
      var requiredPathLen := CombineRound(destPath, maxDestPathLen, paths[pathIndex],
                                          pathIndex < |paths| - 1, currentDestPtr, d0, prefix);
      currentDestPtr := currentDestPtr + requiredPathLen;
      curDestPosition := curDestPosition + requiredPathLen;
      pathIndex := pathIndex + 1;
      if pathIndex < n {
        assert |CombinedPrefix(ts, pathIndex)| <= maxDestPathLen by {
          PrefixThenPath(ts, pathIndex);
          JoinPrefixLength(ts, pathIndex + 1, PATH_SEPARATOR);
        }
      } else {
        assert ts[..pathIndex] == ts;
      }
    }
    if n == 0 {
      assert Join(ts, PATH_SEPARATOR) + [NUL] == [NUL];
    } else {
      OverwriteAt(d0, 0, Join(ts, PATH_SEPARATOR) + [NUL], currentDestPtr);
    }
    destPath[currentDestPtr] := NUL;
    r := 0;
  }

  /**
   * The body of CombinePath's loop for one path written at `pos`, after the
   * `prefix` written so far: copies the path with a NUL, then overwrites that
   * NUL with a separator unless the path is the last one; returns how far the
   * position advances.
   */
  method CombineRound(destPath: array<char>, maxDestPathLen: nat, path: seq<char>, requireSeparator: bool,
                      pos: nat, ghost d0: seq<char>, ghost prefix: seq<char>)
    returns (requiredPathLen: nat)
    requires Terminated(path) && pos == |prefix|
    requires pos + Len(path) + 1 <= maxDestPathLen <= destPath.Length == |d0|
    requires destPath[..] == Overwrite(d0, 0, prefix)
    modifies destPath
    ensures requiredPathLen == Len(path) + (if requireSeparator then 1 else 0)
    ensures requireSeparator ==> destPath[..] == Overwrite(d0, 0, prefix + Text(path) + [PATH_SEPARATOR])
    ensures !requireSeparator ==> destPath[..] == Overwrite(d0, 0, prefix + Text(path) + [NUL])
  {
    var pathLen := GetAnsiStringLength(Some(path));
    requiredPathLen := if requireSeparator then pathLen + 1 else pathLen;
    LenUnique(path, pathLen);
    var _ := CopyAnsiString(path, pathLen, destPath, pos, maxDestPathLen - pos);
    OverwriteThen(d0, 0, prefix, Text(path) + [NUL]);
    assert prefix + (Text(path) + [NUL]) == prefix + Text(path) + [NUL];
    if requireSeparator {
      OverwriteLast(d0, 0, prefix + Text(path), NUL, PATH_SEPARATOR);
      destPath[pos + pathLen] := PATH_SEPARATOR;
    }
  }

  /** CombinePath's prefix before path `i`, followed by that path, is the join of the paths up to `i`. */
  lemma PrefixThenPath(ts: seq<seq<char>>, i: nat)
    requires i < |ts|
    ensures CombinedPrefix(ts, i) + ts[i] == Join(ts[..i + 1], PATH_SEPARATOR)
  {
    if i == 0 {
      assert ts[..1] == [ts[0]];
    } else {
      assert ts[..i + 1][..i] == ts[..i];
    }
  }

  /** Joining the first `k` texts gives no more than joining all of them. */
  lemma {:induction false} JoinPrefixLength(ts: seq<seq<char>>, k: nat, sep: char)
    requires 1 <= k <= |ts|
    ensures |Join(ts[..k], sep)| <= |Join(ts, sep)|
  {
    if k == |ts| {
      assert ts[..k] == ts;
    } else {
      var init := ts[..|ts| - 1];
      JoinPrefixLength(init, k, sep);
      assert init[..k] == ts[..k];
    }
  }

  /**
   * CombinePath and ExtractFileName agree: the file name of a combined path
   * is its last component when that component holds no separator.
   */
  lemma FileNameOfCombined(ts: seq<seq<char>>)
    requires |ts| >= 1 && PATH_SEPARATOR !in ts[|ts| - 1]
    ensures Join(ts, PATH_SEPARATOR)[NameStart(Join(ts, PATH_SEPARATOR))..] == ts[|ts| - 1]
  {
    var j := Join(ts, PATH_SEPARATOR);
    if |ts| > 1 {
      var head := Join(ts[..|ts| - 1], PATH_SEPARATOR);
      assert j == head + [PATH_SEPARATOR] + ts[|ts| - 1];
      assert j[|head| + 1..] == ts[|ts| - 1];
      LastIndexIs(j, PATH_SEPARATOR, |head|);
    } else {
      LastIndexAbsent(j, PATH_SEPARATOR);
    }
  }

  /**
   * CombinePath and ExtractFilePath agree: the directory of a combined path
   * is the combination of all but its last component, which holds no separator.
   */
  lemma DirectoryOfCombined(ts: seq<seq<char>>)
    requires |ts| >= 2 && PATH_SEPARATOR !in ts[|ts| - 1]
    ensures DirectoryLength(Join(ts, PATH_SEPARATOR)) == |Join(ts[..|ts| - 1], PATH_SEPARATOR)|
    ensures Join(ts, PATH_SEPARATOR)[..|Join(ts[..|ts| - 1], PATH_SEPARATOR)|] == Join(ts[..|ts| - 1], PATH_SEPARATOR)
  {
    var j := Join(ts, PATH_SEPARATOR);
    var head := Join(ts[..|ts| - 1], PATH_SEPARATOR);
    assert j == head + [PATH_SEPARATOR] + ts[|ts| - 1];
    assert j[|head| + 1..] == ts[|ts| - 1];
    LastIndexIs(j, PATH_SEPARATOR, |head|);
  }

  /** ChangeFileExtension keeps the directory and the file name's start. */
  lemma ChangeKeepsDirectory(t: seq<char>, e: seq<char>)
    requires PATH_SEPARATOR !in e
    ensures NameStart(ChangedExtension(t, e)) == NameStart(t)
    ensures ChangedExtension(t, e)[..NameStart(t)] == t[..NameStart(t)]
  {
    var n := StemLength(t);
    var s := NameStart(t);
    var c := ChangedExtension(t, e);
    assert c[s..] == t[s..n] + e;
    assert PATH_SEPARATOR !in t[s..n] by { assert t[s..n] == t[s..][..n - s]; }
    if s > 0 {
      LastIndexIs(c, PATH_SEPARATOR, s - 1);
    } else {
      LastIndexAbsent(c, PATH_SEPARATOR);
    }
  }

  /**
   * Changing the extension twice is changing it once, when the first new
   * extension is a dot followed by neither a dot nor a separator.
   */
  lemma ChangeExtensionTwice(t: seq<char>, e1: seq<char>, e2: seq<char>)
    requires |e1| >= 1 && e1[0] == FILE_EXT_SEPARATOR
    requires FILE_EXT_SEPARATOR !in e1[1..] && PATH_SEPARATOR !in e1
    ensures ChangedExtension(ChangedExtension(t, e1), e2) == ChangedExtension(t, e2)
  {
    var n := StemLength(t);
    var c := ChangedExtension(t, e1);
    ChangeKeepsDirectory(t, e1);
    var s := NameStart(t);
    assert c[s..][n - s..] == e1;
    assert c[s..][n - s + 1..] == e1[1..];
    LastIndexIs(c[s..], FILE_EXT_SEPARATOR, n - s);
    assert StemLength(c) == n;
    assert c[..n] == t[..n];
  }

  /**
   * ExtractFileExtension reads back the extension ChangeFileExtension wrote,
   * when the kept file name holds no dot and the extension is a dot followed
   * by no separator.
   */
  lemma ExtensionOfChanged(t: seq<char>, e: seq<char>)
    requires |e| >= 1 && e[0] == FILE_EXT_SEPARATOR && PATH_SEPARATOR !in e
    requires FILE_EXT_SEPARATOR !in t[NameStart(t)..StemLength(t)]
    ensures ExtensionStart(ChangedExtension(t, e)) == Some(StemLength(t))
    ensures ChangedExtension(t, e)[StemLength(t)..] == e
  {
    var n := StemLength(t);
    var c := ChangedExtension(t, e);
    ChangeKeepsDirectory(t, e);
    var s := NameStart(t);
    assert c[s..][..n - s] == t[s..n];
    assert c[s..][n - s] == FILE_EXT_SEPARATOR;
    FirstIndexIs(c[s..], FILE_EXT_SEPARATOR, n - s);
  }

  /**
   * The two extension helpers disagree on every file name with two dots:
   * ExtractFileExtension starts at the first dot (`.b.c` for `a.b.c`) while
   * ChangeFileExtension replaces from the last (`a.b` is kept).
   */
  lemma FirstDotVersusLastDot(t: seq<char>, i: nat, j: nat)
    requires NameStart(t) <= i < j < |t|
    requires t[i] == FILE_EXT_SEPARATOR && t[j] == FILE_EXT_SEPARATOR
    ensures ExtensionStart(t).Some? && ExtensionStart(t).value <= i
    ensures j <= StemLength(t)
  {
    var s := NameStart(t);
    AbsentBefore(t, s, |t|, i, FILE_EXT_SEPARATOR);
    assert t[s..|t|] == t[s..];
    var r := ExtensionStart(t).value;
    AbsentBefore(t, s, r, i, FILE_EXT_SEPARATOR);
    var n := StemLength(t);
    if n < |t| {
      AbsentBefore(t, n + 1, |t|, j, FILE_EXT_SEPARATOR);
    }
  }

  /** A character found at `k` but absent from t[lo..hi] lies outside lo .. hi-1. */
  lemma AbsentBefore(t: seq<char>, lo: nat, hi: nat, k: nat, c: char)
    requires lo <= hi <= |t| && k < |t| && t[k] == c
    ensures c !in t[lo..hi] ==> k < lo || hi <= k
  {
    assert forall m | lo <= m < hi :: t[lo..hi][m - lo] == t[m];
  }

  /** The example the comment above names. */
  lemma FirstDotVersusLastDotExample()
    ensures ExtensionStart("a.b.c") == Some(1)
    ensures StemLength("a.b.c") == 3
    ensures ChangedExtension("a.b.c", ".d") == "a.b.d"
  {
    var t := "a.b.c";
    LastIndexAbsent(t, PATH_SEPARATOR);
    assert NameStart(t) == 0;
    assert t[0..] == t;
    FirstIndexIs(t, FILE_EXT_SEPARATOR, 1);
    assert t[4..] == "c";
    LastIndexIs(t, FILE_EXT_SEPARATOR, 3);
  }

  /**
   * ExtractFilePath treats a path whose only separator is its first
   * character (a root such as `\a`) like a path without directory: the
   * kept length is 0, so the result is null.
   */
  lemma RootOnlyPathHasNoDirectory(t: seq<char>)
    requires |t| >= 1 && t[0] == PATH_SEPARATOR && PATH_SEPARATOR !in t[1..]
    ensures DirectoryLength(t) == 0
    ensures NameStart(t) == 1
  {
    LastIndexIs(t, PATH_SEPARATOR, 0);
  }
}
