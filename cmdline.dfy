// Splitting of the ANSI command line that WinMain hands to `main`
// (final_platform_layer.hpp:4630-4705, 4806-4811). Arguments are separated by
// single spaces; quotes are not recognised. The argument strings live in one
// character block; the argument "pointers" are offsets into that block.
module CommandLine {
  import opened Common
  import opened Buffers
  import opened Texts
  import opened CStrings

  /** The argument separator. */
  const SPACE: char := ' '

  /** The arguments of line `s`: the pieces between single spaces, empty pieces included. */
  function Split(s: seq<char>): (r: seq<seq<char>>)
    ensures |r| == Count(s, SPACE) + 1
  {
    if |s| == 0 then [[]]
    else
      var init := Split(s[..|s| - 1]);
      if s[|s| - 1] == SPACE then init + [[]]
      else init[..|init| - 1] + [init[|init| - 1] + [s[|s| - 1]]]
  }

  /** Where each argument of line `s` starts: 0, and one past every space. */
  function Starts(s: seq<char>): (r: seq<nat>)
    ensures |r| == Count(s, SPACE) + 1
  {
    if |s| == 0 then [0]
    else
      var init := Starts(s[..|s| - 1]);
      if s[|s| - 1] == SPACE then init + [|s|] else init
  }

  /** The line with every space replaced by a NUL, as the in-place split leaves it. */
  function Terminate(s: seq<char>): (r: seq<char>)
    ensures |r| == |s|
  {
    seq(|s|, i requires 0 <= i < |s| => if s[i] == SPACE then NUL else s[i])
  }

  /** Win32GetArgumentCount_Internal's result: 0 for a null or empty line, else one more than the spaces. */
  function ArgumentCount(line: Option<seq<char>>): nat
    requires line.Some? ==> Terminated(line.value)
  {
    if line.None? || Len(line.value) == 0 then 0 else Count(Text(line.value), SPACE) + 1
  }

  /** No argument contains the separator. */
  lemma {:induction false} SplitHasNoSpace(s: seq<char>)
    ensures forall i :: 0 <= i < |Split(s)| ==> SPACE !in Split(s)[i]
  {
    if |s| > 0 {
      SplitHasNoSpace(s[..|s| - 1]);
    }
  }

  /** Joining the arguments with single spaces gives back the line. */
  lemma {:induction false} JoinSplit(s: seq<char>)
    ensures Join(Split(s), SPACE) == s
  {
    if |s| > 0 {
      var p := s[..|s| - 1];
      var init := Split(p);
      JoinSplit(p);
      assert s == p + [s[|s| - 1]];
      if s[|s| - 1] != SPACE && |init| > 1 {
        var k := |init| - 1;
        var r := Split(s);
        assert r[..k] == init[..k];
        assert Join(r, SPACE) == Join(init[..k], SPACE) + [SPACE] + init[k] + [s[|s| - 1]];
      }
    }
  }

  /** Characters without a space appended to a line extend its last argument. */
  lemma {:induction false} SplitAppendWord(x: seq<char>, y: seq<char>)
    requires SPACE !in y
    ensures Split(x + y) == Split(x)[..|Split(x)| - 1] + [Split(x)[|Split(x)| - 1] + y]
  {
    if |y| == 0 {
      var r := Split(x);
      assert x + y == x;
      assert r[|r| - 1] + y == r[|r| - 1];
      assert r == r[..|r| - 1] + [r[|r| - 1]];
    } else {
      var y' := y[..|y| - 1];
      assert (x + y)[..|x + y| - 1] == x + y';
      SplitAppendWord(x, y');
      var c := y[|y| - 1];
      assert y == y' + [c];
      assert c != SPACE;
      var init := Split(x + y');
      var m := |Split(x)|;
      assert |init| == m;
      assert Split(x + y) == init[..m - 1] + [init[m - 1] + [c]];
      assert init[..m - 1] == Split(x)[..m - 1];
      assert init[m - 1] + [c] == Split(x)[m - 1] + y;
    }
  }

  /** Splitting arguments joined with single spaces gives them back, when none holds a space. */
  lemma {:induction false} SplitJoin(ts: seq<seq<char>>)
    requires |ts| >= 1
    requires forall i :: 0 <= i < |ts| ==> SPACE !in ts[i]
    ensures Split(Join(ts, SPACE)) == ts
  {
    var last := ts[|ts| - 1];
    if |ts| == 1 {
      SplitAppendWord([], last);
      assert [] + last == last;
    } else {
      var init := ts[..|ts| - 1];
      var x := Join(init, SPACE) + [SPACE];
      SplitJoin(init);
      assert (x + last)[..|x|] == x;
      assert Split(x) == init + [[]] by {
        assert x[..|x| - 1] == Join(init, SPACE);
      }
      SplitAppendWord(x, last);
      assert (init + [[]])[..|init|] == init;
      assert [] + last == last;
      assert ts == init + [last];
      assert Join(ts, SPACE) == x + last;
    }
  }

  /**
   * Argument `i` of line `s` occupies the cells from its start, and is
   * followed by a space or by the end of the line (the end exactly for the
   * last argument).
   */
  ghost predicate Placed(s: seq<char>, i: nat)
    requires i < |Split(s)|
  {
    var a := Starts(s)[i];
    var e := a + |Split(s)[i]|;
    e <= |s| && s[a..e] == Split(s)[i]
    && (i < |Split(s)| - 1 ==> e < |s| && s[e] == SPACE)
    && (i == |Split(s)| - 1 ==> e == |s|)
  }

  /** Every argument of every line is placed where Starts says. */
  lemma {:induction false} SplitPlacement(s: seq<char>, i: nat)
    requires i < |Split(s)|
    ensures Placed(s, i)
  {
    if |s| > 0 {
      var p := s[..|s| - 1];
      if s[|s| - 1] == SPACE {
        if i < |Split(p)| {
          SplitPlacement(p, i);
        }
        PlacedAfterSpace(s, i);
      } else {
        SplitPlacement(p, i);
        PlacedAfterWordChar(s, i);
      }
    }
  }

  /** A trailing space closes the last argument and opens an empty one. */
  lemma PlacedAfterSpace(s: seq<char>, i: nat)
    requires |s| > 0 && s[|s| - 1] == SPACE && i < |Split(s)|
    requires i < |Split(s)| - 1 ==> Placed(s[..|s| - 1], i)
    ensures Placed(s, i)
  {
    var p := s[..|s| - 1];
    if i < |Split(p)| {
      var a := Starts(p)[i];
      var e := a + |Split(p)[i]|;
      assert Starts(s)[i] == a && Split(s)[i] == Split(p)[i];
      assert s[a..e] == p[a..e];
    }
  }

  /** A trailing character other than a space extends the last argument and moves no other. */
  lemma PlacedAfterWordChar(s: seq<char>, i: nat)
    requires |s| > 0 && s[|s| - 1] != SPACE && i < |Split(s)|
    requires Placed(s[..|s| - 1], i)
    ensures Placed(s, i)
  {
    var p := s[..|s| - 1];
    var k := |Split(p)| - 1;
    assert Starts(s) == Starts(p);
    assert Split(s) == Split(p)[..k] + [Split(p)[k] + [s[|s| - 1]]];
    if i < k {
      EarlierArgumentKept(s, i);
    } else {
      LastArgumentExtended(s);
    }
  }

  /** An argument before the last one is untouched by a trailing character. */
  lemma EarlierArgumentKept(s: seq<char>, i: nat)
    requires |s| > 0 && i + 1 < |Split(s[..|s| - 1])|
    requires Split(s)[i] == Split(s[..|s| - 1])[i] && Starts(s) == Starts(s[..|s| - 1])
    requires |Split(s)| == |Split(s[..|s| - 1])|
    requires Placed(s[..|s| - 1], i)
    ensures Placed(s, i)
  {
    var p := s[..|s| - 1];
    var a := Starts(p)[i];
    var e := a + |Split(p)[i]|;
    assert s[a..e] == p[a..e];
    assert s[e] == p[e];
  }

  /** The last argument grows by the trailing character. */
  lemma LastArgumentExtended(s: seq<char>)
    requires |s| > 0 && |Split(s)| == |Split(s[..|s| - 1])|
    requires Split(s)[|Split(s)| - 1] == Split(s[..|s| - 1])[|Split(s)| - 1] + [s[|s| - 1]]
    requires Starts(s) == Starts(s[..|s| - 1])
    requires Placed(s[..|s| - 1], |Split(s)| - 1)
    ensures Placed(s, |Split(s)| - 1)
  {
    var p := s[..|s| - 1];
    var k := |Split(s)| - 1;
    var a := Starts(p)[k];
    assert s[a..|s|] == p[a..|p|] + [s[|s| - 1]];
  }

  /**
   * After the in-place split, reading a C string at the start of argument
   * `i` gives argument `i`, when the line holds no NUL.
   */
  lemma ArgumentReadBack(s: seq<char>, i: nat)
    requires NUL !in s
    requires i < |Split(s)|
    ensures |Starts(s)| == |Split(s)| && Starts(s)[i] <= |s|
    ensures Terminated((Terminate(s) + [NUL])[Starts(s)[i]..])
    ensures Text((Terminate(s) + [NUL])[Starts(s)[i]..]) == Split(s)[i]
  {
    var w := Split(s)[i];
    var a := Starts(s)[i];
    var e := a + |w|;
    SplitPlacement(s, i);
    assert e <= |s| && s[a..e] == w;
    assert e < |s| ==> s[e] == SPACE by {
      if i < |Split(s)| - 1 {
        assert s[e] == SPACE;
      } else {
        assert e == |s|;
      }
    }
    assert SPACE !in s[a..e] by {
      SplitHasNoSpace(s);
    }
    TerminatedWindow(s, a, e);
    TextAt(Terminate(s) + [NUL], a, w);
  }

  /** A window of the line without spaces survives the in-place split, and is followed by a NUL there. */
  lemma TerminatedWindow(s: seq<char>, a: nat, e: nat)
    requires a <= e <= |s| && NUL !in s && SPACE !in s[a..e]
    requires e < |s| ==> s[e] == SPACE
    ensures (Terminate(s) + [NUL])[a..e] == s[a..e]
    ensures (Terminate(s) + [NUL])[e] == NUL
    ensures NUL !in s[a..e]
  {
    var b := Terminate(s) + [NUL];
    forall k | a <= k < e ensures b[k] == s[k] {
      assert s[k] == s[a..e][k - a];
    }
  }

  /**
   * Win32GetArgumentCount_Internal (final_platform_layer.hpp:4630-4647):
   * 0 for a null or empty line, otherwise one plus the number of spaces.
   */
  method GetArgumentCount(sourceAnsiArgs: Option<seq<char>>) returns (result: nat)
    requires sourceAnsiArgs.Some? ==> Terminated(sourceAnsiArgs.value)
    ensures result == ArgumentCount(sourceAnsiArgs)
    ensures sourceAnsiArgs.Some? && Len(sourceAnsiArgs.value) > 0 ==>
              result == |Split(Text(sourceAnsiArgs.value))|
  {
    result := 0;
    if sourceAnsiArgs.Some? {
      var p := sourceAnsiArgs.value;
      ghost var t := Text(p);
      if p[0] != NUL {
        result := result + 1;
        var i := 0;
        while p[i] != NUL
          invariant i <= Len(p)
          invariant result == Count(t[..i], SPACE) + 1
          decreases Len(p) - i
        {
          assert t[..i + 1][..i] == t[..i];
          if p[i] == SPACE {
            result := result + 1;
          }
          i := i + 1;
        }
        assert t[..i] == t;
        CountPrefix(t, SPACE, 0);
      } else {
        LenUnique(p, 0);
      }
    }
  }

  /** The argument offsets `starts` moved to a string area that begins at `base`. */
  function Shifted(base: nat, starts: seq<nat>): (r: seq<nat>)
    ensures |r| == |starts| && forall i :: 0 <= i < |r| ==> r[i] == base + starts[i]
  {
    seq(|starts|, i requires 0 <= i < |starts| => base + starts[i])
  }

  /** What the in-place split has done after reading one more character of the line. */
  lemma ParseStep(t: seq<char>, j: nat)
    requires j < |t|
    ensures Terminate(t[..j + 1]) == Terminate(t[..j]) + [if t[j] == SPACE then NUL else t[j]]
    ensures Starts(t[..j + 1]) == if t[j] == SPACE then Starts(t[..j]) + [j + 1] else Starts(t[..j])
    ensures Count(t[..j + 1], SPACE) == Count(t[..j], SPACE) + if t[j] == SPACE then 1 else 0
  {
    assert t[..j + 1][..j] == t[..j];
  }

  /**
   * Win32ParseArguments_Internal (final_platform_layer.hpp:4648-4678):
   * copies a non-empty line into the string area with every space turned
   * into a NUL, ends it with a NUL, and stores where each argument starts;
   * a null or empty line, or no expected argument, writes nothing.
   */
  method ParseArguments(sourceAnsiArgs: Option<seq<char>>, argCount: nat,
                        destArgsString: array<char>, destOff: nat,
                        destArgArray: array<nat>, argOff: nat)
    requires sourceAnsiArgs.Some? ==> Terminated(sourceAnsiArgs.value)
    requires sourceAnsiArgs.Some? && argCount > 0 && Len(sourceAnsiArgs.value) > 0 ==>
               var t := Text(sourceAnsiArgs.value);
               |Split(t)| <= argCount && destOff + |t| + 1 <= destArgsString.Length
               && argOff + |Split(t)| <= destArgArray.Length
    modifies destArgsString, destArgArray
    ensures sourceAnsiArgs.Some? && argCount > 0 && Len(sourceAnsiArgs.value) > 0 ==>
              var t := Text(sourceAnsiArgs.value);
              destArgsString[..] == Overwrite(old(destArgsString[..]), destOff, Terminate(t) + [NUL])
              && destArgArray[..] == Overwrite(old(destArgArray[..]), argOff, Shifted(destOff, Starts(t)))
    ensures !(sourceAnsiArgs.Some? && argCount > 0 && Len(sourceAnsiArgs.value) > 0) ==>
              destArgsString[..] == old(destArgsString[..]) && destArgArray[..] == old(destArgArray[..])
  {
    if sourceAnsiArgs.Some? && argCount > 0 {
      var s := sourceAnsiArgs.value;
      if s[0] != NUL {
        ghost var t := Text(s);
        ghost var d0 := destArgsString[..];
        ghost var a0 := destArgArray[..];
        var argIndex, currentArgStart, d, written := ScanArguments(s, argCount, destArgsString, destOff, destArgArray, argOff);
        // The last argument.
        assert argIndex < argCount;
        assert destArgArray[..][argOff + argIndex := currentArgStart]
            == Overwrite(a0, argOff, Shifted(destOff, Starts(t))) by {
          OverwriteAppend(a0, argOff, written, currentArgStart);
          assert written + [currentArgStart] == Shifted(destOff, Starts(t));
        }
        destArgArray[argOff + argIndex] := currentArgStart;
        assert destArgsString[..][d := NUL] == Overwrite(d0, destOff, Terminate(t) + [NUL]) by {
          OverwriteAppend(d0, destOff, Terminate(t), NUL);
        }
        destArgsString[d] := NUL;
      } else {
        LenUnique(s, 0);
      }
    }
  }

  /**
   * The scanning loop of Win32ParseArguments_Internal: every character is
   * copied, a space as a NUL that ends the current argument, whose start is
   * recorded. Returns the index and start of the last argument and the
   * write position.
   */
  method ScanArguments(s: seq<char>, argCount: nat, destArgsString: array<char>, destOff: nat,
                       destArgArray: array<nat>, argOff: nat)
    returns (argIndex: nat, currentArgStart: nat, d: nat, ghost written: seq<nat>)
    requires Terminated(s) && Len(s) > 0
    requires |Split(Text(s))| <= argCount
    requires destOff + Len(s) + 1 <= destArgsString.Length
    requires argOff + |Split(Text(s))| <= destArgArray.Length
    modifies destArgsString, destArgArray
    ensures argIndex + 1 == |Starts(Text(s))| && currentArgStart == destOff + Starts(Text(s))[argIndex]
    ensures d == destOff + Len(s)
    ensures destArgsString[..] == Overwrite(old(destArgsString[..]), destOff, Terminate(Text(s)))
    ensures |written| == argIndex && forall a :: 0 <= a < argIndex ==> written[a] == destOff + Starts(Text(s))[a]
    ensures destArgArray[..] == Overwrite(old(destArgArray[..]), argOff, written)
  {
    ghost var t := Text(s);
    ghost var d0 := destArgsString[..];
    ghost var a0 := destArgArray[..];
    written := [];
    argIndex := 0;
    d := destOff;
    currentArgStart := d;
    var i := 0;
    assert Scanned(t, 0, destOff, argOff, d0, a0, destArgsString[..], destArgArray[..], argIndex, currentArgStart, written) by {
      assert t[..0] == [];
      assert Overwrite(d0, destOff, []) == d0;
      assert Overwrite(a0, argOff, []) == a0;
    }
    while s[i] != NUL
      invariant i <= |t| == Len(s) && d == destOff + i
      invariant Scanned(t, i, destOff, argOff, d0, a0, destArgsString[..], destArgArray[..],
                        argIndex, currentArgStart, written)
      decreases |t| - i
    {
      argIndex, currentArgStart, d, written :=
        ScanRound(s, argCount, destArgsString, destOff, destArgArray, argOff, i, argIndex, currentArgStart, d,
                  t, d0, a0, written);
      i := i + 1;
    }
    StopsAtLen(s, i);
    assert t[..i] == t;
  }

  /** One pass of the scanning loop, over the character at `i`. */
  method ScanRound(s: seq<char>, argCount: nat, destArgsString: array<char>, destOff: nat,
                   destArgArray: array<nat>, argOff: nat, i: nat,
                   argIndex: nat, currentArgStart: nat, d: nat,
                   ghost t: seq<char>, ghost d0: seq<char>, ghost a0: seq<nat>, ghost written: seq<nat>)
    returns (argIndex': nat, currentArgStart': nat, d': nat, ghost written': seq<nat>)
    requires Terminated(s) && t == Text(s) && i < |t| && d == destOff + i
    requires |Split(t)| <= argCount
    requires destArgsString.Length == |d0| && destArgArray.Length == |a0|
    requires Scanned(t, i, destOff, argOff, d0, a0, destArgsString[..], destArgArray[..],
                     argIndex, currentArgStart, written)
    modifies destArgsString, destArgArray
    ensures d' == destOff + i + 1
    ensures Scanned(t, i + 1, destOff, argOff, d0, a0, destArgsString[..], destArgArray[..],
                    argIndex', currentArgStart', written')
  {
    var c := s[i];
    assert c == t[i];
    ghost var mem := destArgsString[..];
    ghost var args := destArgArray[..];
    if c == SPACE {
      ScanSpace(t, i, destOff, argOff, d0, a0, mem, args, argIndex, currentArgStart, written);
      CountPrefix(t, SPACE, i + 1);
      assert argIndex < argCount;
      destArgArray[argOff + argIndex] := currentArgStart;
      assert destArgArray[..] == args[argOff + argIndex := currentArgStart];
      written' := written + [currentArgStart];
      argIndex' := argIndex + 1;
      destArgsString[d] := NUL;
      assert destArgsString[..] == mem[d := NUL];
      d' := d + 1;
      currentArgStart' := d';
    } else {
      ScanWordChar(t, i, destOff, argOff, d0, a0, mem, args, argIndex, currentArgStart, written);
      destArgsString[d] := c;
      assert destArgsString[..] == mem[d := c];
      d' := d + 1;
      argIndex', currentArgStart', written' := argIndex, currentArgStart, written;
    }
  }

  /**
   * The state of ScanArguments after the first `i` characters of line `t`:
   * the string area holds them split in place, `argIndex` arguments have been
   * closed and their starts recorded, and the current one starts after the
   * last space.
   */
  ghost predicate Scanned(t: seq<char>, i: nat, destOff: nat, argOff: nat, d0: seq<char>, a0: seq<nat>,
                          mem: seq<char>, args: seq<nat>, argIndex: nat, currentArgStart: nat, written: seq<nat>)
  {
    i <= |t| && destOff + |t| + 1 <= |d0| && argOff + Count(t, SPACE) + 1 <= |a0|
    && argIndex == Count(t[..i], SPACE)
    && currentArgStart == destOff + Starts(t[..i])[argIndex]
    && mem == Overwrite(d0, destOff, Terminate(t[..i]))
    && |written| == argIndex && argIndex <= Count(t, SPACE)
    && (forall a :: 0 <= a < argIndex ==> written[a] == destOff + Starts(t[..i])[a])
    && args == Overwrite(a0, argOff, written)
  }

  /** A space closes the current argument: its start is recorded and the space becomes a NUL. */
  lemma ScanSpace(t: seq<char>, i: nat, destOff: nat, argOff: nat, d0: seq<char>, a0: seq<nat>,
                  mem: seq<char>, args: seq<nat>, argIndex: nat, currentArgStart: nat, written: seq<nat>)
    requires Scanned(t, i, destOff, argOff, d0, a0, mem, args, argIndex, currentArgStart, written)
    requires i < |t| && t[i] == SPACE
    ensures argIndex + 1 == Count(t[..i + 1], SPACE) && argOff + argIndex < |args| && destOff + i < |mem|
    ensures Scanned(t, i + 1, destOff, argOff, d0, a0, mem[destOff + i := NUL],
                    args[argOff + argIndex := currentArgStart], argIndex + 1, destOff + i + 1,
                    written + [currentArgStart])
  {
    ParseStep(t, i);
    CountPrefix(t, SPACE, i + 1);
    OverwriteAppend(d0, destOff, Terminate(t[..i]), NUL);
    OverwriteAppend(a0, argOff, written, currentArgStart);
  }

  /** Any other character is copied and extends the current argument. */
  lemma ScanWordChar(t: seq<char>, i: nat, destOff: nat, argOff: nat, d0: seq<char>, a0: seq<nat>,
                     mem: seq<char>, args: seq<nat>, argIndex: nat, currentArgStart: nat, written: seq<nat>)
    requires Scanned(t, i, destOff, argOff, d0, a0, mem, args, argIndex, currentArgStart, written)
    requires i < |t| && t[i] != SPACE
    ensures destOff + i < |mem|
    ensures Scanned(t, i + 1, destOff, argOff, d0, a0, mem[destOff + i := t[i]], args,
                    argIndex, currentArgStart, written)
  {
    ParseStep(t, i);
    CountPrefix(t, SPACE, i + 1);
    OverwriteAppend(d0, destOff, Terminate(t[..i]), t[i]);
  }

  /** The arguments the line holds: none for a null or empty line, else its space-separated words. */
  function Arguments(line: Option<seq<char>>): (r: seq<seq<char>>)
    requires line.Some? ==> Terminated(line.value)
    ensures |r| == ArgumentCount(line)
    ensures line.Some? && Len(line.value) > 0 ==> Join(r, SPACE) == Text(line.value)
  {
    if ArgumentCount(line) == 0 then [] else JoinSplit(LineText(line)); Split(LineText(line))
  }

  /** Position `p` of `mem` starts a terminated string reading `text`. */
  ghost predicate ReadsAt(mem: seq<char>, p: nat, text: seq<char>)
  {
    p <= |mem| && Terminated(mem[p..]) && Text(mem[p..]) == text
  }

  /** Entry `i` of `argv` points into `mem` at a terminated string reading `texts[i]`. */
  ghost predicate PointsAt(mem: seq<char>, argv: seq<nat>, texts: seq<seq<char>>)
  {
    |argv| == |texts| && forall i :: 0 <= i < |argv| ==> ReadsAt(mem, argv[i], texts[i])
  }

  /** The line's text, empty for a null line. */
  function LineText(line: Option<seq<char>>): (t: seq<char>)
    requires line.Some? ==> Terminated(line.value)
  {
    if line.None? then [] else Text(line.value)
  }

  /**
   * ParseCommandLineAnsiArguments_Internal (final_platform_layer.hpp:4679-4705):
   * the source reserves one zeroed block holding `moduleLen + lineLen + count`
   * characters for the argument strings, 8 bytes of padding and `count`
   * argument pointers, where `count` is one plus the number of line
   * arguments. Here the strings and the argument slots are two fresh zeroed
   * arrays, and a slot holds the index in the strings where its argument
   * starts. Argument 0 is the module path and argument `i` is the `i`-th
   * piece of the line.
   */
  method ParseCommandLineAnsiArguments(moduleFilePath: seq<char>, sourceArgsString: Option<seq<char>>)
    returns (argsString: array<char>, args: array<nat>, count: nat)
    requires Terminated(moduleFilePath)
    requires sourceArgsString.Some? ==> Terminated(sourceArgsString.value)
    ensures fresh(argsString) && fresh(args)
    ensures count == 1 + ArgumentCount(sourceArgsString)
    ensures argsString.Length == Len(moduleFilePath) + |LineText(sourceArgsString)| + count
    ensures args.Length == count && args[0] == 0
    ensures PointsAt(argsString[..], args[..], [Text(moduleFilePath)] + Arguments(sourceArgsString))
  {
    var commandLineArgCount := GetArgumentCount(sourceArgsString);
    count := 1 + commandLineArgCount;
    var moduleFilePathLen := GetAnsiStringLength(Some(moduleFilePath));
    var sourceArgsLen := GetAnsiStringLength(sourceArgsString);
    ghost var t := LineText(sourceArgsString);
    assert sourceArgsLen == |t|;
    var argsStringLen := moduleFilePathLen + sourceArgsLen;
    // MemoryAllocate hands out zeroed memory; the two parts are two arrays here.
    argsString := new char[argsStringLen + count](_ => NUL);
    args := new nat[count](_ => 0);
    ghost var zero := argsString[..];
    LenUnique(moduleFilePath, moduleFilePathLen);
    args[0] := CopyAnsiString(moduleFilePath, moduleFilePathLen, argsString, 0, moduleFilePathLen + 1);
    ghost var m := Text(moduleFilePath) + [NUL];
    assert argsString[..] == Overwrite(zero, 0, m);
    ghost var a1 := args[..];
    ParseArguments(sourceArgsString, count - 1, argsString, moduleFilePathLen + 1, args, 1);
    BlockAssembled(zero, Text(moduleFilePath), sourceArgsString, a1, argsString[..], args[..]);
  }

  /**
   * The block written by ParseCommandLineAnsiArguments: the module path at 0,
   * then (for a non-empty line) the split line right after its terminator.
   */
  lemma BlockAssembled(zero: seq<char>, mt: seq<char>, line: Option<seq<char>>, a1: seq<nat>,
                       mem: seq<char>, argv: seq<nat>)
    requires line.Some? ==> Terminated(line.value)
    requires NUL !in mt
    requires |zero| == |mt| + |LineText(line)| + 1 + ArgumentCount(line)
    requires |a1| == 1 + ArgumentCount(line) && a1[0] == 0
    requires ArgumentCount(line) > 0 ==>
               mem == Overwrite(Overwrite(zero, 0, mt + [NUL]), |mt| + 1, Terminate(LineText(line)) + [NUL])
               && argv == Overwrite(a1, 1, Shifted(|mt| + 1, Starts(LineText(line))))
    requires ArgumentCount(line) == 0 ==> mem == Overwrite(zero, 0, mt + [NUL]) && argv == a1
    ensures PointsAt(mem, argv, [mt] + Arguments(line))
  {
    var t := LineText(line);
    if ArgumentCount(line) > 0 {
      var base := |mt| + 1;
      var w := Terminate(t) + [NUL];
      assert mem[..base] == mt + [NUL] && mem[base..base + |w|] == w by {
        SecondWriteKeepsFirst(zero, mt + [NUL], base, w);
      }
      assert forall i :: 1 <= i < |argv| ==> argv[i] == base + Starts(t)[i - 1];
      BlockReadBack(mem, mt, t, argv);
    } else {
      TextAt(mem, 0, mt);
      assert mem[argv[0]..] == mem;
    }
  }

  /**
   * The argument block, holding the module path and then the split line,
   * reads back as the module path and the line's arguments.
   */
  lemma BlockReadBack(mem: seq<char>, mt: seq<char>, t: seq<char>, argv: seq<nat>)
    requires NUL !in mt && NUL !in t
    requires |mt| + 1 + |t| + 1 <= |mem|
    requires mem[..|mt| + 1] == mt + [NUL]
    requires mem[|mt| + 1..|mt| + 1 + |t| + 1] == Terminate(t) + [NUL]
    requires |argv| == |Split(t)| + 1
    requires forall i :: 1 <= i < |argv| ==> argv[i] == |mt| + 1 + Starts(t)[i - 1]
    requires argv[0] == 0
    ensures PointsAt(mem, argv, [mt] + Split(t))
  {
    var texts := [mt] + Split(t);
    assert ReadsAt(mem, argv[0], texts[0]) by {
      assert mem[..|mt|] == mt && mem[|mt|] == NUL by {
        assert mem[..|mt|] == mem[..|mt| + 1][..|mt|];
      }
      TextAt(mem, 0, mt);
      assert mem[0..] == mem;
    }
    forall i | 1 <= i < |argv|
      ensures ReadsAt(mem, argv[i], texts[i])
    {
      assert texts[i] == Split(t)[i - 1];
      ArgumentInBlock(mem, |mt| + 1, t, i - 1);
    }
  }

  /** Argument `i` of the line written at `off` reads back where Starts places it. */
  lemma ArgumentInBlock(mem: seq<char>, off: nat, t: seq<char>, i: nat)
    requires NUL !in t && i < |Split(t)|
    requires off + |t| + 1 <= |mem| && mem[off..off + |t| + 1] == Terminate(t) + [NUL]
    ensures |Starts(t)| == |Split(t)| && ReadsAt(mem, off + Starts(t)[i], Split(t)[i])
  {
    var w := Terminate(t) + [NUL];
    var a := Starts(t)[i];
    assert a <= |t| && Terminated(w[a..]) && Text(w[a..]) == Split(t)[i] by {
      ArgumentReadBack(t, i);
    }
    TextInWindow(mem, off, w, a);
  }

  /** A second write placed after a first one leaves both readable. */
  lemma SecondWriteKeepsFirst(zero: seq<char>, m: seq<char>, base: nat, w: seq<char>)
    requires |m| <= base && base + |w| <= |zero|
    ensures Overwrite(Overwrite(zero, 0, m), base, w)[..|m|] == m
    ensures Overwrite(Overwrite(zero, 0, m), base, w)[base..base + |w|] == w
  {
    var f := Overwrite(Overwrite(zero, 0, m), base, w);
    forall k | 0 <= k < |m| ensures f[k] == m[k] {
      OverwriteAt(Overwrite(zero, 0, m), base, w, k);
      OverwriteAt(zero, 0, m, k);
    }
  }
}
