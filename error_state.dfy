// The last-error state (final_platform_layer.hpp:1683-1730, 4565-4606), built
// without FPL_ENABLE_MULTIPLE_ERRORSTATES: a single 1024-character slot that
// every pushed error overwrites. Message formatting (vsnprintf) is taken as
// given: the formatted text is a parameter.
module ErrorStates {
  import opened Common
  import opened Buffers
  import opened CStrings
  import opened Memory

  const MAX_LAST_ERROR_STRING_LENGTH: nat := 1024

  /**
   * The buffer vsnprintf fills: at most 1023 characters of the formatted
   * text, then a NUL.
   */
  function Formatted(text: seq<char>): (buffer: seq<char>)
    ensures Terminated(buffer) && |buffer| <= MAX_LAST_ERROR_STRING_LENGTH
  {
    var n := if |text| < MAX_LAST_ERROR_STRING_LENGTH then |text| else MAX_LAST_ERROR_STRING_LENGTH - 1;
    text[..n] + [NUL]
  }

  /** A formatted text without NUL reads back whole, cut to its first 1023 characters. */
  lemma FormattedTruncates(text: seq<char>)
    requires NUL !in text
    ensures Text(Formatted(text)) ==
      if |text| < MAX_LAST_ERROR_STRING_LENGTH then text else text[..MAX_LAST_ERROR_STRING_LENGTH - 1]
  {
    var n := if |text| < MAX_LAST_ERROR_STRING_LENGTH then |text| else MAX_LAST_ERROR_STRING_LENGTH - 1;
    assert NUL !in text[..n] by {
      forall i | 0 <= i < n ensures text[..n][i] != NUL {
        assert text[..n][i] == text[i];
      }
    }
    TextOfTerminated(text[..n]);
    assert text[..|text|] == text;
  }

  /** ErrorState_Internal: the one error slot, `errors[0]`. */
  class ErrorState {
    var errors: array<char>

    ghost predicate Valid()
      reads this, errors
    {
      errors.Length == MAX_LAST_ERROR_STRING_LENGTH && Terminated(errors[..])
    }

    /** The text of the last error: the C string in the slot. */
    function LastError(): seq<char>
      reads this, errors
      requires Valid()
    {
      Text(errors[..])
    }

    /** The state over the memory the allocator handed out. */
    constructor(memory: seq<char>)
      requires |memory| == MAX_LAST_ERROR_STRING_LENGTH && Terminated(memory)
      ensures Valid() && errors[..] == memory && fresh(errors)
    {
      var slot := new char[MAX_LAST_ERROR_STRING_LENGTH](i requires 0 <= i < |memory| => memory[i]);
      assert slot[..] == memory;
      errors := slot;
    }
  }

  /**
   * PushError_Formatted_Internal: with a state, the formatted text is cut
   * to the buffer and copied, up to its first NUL, into the slot, NUL
   * included; without one, nothing happens.
   */
  method PushError(state: ErrorState?, text: seq<char>)
    requires state != null ==> state.Valid()
    modifies if state == null then {} else {state.errors}
    ensures state != null ==> state.Valid()
    ensures state != null ==>
      state.errors[..] == Overwrite(old(state.errors[..]), 0, Text(Formatted(text)) + [NUL])
    ensures state != null ==> state.LastError() == Text(Formatted(text))
  {
    if state != null {
      var buffer := Formatted(text);
      var messageLen := GetAnsiStringLength(Some(buffer));
      LenUnique(buffer, messageLen);
      var _ := CopyAnsiString(buffer, messageLen, state.errors, 0, MAX_LAST_ERROR_STRING_LENGTH);
      ghost var written := Text(buffer) + [NUL];
      OverwriteAt(old(state.errors[..]), 0, written, messageLen);
      assert state.errors[..][..|written|] == written by {
        forall k | 0 <= k < |written|
          ensures state.errors[..][k] == written[k]
        {
          OverwriteAt(old(state.errors[..]), 0, written, k);
        }
      }
      assert NUL !in Text(buffer);
      TextAt(state.errors[..], 0, Text(buffer));
      assert state.errors[..][0..] == state.errors[..];
    }
  }

  /**
   * GetPlatformLastError, with or without an index: the slot, or null when
   * there is no state; the index is ignored.
   */
  method GetPlatformLastError(state: ErrorState?, index: Option<nat>) returns (r: Option<seq<char>>)
    requires state != null ==> state.Valid()
    ensures state == null <==> r.None?
    ensures r.Some? ==> Terminated(r.value) && Text(r.value) == state.LastError()
  {
    if state != null {
      r := Some(state.errors[..]);
    } else {
      r := None;
    }
  }

  /** GetPlatformLastErrorCount: 1 when the slot holds a non-empty text, else 0. */
  method GetPlatformLastErrorCount(state: ErrorState?) returns (count: nat)
    requires state != null ==> state.Valid()
    ensures count <= 1
    ensures count == 1 <==> state != null && state.LastError() != []
  {
    count := 0;
    if state != null {
      var n := GetAnsiStringLength(Some(state.errors[..]));
      LenUnique(state.errors[..], n);
      count := if n > 0 then 1 else 0;
    }
  }

  /**
   * Pushing an empty text leaves a count of 0: the count tells whether the
   * last message was empty, not whether an error was pushed.
   */
  lemma EmptyErrorNotCounted(text: seq<char>)
    requires text == [] || text[0] == NUL
    ensures Text(Formatted(text)) == []
  {
    LenUnique(Formatted(text), 0);
  }

  // -------------------------------------------------------------------
  // The memory InitPlatform hands the error state: MemoryAlignedAllocate
  // with alignment 16 over fresh zero-filled pages, then no initialisation.

  /** The `n` little-endian bytes of the word `w`. */
  function LittleEndian(w: nat, n: nat): (bytes: seq<char>)
    ensures |bytes| == n
  {
    if n == 0 then [] else [(w % 256) as char] + LittleEndian(w / 256, n - 1)
  }

  /** The first `size` bytes at the returned pointer: its stored word, if any, then zeros. */
  function BlockContents(a: Aligned, size: nat): (m: seq<char>)
    requires size >= PTR_SIZE
    ensures |m| == size
  {
    LittleEndian(if a.ptr in a.stored then a.stored[a.ptr] else 0, PTR_SIZE)
      + seq(size - PTR_SIZE, _ => NUL)
  }

  lemma PowerOfTwoSixteen()
    ensures PowerOfTwo(16) && BitAnd(16, 15) == 0
  {
    AlignmentTest(16);
  }

  /** A block whose stored word is below 256 starts with that one byte and then a NUL. */
  lemma SmallWordBlock(a: Aligned, size: nat)
    requires size >= PTR_SIZE && a.ptr in a.stored && 0 < a.stored[a.ptr] < 256
    ensures var m := BlockContents(a, size);
      Terminated(m) && Text(m) == [a.stored[a.ptr] as char]
  {
    var w := a.stored[a.ptr];
    var m := BlockContents(a, size);
    assert LittleEndian(w / 256, PTR_SIZE - 1)[0] == NUL;
    assert m[0] == w as char && m[1] == NUL;
    LenUnique(m, 1);
    assert m[..1] == [w as char];
  }

  /**
   * With the allocator as written, the slot starts out holding the one
   * character 0x08, so GetPlatformLastErrorCount reports an error before any
   * was pushed.
   */
  lemma AsWrittenStateStartsWithError(base: nat)
    requires base % 16 == 0
    ensures BitAnd(16, 15) == 0
    ensures var m := BlockContents(AlignedAllocateAsWritten(MAX_LAST_ERROR_STRING_LENGTH, 16, base), MAX_LAST_ERROR_STRING_LENGTH);
      Terminated(m) && Text(m) == [8 as char]
  {
    PowerOfTwoSixteen();
    AsWrittenMisaligns(MAX_LAST_ERROR_STRING_LENGTH, 16, base);
    SmallWordBlock(AlignedAllocateAsWritten(MAX_LAST_ERROR_STRING_LENGTH, 16, base), MAX_LAST_ERROR_STRING_LENGTH);
  }

  /** With the corrected allocator the slot starts out empty. */
  lemma StateStartsEmpty(base: nat)
    ensures BitAnd(16, 15) == 0
    ensures var m := BlockContents(AlignedAllocate(MAX_LAST_ERROR_STRING_LENGTH, 16, base), MAX_LAST_ERROR_STRING_LENGTH);
      Terminated(m) && Text(m) == []
  {
    PowerOfTwoSixteen();
    var r := AlignedAllocate(MAX_LAST_ERROR_STRING_LENGTH, 16, base);
    assert r.ptr !in r.stored;
    var m := BlockContents(r, MAX_LAST_ERROR_STRING_LENGTH);
    assert m[0] == NUL;
    LenUnique(m, 0);
  }
}
