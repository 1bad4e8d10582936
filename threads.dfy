// The thread registry (final_platform_layer.hpp:1735-1755, 2520-2576): the
// main thread's context and a table of MAX_THREAD_COUNT slots filled in
// order by ThreadCreate. A stopped thread's slot is zeroed but never handed
// out again. The Win32 calls behind each operation (CreateThread,
// SuspendThread, ResumeThread, TerminateThread) are parameters: the thread
// id and handle they produce, or the count they return.
module Threads {
  import opened Common

  const MAX_THREAD_COUNT: nat := 64

  /** The value SuspendThread and ResumeThread return on failure: (DWORD)-1. */
  const FAILED_COUNT: nat := 0xFFFF_FFFF

  datatype ThreadState = Stopped | Running | Suspended | Waiting

  /**
   * ThreadContext: the OS thread id, the run function and its data (as
   * addresses, 0 for null), the OS handle (0 for null) and the state.
   */
  datatype ThreadContext = ThreadContext(id: nat, runFunc: nat, data: nat, handle: nat, state: ThreadState)

  /** The zero-initialised context `{}`. */
  const ZEROED: ThreadContext := ThreadContext(0, 0, 0, 0, Stopped)

  /** The table as values: its slots and `threadCount`. */
  datatype Registry = Registry(slots: seq<ThreadContext>, count: nat)

  predicate Valid(r: Registry)
  {
    |r.slots| == MAX_THREAD_COUNT && r.count <= MAX_THREAD_COUNT
  }

  /** The zero-initialised table. */
  function Empty(): (r: Registry)
    ensures Valid(r) && r.count == 0
  {
    Registry(seq(MAX_THREAD_COUNT, _ => ZEROED), 0)
  }

  /**
   * ThreadCreate: the next slot receives the new thread, Running when it
   * starts at once and Stopped when it is created suspended; `threadCount`
   * moves past it.
   */
  function Create(r: Registry, runFunc: nat, data: nat, autoStart: bool, threadId: nat, handle: nat): (r': Registry)
    requires Valid(r) && r.count < MAX_THREAD_COUNT
    ensures Valid(r') && r'.count == r.count + 1
    ensures r'.slots[r.count] == ThreadContext(threadId, runFunc, data, handle, if autoStart then Running else Stopped)
    ensures forall i :: 0 <= i < MAX_THREAD_COUNT && i != r.count ==> r'.slots[i] == r.slots[i]
  {
    var context := ThreadContext(threadId, runFunc, data, handle, if autoStart then Running else Stopped);
    Registry(r.slots[r.count := context], r.count + 1)
  }

  /** ThreadStop: the slot is zeroed and `threadCount` stays as it is. */
  function Stop(r: Registry, index: nat): (r': Registry)
    requires Valid(r) && index < MAX_THREAD_COUNT && r.slots[index].handle != 0
    ensures Valid(r') && r'.count == r.count
    ensures r'.slots[index] == ZEROED
    ensures forall i :: 0 <= i < MAX_THREAD_COUNT && i != index ==> r'.slots[i] == r.slots[i]
  {
    Registry(r.slots[index := ZEROED], r.count)
  }

  /**
   * ThreadSuspend and ThreadResume: the call succeeds unless the OS returns
   * (DWORD)-1, and only then is the state changed, to `target`.
   */
  function SetStateIf(r: Registry, index: nat, osResult: nat, target: ThreadState): (r': Registry)
    requires Valid(r) && index < MAX_THREAD_COUNT && r.slots[index].handle != 0
    ensures Valid(r') && r'.count == r.count
    ensures osResult != FAILED_COUNT ==> r'.slots[index] == r.slots[index].(state := target)
    ensures osResult == FAILED_COUNT ==> r' == r
    ensures forall i :: 0 <= i < MAX_THREAD_COUNT && i != index ==> r'.slots[i] == r.slots[i]
  {
    if osResult != FAILED_COUNT then Registry(r.slots[index := r.slots[index].(state := target)], r.count)
    else r
  }

  /** GetThreadContext_Internal from slot `from` on: the first slot below `threadCount` with the id. */
  function FindFrom(r: Registry, id: nat, from: nat): (f: Option<nat>)
    requires Valid(r)
    ensures f.Some? ==> from <= f.value < r.count && r.slots[f.value].id == id
    decreases MAX_THREAD_COUNT - from
  {
    if from >= r.count then None
    else if r.slots[from].id == id then Some(from)
    else FindFrom(r, id, from + 1)
  }

  /** The lookup finds the first used slot holding the id, and nothing when none does. */
  lemma {:induction false} FindFromMeaning(r: Registry, id: nat, from: nat)
    requires Valid(r)
    ensures var f := FindFrom(r, id, from);
      (f.Some? ==> from <= f.value < r.count && r.slots[f.value].id == id &&
                   forall j :: from <= j < f.value ==> r.slots[j].id != id) &&
      (f.None? <==> forall j :: from <= j < r.count ==> r.slots[j].id != id)
    decreases MAX_THREAD_COUNT - from
  {
    if from < r.count && r.slots[from].id != id {
      FindFromMeaning(r, id, from + 1);
    }
  }

  /** One call of the thread API, with what the OS answered. */
  datatype ThreadCall =
    | CreateCall(runFunc: nat, data: nat, autoStart: bool, threadId: nat, handle: nat)
    | StopCall(index: nat)
    | SuspendCall(index: nat, osResult: nat)
    | ResumeCall(index: nat, osResult: nat)

  /** Applies one call, or gives None when it breaks an assertion of the source. */
  function Step(r: Registry, c: ThreadCall): (o: Option<Registry>)
    requires Valid(r)
    ensures o.Some? ==> Valid(o.value)
  {
    match c
    case CreateCall(runFunc, data, autoStart, threadId, handle) =>
      if r.count < MAX_THREAD_COUNT then Some(Create(r, runFunc, data, autoStart, threadId, handle)) else None
    case StopCall(index) =>
      if index < MAX_THREAD_COUNT && r.slots[index].handle != 0 then Some(Stop(r, index)) else None
    case SuspendCall(index, osResult) =>
      if index < MAX_THREAD_COUNT && r.slots[index].handle != 0 then Some(SetStateIf(r, index, osResult, Suspended)) else None
    case ResumeCall(index, osResult) =>
      if index < MAX_THREAD_COUNT && r.slots[index].handle != 0 then Some(SetStateIf(r, index, osResult, Running)) else None
  }

  /** Applies the calls in order; None once one of them breaks an assertion. */
  function Run(r: Registry, calls: seq<ThreadCall>): (o: Option<Registry>)
    requires Valid(r)
    ensures o.Some? ==> Valid(o.value)
    decreases |calls|
  {
    if calls == [] then Some(r)
    else
      var o := Step(r, calls[0]);
      if o.None? then None else Run(o.value, calls[1..])
  }

  function CreateCount(calls: seq<ThreadCall>): nat
  {
    if calls == [] then 0 else (if calls[0].CreateCall? then 1 else 0) + CreateCount(calls[1..])
  }

  /**
   * Slots are never reused: `threadCount` counts every thread ever created,
   * stopped or not, so a program can create at most MAX_THREAD_COUNT
   * threads in its lifetime.
   */
  lemma {:induction false} CountIsCreations(r: Registry, calls: seq<ThreadCall>)
    requires Valid(r) && Run(r, calls).Some?
    ensures Run(r, calls).value.count == r.count + CreateCount(calls)
    ensures r.count + CreateCount(calls) <= MAX_THREAD_COUNT
    decreases |calls|
  {
    if calls != [] {
      var r1 := Step(r, calls[0]).value;
      CountIsCreations(r1, calls[1..]);
    }
  }

  /**
   * A stopped slot keeps its place below `threadCount` with id 0, so a
   * lookup of id 0 finds it (or an earlier slot with id 0).
   */
  lemma StoppedSlotFoundById0(r: Registry, index: nat)
    requires Valid(r) && index < r.count && r.slots[index].handle != 0
    ensures FindFrom(Stop(r, index), 0, 0).Some?
  {
    var s := Stop(r, index);
    FindFromMeaning(s, 0, 0);
    assert s.slots[index].id == 0;
  }

  /** The table updated in place, with the main thread's context beside it. */
  class ThreadTable {
    var mainThread: ThreadContext
    var threads: array<ThreadContext>
    var threadCount: nat

    ghost predicate Valid()
      reads this
    {
      threads.Length == MAX_THREAD_COUNT && threadCount <= MAX_THREAD_COUNT
    }

    function View(): Registry
      reads this, threads
    {
      Registry(threads[..], threadCount)
    }

    /** The zero-initialised global state. */
    constructor()
      ensures Valid() && View() == Empty() && mainThread == ZEROED
      ensures fresh(threads)
    {
      mainThread := ZEROED;
      threads := new ThreadContext[MAX_THREAD_COUNT](_ => ZEROED);
      threadCount := 0;
    }

    /** ThreadCreate (final_platform_layer.hpp:2520-2541); `index` is the slot handed back. */
    method ThreadCreate(runFunc: nat, data: nat, autoStart: bool, threadId: nat, handle: nat) returns (index: nat)
      requires Valid() && threadCount < MAX_THREAD_COUNT
      modifies this, threads
      ensures Valid() && threads == old(threads) && mainThread == old(mainThread)
      ensures index == old(threadCount)
      ensures View() == Create(old(View()), runFunc, data, autoStart, threadId, handle)
    {
      index := threadCount;
      threadCount := threadCount + 1;
      threads[index] := ZEROED;
      var state := if autoStart then Running else Stopped;
      threads[index] := ThreadContext(threadId, runFunc, data, handle, state);
    }

    /** ThreadSuspend (final_platform_layer.hpp:2547-2556); `osResult` is SuspendThread's. */
    method ThreadSuspend(index: nat, osResult: nat) returns (result: bool)
      requires Valid() && index < MAX_THREAD_COUNT && threads[index].handle != 0
      modifies threads
      ensures Valid() && result == (osResult != FAILED_COUNT)
      ensures View() == SetStateIf(old(View()), index, osResult, Suspended)
    {
      result := osResult != FAILED_COUNT;
      if result {
        threads[index] := threads[index].(state := Suspended);
      }
    }

    /** ThreadResume (final_platform_layer.hpp:2558-2567); `osResult` is ResumeThread's. */
    method ThreadResume(index: nat, osResult: nat) returns (result: bool)
      requires Valid() && index < MAX_THREAD_COUNT && threads[index].handle != 0
      modifies threads
      ensures Valid() && result == (osResult != FAILED_COUNT)
      ensures View() == SetStateIf(old(View()), index, osResult, Running)
    {
      result := osResult != FAILED_COUNT;
      if result {
        threads[index] := threads[index].(state := Running);
      }
    }

    /** ThreadStop (final_platform_layer.hpp:2569-2576). */
    method ThreadStop(index: nat)
      requires Valid() && index < MAX_THREAD_COUNT && threads[index].handle != 0
      modifies threads
      ensures Valid()
      ensures View() == Stop(old(View()), index)
    {
      threads[index] := ZEROED;
    }

    /** GetThreadContext_Internal (final_platform_layer.hpp:1744-1755); None for null. */
    method GetThreadContext(id: nat) returns (result: Option<nat>)
      requires Valid()
      ensures result == FindFrom(View(), id, 0)
    {
      result := None;
      var index := 0;
      while index < threadCount
        invariant index <= threadCount
        invariant FindFrom(View(), id, index) == FindFrom(View(), id, 0)
      {
        if threads[index].id == id {
          result := Some(index);
          break;
        }
        index := index + 1;
      }
    }
  }
}
