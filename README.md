# Final Platform Layer (v0.4.4, Win32) and its software rendering demo, in Dafny

The model covers two files.

**final_platform_layer.hpp** is a single-header C++ platform layer. The model covers the sequential logic of its Win32 build:

- the window event queue;
- the NUL-terminated string and path helpers;
- the memory helpers, including aligned allocation;
- the splitting of the ANSI command line;
- the enum flag operators, size macros and default settings;
- the platform lifecycle (`InitPlatform` / `ReleasePlatform`);
- the window procedure's decoding of messages;
- the virtual-key mapping, the gamepad polling and the file-entry attributes;
- fullscreen and resizable bookkeeping;
- the software back buffer;
- the thread registry;
- the last-error state.

**demos/FPL_Software/fpl_software.cpp** holds a 16-bit xorshift generator and the loop that paints a frame of random opaque colours into the back buffer.

Where the source changes state in place, the model is imperative Dafny. This applies to:

- the event queue: an array and two counters;
- the thread table;
- the error slot;
- the caller buffers written by the string, path, memory and command-line helpers;
- the Win32 and platform globals;
- the back buffer and its fill loops;
- the demo's random series and pixel loop.

Each of these methods is proved against a pure function. Its contract ties the new state to that function of the old state, for example `View() == Push(old(View()), e)` or `dest[..] == Overwrite(old(dest[..]), off, text + [NUL])`. The properties the source promises are then proved about those functions as lemmas. Read-only scans, the flag operators, the key switch and the message decoding are functions.

**Conventions.**
- `FPL_ASSERT` becomes `requires`.
- A null pointer is `None`.
- A readable C string is a `seq<char>` that contains a NUL.
- Everything the operating system answers is a parameter: a success flag, an id, a handle, a display mode, the window's client size, or the rectangle AdjustWindowRect computes (`Platform.OsAnswers`). The size the layer itself creates the window and the back buffer with is computed from the settings (`Platform.CreateSize`, `Platform.BufferSize`).
- The path separator is the Win32 one, `'\\'`.
- Only one error state exists, because multiple error states are disabled in this build.

This version of the header has no audio system, ring buffer, semaphore or rollback of a failed start-up. Nothing of that kind is modelled: a failed `InitPlatform` keeps what it allocated.

The demo is written against a later API naming: `fplGetVideoBackBuffer`, and `lineWidth` for the row size in bytes. The model reads it against this header's `VideoBackBuffer`, whose `stride` is the same quantity.

## Model

| member | source | states |
|---|---|---|
| EventQueue.Empty | final_platform_layer.hpp:3323-3330 | the zero-filled queue is valid and has nothing pending |
| EventQueue.Push | final_platform_layer.hpp:3331-3339 | a push appends the event to the pending ones while pushCount < 32768, is a no-op on a full queue, and never moves pollIndex |
| EventQueue.Poll | final_platform_layer.hpp:3958-3971 | the result is true iff something is pending; it then hands out the oldest event and drops it; otherwise `ev` is unchanged, and the counters reset to 0 only when something had been pushed |
| EventQueue.PushAllAppends | final_platform_layer.hpp:3331-3339 | a run of pushes appends exactly the events that still fit, in order, and loses the newest ones |
| EventQueue.PollManyInOrder | final_platform_layer.hpp:3958-3971 | n polls hand out the first n pending events in push order and leave the rest pending |
| EventQueue.FirstInFirstOut | final_platform_layer.hpp:3323-3339 | events pushed into an empty queue are polled back unchanged and in order (with lines 3958-3971) |
| EventQueue.FullUntilDrainedPoll | final_platform_layer.hpp:3331-3339 | a queue whose pushes reached 32768 drops new events even when fully polled, until the poll that finds it drained resets it (with lines 3958-3971) |
| EventQueue.PushAllConcat | final_platform_layer.hpp:3331-3339 | pushing two runs one after the other is pushing their concatenation |
| EventQueue.Queue.constructor | final_platform_layer.hpp:4250-4258 | the allocated queue is valid and equals the empty queue |
| EventQueue.Queue.PushEvent | final_platform_layer.hpp:3331-3339 | the array and counters become `Push` of the old queue |
| EventQueue.Queue.PollWindowEvent | final_platform_layer.hpp:3958-3971 | result, event and new counters are exactly `Poll` of the old queue |
| CStrings.Len | final_platform_layer.hpp:1761-1769 | the length is the index of the first NUL |
| CStrings.LenUnique | final_platform_layer.hpp:1761-1769 | any index holding the first NUL is the length |
| CStrings.GetAnsiStringLength | final_platform_layer.hpp:1761-1769 | returns 0 for null, else the index of the first NUL |
| CStrings.CopyAnsiString | final_platform_layer.hpp:1781-1791 | writes exactly `source[0..sourceLen)` and a NUL at `dest`; nothing else changes; returns `dest` |
| CStrings.CopyTerminatedAnsiString | final_platform_layer.hpp:1793-1798 | copies the whole C string and its NUL, and nothing else |
| Paths.NameStart | final_platform_layer.hpp:1936-1953 | the file name starts right after a separator, or at 0, and holds no separator |
| Paths.ExtensionStart | final_platform_layer.hpp:1914-1934 | the extension starts at the FIRST dot of the file name, or is absent when the name has no dot |
| Paths.DirectoryLength | final_platform_layer.hpp:1892-1912 | the kept length is the index of the last separator, or 0 when the only separator is at index 0 or there is none |
| Paths.StemLength | final_platform_layer.hpp:1966-1995 | the kept length ends at the LAST dot of the file name, or is the whole path |
| Paths.ExtractFileName | final_platform_layer.hpp:1936-1953 | null stays null; otherwise returns the position right after the last separator, or 0 |
| Paths.ExtractFileExtension | final_platform_layer.hpp:1914-1934 | null stays null; otherwise returns the first dot of the file name, or null |
| Paths.ExtractFilePath | final_platform_layer.hpp:1892-1912 | succeeds iff the path is non-null and its last separator is past index 0; then the directory prefix and a NUL are written, else the buffer is untouched |
| Paths.ChangeFileExtension | final_platform_layer.hpp:1955-2004 | succeeds iff the path is non-null; then writes the path up to the last dot of its file name, the new extension and a NUL, else the buffer is untouched |
| Paths.FindStemLength | final_platform_layer.hpp:1966-1995 | the two scans compute the stem length |
| Paths.CombinePath | final_platform_layer.hpp:2006-2027 | writes the paths joined by exactly one separator, with no trailing one, and a NUL; returns `destPath` |
| Paths.CombineRound | final_platform_layer.hpp:2012-2022 | one round writes the path, then a separator unless it is the last |
| Paths.FileNameOfCombined | final_platform_layer.hpp:1936-1953 | the file name of a combined path is its last component (with lines 2006-2027) |
| Paths.DirectoryOfCombined | final_platform_layer.hpp:1892-1912 | the directory of a combined path is the combination of all but its last component (with lines 2006-2027) |
| Paths.ChangeKeepsDirectory | final_platform_layer.hpp:1955-2004 | changing the extension keeps the directory and where the file name starts |
| Paths.ChangeExtensionTwice | final_platform_layer.hpp:1955-2004 | changing the extension twice equals changing it once, for a dot-led extension |
| Paths.ExtensionOfChanged | final_platform_layer.hpp:1914-1934 | ExtractFileExtension reads back the extension ChangeFileExtension wrote, when the stem has no dot (with lines 1955-2004) |
| Paths.FirstDotVersusLastDot | final_platform_layer.hpp:1921-1925 | for every file name with two dots, the extension starts at or before the first while a change keeps everything up to the last (with lines 1983-1995) |
| Paths.FirstDotVersusLastDotExample | final_platform_layer.hpp:1921-1925 | an illustration: on `a.b.c` the extension starts at the first dot while a change keeps `a.b` (with lines 1983-1995) |
| Paths.RootOnlyPathHasNoDirectory | final_platform_layer.hpp:1899-1909 | a path whose only separator is at index 0 has kept length 0, so ExtractFilePath returns null |
| CommandLine.Split | final_platform_layer.hpp:4648-4678 | a line splits into one more piece than it has spaces |
| CommandLine.SplitHasNoSpace | final_platform_layer.hpp:4648-4678 | no argument contains a space |
| CommandLine.JoinSplit | final_platform_layer.hpp:4648-4678 | joining the arguments with single spaces reproduces the line |
| CommandLine.SplitJoin | final_platform_layer.hpp:4648-4678 | splitting space-free arguments joined by spaces gives them back |
| CommandLine.GetArgumentCount | final_platform_layer.hpp:4630-4647 | returns 0 for a null or empty line, else 1 + the number of spaces, which is the number of pieces |
| CommandLine.ParseArguments | final_platform_layer.hpp:4648-4678 | copies the line with spaces turned into NULs, then a NUL, and stores each argument's start; writes nothing for a null or empty line |
| CommandLine.Arguments | final_platform_layer.hpp:4630-4678 | there are as many arguments as the count says, and they join back into the line |
| CommandLine.ParseCommandLineAnsiArguments | final_platform_layer.hpp:4679-4705 | the block is exactly `moduleLen + lineLen + count` long; args[0] is the module path and args[i] reads the i-th piece of the line |
| Memory.ClearBlocksCover | final_platform_layer.hpp:1863-1873 | MemoryClear's blocks cover every byte of an even size and none of an odd one |
| Memory.CopyBlocksCover | final_platform_layer.hpp:1875-1885 | MemoryCopy's blocks cover a multiple of 4 fully; for a size 4q+2 they cover only 2q bytes, and none of an odd size |
| Memory.ClearBlocks | final_platform_layer.hpp:1629-1645 | zeroes exactly bytes `[0, size)` and reports the block bytes |
| Memory.CopyBlocks | final_platform_layer.hpp:1647-1665 | copies exactly bytes `[0, size)` and reports the block bytes |
| Memory.MemoryClear | final_platform_layer.hpp:1863-1873 | bytes `[0, size)` become 0 and nothing past them changes, whichever block is chosen |
| Memory.MemoryCopy | final_platform_layer.hpp:1875-1885 | bytes `[0, size)` are copied and nothing past them changes, including the 2-byte branch given the 4-byte shift |
| Memory.MaskIsRemainder | final_platform_layer.hpp:1836-1838 | for a power of two, masking with `alignment - 1` is the remainder |
| Memory.AlignmentTest | final_platform_layer.hpp:1826 | the asserted alignment test holds exactly for powers of two |
| Memory.PaddingAligns | final_platform_layer.hpp:1836-1840 | the intended padding is below the alignment and reaches a multiple of it |
| Memory.AlignedAllocateAsWritten | final_platform_layer.hpp:1824-1846 | as written, the result is always base + sizeof(void*), with the base stored just before it |
| Memory.AlignedFreeAsWritten | final_platform_layer.hpp:1848-1854 | free computes one pointer before its argument, without reading memory |
| Memory.AsWrittenRoundTrip | final_platform_layer.hpp:1824-1854 | free of the as-written allocation gives back its base |
| Memory.AsWrittenMisaligns | final_platform_layer.hpp:1839 | for an aligned base the pointer is misaligned and its first word is nonzero (with lines 953-954) |
| Memory.AlignedAllocate | final_platform_layer.hpp:1824-1846 | corrected: the pointer is aligned, lies inside the request, and the base is stored just before it (with lines 953-954) |
| Memory.AlignedFree | final_platform_layer.hpp:1848-1854 | corrected: reads the base stored one pointer before `ptr`, and finds one iff it is there |
| Memory.AlignedRoundTrip | final_platform_layer.hpp:1824-1854 | corrected: free of an allocation gives back its base, and the stored word lies below the returned block (with lines 953-954) |
| Flags.Union | final_platform_layer.hpp:621-631 | a flag is in `lhs \| rhs` iff it is in either |
| Flags.Intersect | final_platform_layer.hpp:632-635 | a flag is in `lhs &= rhs` iff it is in both |
| Flags.HasIsSubset | final_platform_layer.hpp:625-627 | `lhs & rhs` holds iff every flag of rhs is set in lhs |
| Flags.Has | final_platform_layer.hpp:625-627 | `lhs & rhs` is the subset test: true iff rhs is contained in lhs |
| Flags.UnionLeast | final_platform_layer.hpp:621-627 | the union is the least flag set containing both sides |
| Flags.IntersectGreatest | final_platform_layer.hpp:625-635 | the intersection is the greatest flag set inside both sides |
| Flags.HasIsAbsorption | final_platform_layer.hpp:621-627 | `lhs & rhs` holds iff `lhs \| rhs == lhs` |
| Flags.HasNoneAlways | final_platform_layer.hpp:625-627 | testing for None is always true |
| Flags.HasAllNeedsBoth | final_platform_layer.hpp:703-712 | an illustration on the constants: All is Window \| Video, and neither alone passes the test for All |
| Flags.Kilobytes | final_platform_layer.hpp:612 | the 64-bit result stays below 2^64 |
| Flags.Megabytes | final_platform_layer.hpp:614 | the 64-bit result stays below 2^64 |
| Flags.Gigabytes | final_platform_layer.hpp:616 | the 64-bit result stays below 2^64 |
| Flags.Terabytes | final_platform_layer.hpp:618 | the 64-bit result stays below 2^64 |
| Flags.SizesExact | final_platform_layer.hpp:612-618 | below 2^24 the sizes are exactly value times 1024^k |
| Flags.SizesWrapOnce | final_platform_layer.hpp:612-618 | wrapping at each multiplication equals wrapping once |
| Flags.TerabytesWrap | final_platform_layer.hpp:618 | an illustration of the wrap: 2^24 terabytes wrap to 0 |
| Settings.Configure | final_platform_layer.hpp:500-535 | each part is enabled unless switched off, and no window means no video driver |
| Settings.DefaultWindowSettings | final_platform_layer.hpp:745-755 | empty title, 800x600, resizable, not fullscreen, fullscreen size 0 |
| Settings.DefaultVideoSettings | final_platform_layer.hpp:784-798 | the driver is OpenGL, else Software, else none, by the build; Legacy profile, version 0.0, no vsync, auto size |
| Settings.DefaultSettings | final_platform_layer.hpp:809-814 | an 800x600 resizable window, not fullscreen, with auto size; no driver iff the build enables neither OpenGL nor Software |
| Settings.DefaultDriverIsBuilt | final_platform_layer.hpp:500-535 | the default driver is always an enabled one; the default build picks OpenGL (with lines 784-814) |
| Files.EntryAttributes | final_platform_layer.hpp:2882-2898 | Normal alone when the normal bit is set; otherwise Hidden, ReadOnly, Archive and System each from its own bit |
| Files.EntryType | final_platform_layer.hpp:2870-2880 | Directory iff the directory bit is set; Unknown iff none of the directory and five file bits is set; File otherwise |
| Files.FillFileEntry | final_platform_layer.hpp:2865-2899 | the entry holds the whole file name, the type and the attributes |
| Files.TypeAndAttributesAgree | final_platform_layer.hpp:2870-2898 | a file always has an attribute flag, an unknown entry none, and directory iff the directory bit |
| Files.NormalHidesOtherAttributes | final_platform_layer.hpp:2883-2885 | for every set of bits with the hidden bit: Hidden is reported iff the normal bit is clear, and the type is Directory iff the directory bit is set, else File (with lines 2870-2880) |
| Events.MapVirtualKeyIdentity | final_platform_layer.hpp:3537-3775 | every Key's own code maps to that Key except NumLock and Scroll; every other code maps to Key_None (with lines 1120-1271) |
| Events.MapVirtualKey | final_platform_layer.hpp:3537-3775 | every virtual-key code maps either to Key_None or to the Key of its own number |
| Events.MappingInjective | final_platform_layer.hpp:3537-3775 | two codes mapping to the same Key are equal |
| Input.Signed16 | final_platform_layer.hpp:3527-3528 | the signed reading is in [-2^15, 2^15) and agrees with the word modulo 2^16 |
| Input.KeyModifiers | final_platform_layer.hpp:4095-4114 | Alt from VK_MENU, Shift from VK_LSHIFT, Ctrl from VK_LCONTROL, Super from VK_LMENU, and nothing else |
| Input.RightHandModifiersIgnored | final_platform_layer.hpp:4095-4114 | the right Shift and Ctrl keys alone give no modifier |
| Input.MouseAt | final_platform_layer.hpp:3523-3535 | the mouse event carries the type, the button and the signed words of lParam |
| Input.StopsOnlyOnCloseOrAltF4 | final_platform_layer.hpp:4056-4122 | isRunning is cleared iff WM_DESTROY, WM_CLOSE or a fresh Alt+F4 press |
| Input.NoWindowNoEffect | final_platform_layer.hpp:4050-4052 | without a window handle a message has no effect |
| Input.AutoRepeatKeepsRunning | final_platform_layer.hpp:4092-4122 | a repeated key-down never closes the window |
| Input.KeyMessageDecoded | final_platform_layer.hpp:4086-4123 | a key message pushes one keyboard event: KeyDown iff lParam bit 31 is clear, with the code, the mapped key and Super from VK_LMENU |
| Input.SizeMessage | final_platform_layer.hpp:4062-4084 | WM_SIZE pushes Resized with the words of lParam, and recreates the buffer iff Software, auto size and a changed size |
| Input.ActivateMessage | final_platform_layer.hpp:4132-4142 | WM_ACTIVATE pushes LostFocus iff wParam is WA_INACTIVE, else GotFocus |
| Input.HandleMessage | final_platform_layer.hpp:4047-4227 | a message never restarts the application; nothing is pushed iff there is no window or the message is WM_DESTROY, WM_CLOSE or unhandled; a buffer is recreated only on WM_SIZE under Software with auto size and for a changed size |
| Input.MinimizedSizeAsksForEmptyBuffer | final_platform_layer.hpp:4064-4072 | as written, WM_SIZE with a zero lParam (a minimised window) asks for a 0x0 back buffer under Software with auto size |
| Input.PadButtonsMeaning | final_platform_layer.hpp:3474-3504 | each button comes from its own wButtons bit, except the thumb buttons, which are never set |
| Input.ControllerStep | final_platform_layer.hpp:3443-3519 | a controller is connected after a poll iff the poll succeeded, and pushes at most one event, of its own index |
| Input.ControllerEventsMeaning | final_platform_layer.hpp:3439-3521 | Connected exactly on the first successful poll, Disconnected exactly on the first failed one, else StateChanged while connected |
| Input.ControllerEvents | final_platform_layer.hpp:3439-3521 | at most one event per controller, each a gamepad event of a polled controller |
| Input.PollController | final_platform_layer.hpp:3443-3519 | one controller's flag becomes its poll's success and its event is pushed |
| Input.PollControllers | final_platform_layer.hpp:3439-3521 | every flag becomes its poll's success and the events are pushed in controller order |
| Window.FullscreenMode | final_platform_layer.hpp:3381-3400 | a zero size takes the desktop's size, and a zero rate or depth the desktop's |
| Window.Entered | final_platform_layer.hpp:3381-3427 | entering always applies the popup styles; the flag and the display mode only when the change succeeded |
| Window.Restored | final_platform_layer.hpp:3355-3379 | leaving applies the windowed styles and restores the saved size and placement; the display is reset when CDS_RESET succeeds |
| Window.FallbackLeaveAssertion | final_platform_layer.hpp:3864-3866 | as written, the flag Leave asserts holds iff entering succeeded, so every fallback call breaks the assertion (with the assertion at line 3358) |
| Window.SetFullscreenConsistent | final_platform_layer.hpp:3848-3871 | the styles agree with the settings afterwards, and the flag is on iff entering was asked for and succeeded |
| Window.SetFullscreen | final_platform_layer.hpp:3848-3871 | corrected: the settings change only in the flag, which is on iff entering was asked for and succeeded; with it on the window is in fullscreen, with it off in window mode |
| Window.FullscreenRoundTrip | final_platform_layer.hpp:3848-3871 | a successful trip to fullscreen and back restores the window exactly |
| Window.FallbackRestoresWindow | final_platform_layer.hpp:3863-3867 | corrected: a failed display change leaves the window as it was |
| Window.SetResizeableMeaning | final_platform_layer.hpp:3822-3838 | a no-op in fullscreen; in window mode the styles and the setting follow `value` |
| Window.SetResizeable | final_platform_layer.hpp:3822-3838 | the fullscreen flag is kept; in fullscreen nothing changes; in window mode only the resizable setting changes among the settings |
| Window.IsWindowResizableMeaning | final_platform_layer.hpp:3815-3820 | a consistent window is resizable iff it is in resizable window mode |
| Window.IsWindowResizable | final_platform_layer.hpp:3815-3820 | true for the resizable window style, false for the fixed and the fullscreen styles |
| Window.AsWrittenAlwaysFullscreen | final_platform_layer.hpp:3840-3846 | as written, every window reports fullscreen, because every style holds WS_VISIBLE (with lines 3346-3353) |
| Window.IsWindowFullscreenAsWritten | final_platform_layer.hpp:3840-3846 | as written: true for every style with WS_VISIBLE |
| Window.IsWindowFullscreenMeaning | final_platform_layer.hpp:3840-3846 | corrected: a consistent window reports fullscreen iff it is in fullscreen |
| Window.IsWindowFullscreen | final_platform_layer.hpp:3840-3846 | corrected: true for the fullscreen style, false for both window styles |
| Window.Win32Window.Open | final_platform_layer.hpp:4262-4280 | the window is in window mode with the styles of its resizable setting |
| Window.Win32Window.EnterFullscreen | final_platform_layer.hpp:3381-3427 | the new window state is `Entered` and the result is the display change's answer |
| Window.Win32Window.LeaveFullscreen | final_platform_layer.hpp:3355-3379 | requires fullscreen; the new window state is `Restored` |
| Window.Win32Window.RestoreWindowed | final_platform_layer.hpp:3355-3379 | the new window state is `Restored`, in window mode with the saved size and placement, and the result is the CDS_RESET answer |
| Window.Win32Window.SetWindowFullscreen | final_platform_layer.hpp:3848-3871 | the new window state is `SetFullscreen` |
| Window.Win32Window.SetWindowResizeable | final_platform_layer.hpp:3822-3838 | the new window state is `SetResizeable` |
| BackBuffer.FillPixels | final_platform_layer.hpp:3254-3260 | every pixel of a width x height buffer gets the colour |
| BackBuffer.ByteSize | final_platform_layer.hpp:3248-3249 | the 64-bit byte size stride x height; it is 4 x width x height whenever that does not wrap |
| BackBuffer.AllocatableByteSize | final_platform_layer.hpp:3248-3250 | an allocatable size asks for exactly four bytes per pixel, and for more than none (with the assertion at line 1825) |
| BackBuffer.WordSizeAllocatable | final_platform_layer.hpp:4066-4072 | any non-zero size from the 16-bit words of WM_SIZE is allocatable |
| BackBuffer.VideoBackBuffer.Create | final_platform_layer.hpp:3241-3273 | requires an allocatable size: no zero side, as the allocator asserts a non-zero byte size, and no 64-bit wrap; size as asked, stride = 4 x width, a fresh buffer of exactly `ByteSize` bytes, all 0xFF000000, result true (with the assertion at line 1825) |
| BackBuffer.VideoBackBuffer.Release | final_platform_layer.hpp:3232-3239 | requires pixels; the buffer is zeroed |
| Threads.Create | final_platform_layer.hpp:2520-2541 | the next slot receives the thread, Running iff auto-started; threadCount grows by one; other slots are kept |
| Threads.Stop | final_platform_layer.hpp:2569-2576 | the slot is zeroed and threadCount is kept |
| Threads.SetStateIf | final_platform_layer.hpp:2547-2567 | the state changes only when the OS call did not return (DWORD)-1 |
| Threads.FindFromMeaning | final_platform_layer.hpp:1744-1755 | the lookup finds the first slot below threadCount with the id, and none iff no such slot has it |
| Threads.FindFrom | final_platform_layer.hpp:1744-1755 | a found slot lies at or after the start, below threadCount, and holds the id |
| Threads.CountIsCreations | final_platform_layer.hpp:2520-2576 | threadCount counts every thread ever created, so a program creates at most 64 |
| Threads.StoppedSlotFoundById0 | final_platform_layer.hpp:1744-1755 | a stopped slot stays in the table zeroed, so a lookup of thread id 0 finds a slot (with lines 2569-2576) |
| Threads.ThreadTable.ThreadCreate | final_platform_layer.hpp:2520-2541 | the table becomes `Create` of the old one and the result is the slot |
| Threads.ThreadTable.ThreadSuspend | final_platform_layer.hpp:2547-2556 | the result is the OS success, and the table becomes `SetStateIf(Suspended)` |
| Threads.ThreadTable.ThreadResume | final_platform_layer.hpp:2558-2567 | the result is the OS success, and the table becomes `SetStateIf(Running)` |
| Threads.ThreadTable.ThreadStop | final_platform_layer.hpp:2569-2576 | the table becomes `Stop` of the old one |
| Threads.ThreadTable.GetThreadContext | final_platform_layer.hpp:1744-1755 | the loop finds what `FindFrom` finds |
| ErrorStates.Formatted | final_platform_layer.hpp:1717-1718 | the formatted buffer is terminated and at most 1024 characters |
| ErrorStates.FormattedTruncates | final_platform_layer.hpp:1717-1720 | the pushed text is the message cut to 1023 characters |
| ErrorStates.PushError | final_platform_layer.hpp:1713-1733 | with a state, slot 0 is overwritten by the formatted text and a NUL; without one, nothing happens |
| ErrorStates.GetPlatformLastError | final_platform_layer.hpp:4565-4594 | null iff there is no state; else slot 0, whatever the index |
| ErrorStates.GetPlatformLastErrorCount | final_platform_layer.hpp:4596-4606 | 1 iff a state exists and slot 0 is non-empty, else 0 |
| ErrorStates.EmptyErrorNotCounted | final_platform_layer.hpp:4596-4606 | pushing an empty message leaves a count of 0 |
| ErrorStates.AsWrittenStateStartsWithError | final_platform_layer.hpp:1839 | with the as-written allocator a new error state already holds a one-character error (with lines 4474-4477 and 4596-4606) |
| ErrorStates.StateStartsEmpty | final_platform_layer.hpp:4474-4477 | corrected: with the corrected allocator it starts empty |
| Platform.EffectiveFlags | final_platform_layer.hpp:4494-4497 | Video brings Window; the other flags are kept |
| Platform.EffectiveFlagsIdempotent | final_platform_layer.hpp:4494-4497 | adding Window for Video twice is adding it once |
| Platform.CreateSize | final_platform_layer.hpp:4283-4300 | as written: the adjusted rectangle when both settings sides are set, else CW_USEDEFAULT for both |
| Platform.DefaultSizeAsksForEmptyBuffer | final_platform_layer.hpp:4297-4300 | as written: a zero settings side makes the back buffer's byte size wrap to 0, which is not allocatable (with lines 4350 and 3249) |
| Platform.BufferSize | final_platform_layer.hpp:4311-4316 | corrected: the size as written when both settings sides are set, else the window's client size instead of CW_USEDEFAULT |
| Platform.MessageCounts | final_platform_layer.hpp:4596-4606 | every error message of the lifecycle leaves a non-empty last error |
| Platform.InitWindowFailure | final_platform_layer.hpp:4229-4370 | no failure iff every step of window creation succeeds |
| Platform.AllocateErrorState | final_platform_layer.hpp:4474-4477 | the new error state is fresh and empty |
| Platform.Win32State.constructor | final_platform_layer.hpp:4466-4472 | the zeroed state holds the flags and settings, with no driver and no back buffer |
| Platform.Win32State.RecreateBackBuffer | final_platform_layer.hpp:3291-3296 | requires an allocatable size (no zero side, no 64-bit wrap); under Software, the buffer is released and created anew at the size, all opaque black (with lines 4064-4074) |
| Platform.Win32State.OpenWindow | final_platform_layer.hpp:4229-4324 | succeeds iff class, queue, window and device context all do; a failure is the first failing step's error; a queue exists iff it was allocated, empty and fresh; on success the window is in window mode and the current settings are the initial ones with the window's client size (with lines 4311-4317) |
| Platform.Win32State.StartVideo | final_platform_layer.hpp:4325-4370 | fullscreen is entered iff asked for and the display changed; the driver is set and running; an OpenGL failure is its only error; corrected: a Software buffer has `BufferSize` and is black |
| Platform.Win32State.InitWindow | final_platform_layer.hpp:4229-4370 | requires an allocatable corrected buffer size under Software; the failure is exactly `InitWindowFailure`; success leaves a running, consistent window with the driver |
| Platform.PushLastError | final_platform_layer.hpp:1728-1733 | the last error becomes the formatted message |
| Platform.StartWindow | final_platform_layer.hpp:4420-4444 | requires an allocatable corrected buffer size under Software; ok iff gdi32 loads and the window opens; a queue exists iff gdi32 loads, the class is registered and the queue is allocated; a failure leaves InitPlatform's own error; success leaves the errors as they were (with lines 4500-4515) |
| Platform.InitStates | final_platform_layer.hpp:4464-4519 | requires an allocatable corrected buffer size under Software; fresh states with the effective flags; a queue exists iff the window step ran and allocated it; ok iff every step that runs succeeds; no error on success; the failing step's error otherwise |
| Platform.ReleaseFreeAssertion | final_platform_layer.hpp:4549 | as written, the release after a successful InitPlatform frees a non-null queue iff the window step ran (with lines 4372-4386 and the assertion at line 1849) |
| Platform.ReleaseWithoutWindowFreesNull | final_platform_layer.hpp:4508-4513 | InitPlatform without Window and Video always succeeds, and its release, as written, frees a null queue |
| Platform.Platform.constructor | final_platform_layer.hpp:4454-4465 | nothing is initialized and InitPlatform may be called |
| Platform.Platform.InitPlatform | final_platform_layer.hpp:4454-4521 | when initialized, returns false, pushes an error and keeps the states, the queue and the thread table; otherwise `Initialized`: isInitialized iff success, the states are kept on failure, with no rollback |
| Platform.Platform.InitFresh | final_platform_layer.hpp:4464-4521 | requires an allocatable corrected buffer size under Software; a first call leaves `Initialized` |
| Platform.Platform.ReleasePlatform | final_platform_layer.hpp:4523-4563 | corrected: requires isInitialized; leaves fullscreen, releases the back buffer, the window and the states, and frees the event queue iff there is one; a new InitPlatform may be called |
| Platform.Platform.GetVideoBackBuffer | final_platform_layer.hpp:3276-3286 | the buffer iff the driver is Software |
| Platform.Platform.ResizeVideoBackBuffer | final_platform_layer.hpp:3288-3298 | under Software requires an allocatable size (no zero side, no 64-bit wrap); true iff Software; then the buffer has the new size and is black; otherwise the buffer is untouched |
| Platform.Platform.WindowProc | final_platform_layer.hpp:4047-4227 | corrected: the decoded event is pushed, isRunning takes its new value, and WM_SIZE recreates the buffer when `HandleMessage` asks for a size with both sides above zero; otherwise the buffer's pixels and size are untouched; the flags, settings and driver never change |
| SoftwareDemo.NextZero | demos/FPL_Software/fpl_software.cpp:9-11 | the step maps 0 to 0 and only 0 to 0 |
| SoftwareDemo.Prev | demos/FPL_Software/fpl_software.cpp:9-11 | an inverse of the step: `Next(Prev(y)) == y` |
| SoftwareDemo.PrevNext | demos/FPL_Software/fpl_software.cpp:9-11 | the step is injective, so the generator permutes the 16-bit states |
| SoftwareDemo.AdvanceZero | demos/FPL_Software/fpl_software.cpp:8-13 | a series is 0 after n calls iff it started at 0 |
| SoftwareDemo.ByteBelowMax | demos/FPL_Software/fpl_software.cpp:15-18 | RandomByte never returns 255 |
| SoftwareDemo.PackColorFields | demos/FPL_Software/fpl_software.cpp:37 | the packed colour has 0xFF in bits 24-31 and r, g, b in bits 16-23, 8-15, 0-7 |
| SoftwareDemo.ColorsOpaque | demos/FPL_Software/fpl_software.cpp:34-37 | every drawn colour is opaque and no channel is 255 |
| SoftwareDemo.ColorsStep | demos/FPL_Software/fpl_software.cpp:32-41 | each further pixel is the next colour, three calls on |
| SoftwareDemo.RandomSeries.RandomU16 | demos/FPL_Software/fpl_software.cpp:8-13 | the index takes the three xorshift steps in order, truncated to 16 bits, and the result equals the new index |
| SoftwareDemo.RandomSeries.RandomByte | demos/FPL_Software/fpl_software.cpp:15-18 | one step, and the result is the new index modulo 255 |
| SoftwareDemo.RandomColor | demos/FPL_Software/fpl_software.cpp:34-37 | r, g, b from three consecutive calls, packed; the series moves on three calls |
| SoftwareDemo.DrawRow | demos/FPL_Software/fpl_software.cpp:31-42 | a row writes `width` pixels from its start, in increasing x, each the next colour |
| SoftwareDemo.RowStart | demos/FPL_Software/fpl_software.cpp:31 | row y starts at pixel y x width when the row size is 4 x width bytes |
| SoftwareDemo.DrawFrame | demos/FPL_Software/fpl_software.cpp:29-43 | the buffer holds the series' next width x height colours in row order, and the series has moved 3 x width x height calls |

## Left out

- Win32 calls are not modelled. Their outcomes are parameters (`Platform.OsAnswers`, thread ids and handles, `changed` and `reset` answers); the clipboard, the file API, LoadLibrary and cpuid are left out. They are foreign code.
- OpenGL context creation, lines 3068-3228, is one success flag. It is GDI/WGL calls.
- `Win32InitWindow_Internal`: the window title conversion and the class name are not modelled, since they are string conversions outside the core. The rectangle AdjustWindowRect computes and the client size GetClientRect reports are `Platform.OsAnswers` parameters; the choice between that rectangle and CW_USEDEFAULT is modelled by `Platform.CreateSize`.
- `Win32LoadAPI_Internal`: GetProcAddress failures for the individual GDI functions are folded into the one `gdiLoaded` answer.
- The XInput library load is not modelled, and neither are the wide-string and UTF-8 conversions and the wide command-line parser. All are foreign calls.
- Atomics, fences, mutexes, signals and thread waits are left out. Their point is concurrency. The event queue is modelled sequentially.
- Floating point is left out: stick dead zones and trigger scaling, the mouse wheel delta and the high-resolution timer.
- `vsnprintf` is left out. Error messages are their format strings, cut to the buffer by `ErrorStates.Formatted`.
- The multiple-error-state build is not modelled. It is disabled in this version.
- The Linux branch (mmap allocator, empty init/release) is not modelled. The model is of the Win32 build.
- Memory the platform allocates (Win32 state, event queue, back buffer) is modelled as fresh zeroed objects. The padding quirk of the as-written allocator does matter for the error state, where it is a finding. For the back buffer, the fill loop overwrites the first word anyway.
- BackBuffer.VideoBackBuffer.Create: allocation is assumed to succeed, as the source never checks it. The BITMAPINFO header is not modelled. Sizes stay below 2^32 per dimension.
- Platform.Platform.InitPlatform: the start-up methods (InitWindow, StartWindow, InitStates, InitFresh and InitPlatform) create the back buffer at the corrected `BufferSize`, and they require that size to be allocatable under the Software driver. As written, a zero settings side makes the size CW_USEDEFAULT, whose byte size wraps to 0; that is a finding. A client size or adjusted rectangle from Windows that is empty or wraps is not modelled.
- BackBuffer.VideoBackBuffer.Create: a byte size that wraps in 64 bits is excluded. If it wraps to 0, the allocator's assertion fails. If it wraps to anything else, the clearing loop writes past the block. The model covers neither.
- Memory.MemoryCopy: the source is a sequence value, so overlapping source and target and aliasing are not modelled.
- CStrings.CopyAnsiString: the source is a sequence value, so a source that overlaps the destination is not modelled.
- Paths.CombinePath: the parts are sequence values, so a part that aliases the destination buffer is not modelled.
- CommandLine.ParseCommandLineAnsiArguments: MemoryAllocate (line 4697) is assumed to succeed. The one block holding the strings, 8 bytes of padding and the pointer array (lines 4692-4698) is two fresh arrays here, and a pointer is an index into the strings.
- Platform.Platform.WindowProc: the model assumes a window handle. Without a handle the message goes to the default procedure, which `Input.NoWindowNoEffect` states for the pure decoder.
- The demo's main loop is left out: platform start-up, WindowUpdate, flip, release and the seed 1337 given to the series. Only the frame drawn per update is modelled.
- The `fpl`-prefixed API and `lineWidth` of the demo are read as this header's API and `stride`.
- Window.Win32Window.SetWindowFullscreen: its fallback is modelled with the assertion-free part of `Win32LeaveFullscreen_Internal`. The as-written call breaks that assertion, which is a finding.

## Findings

| source | as written | input that shows it | evidently intended | confidence | as-written member | corrected member |
|---|---|---|---|---|---|---|
| final_platform_layer.hpp:1839 | the alignment padding is added to the word stored at the candidate address, not to the address | alignment 16 with a 16-aligned base: the pointer is base + 8, not aligned, and its first word is 8 | the pointer moves up to the next multiple of the alignment and the block stays zero, as promised at lines 953-954 | not executed | Memory.AsWrittenMisaligns | Memory.AlignedRoundTrip |
| final_platform_layer.hpp:4474-4476 | the error state is allocated with that allocator, so its first byte is 8 | InitPlatform before any error: GetPlatformLastErrorCount returns 1 | a new error state is empty and the count is 0 | not executed | ErrorStates.AsWrittenStateStartsWithError | ErrorStates.StateStartsEmpty |
| final_platform_layer.hpp:3864-3866 | the fullscreen fallback calls `Win32LeaveFullscreen_Internal` right after setting `isFullscreen` to false, and Leave asserts `isFullscreen` (line 3358) | SetWindowFullscreen(true, ...) when ChangeDisplaySettings fails | the fallback restores window mode without that assertion | not executed | Window.FallbackLeaveAssertion | Window.FallbackRestoresWindow |
| final_platform_layer.hpp:4068-4072 | WM_SIZE recreates the back buffer whenever the size differs, the 0x0 size of a minimised window included, and the allocator asserts a non-zero size (line 1825) | minimise a window under the Software driver with auto size | keep the buffer when a side is zero | not executed | Input.MinimizedSizeAsksForEmptyBuffer | Platform.Platform.WindowProc |
| final_platform_layer.hpp:4384 | ReleasePlatform always frees the event queue, which only the window step allocates, and MemoryAlignedFree asserts a non-null pointer (line 1849) | InitPlatform(InitFlags::None) then ReleasePlatform() | free the queue only when there is one | not executed | Platform.ReleaseWithoutWindowFreesNull | Platform.Platform.ReleasePlatform |
| final_platform_layer.hpp:4297-4300 | with a zero settings side the window is created with CW_USEDEFAULT, and line 4350 gives the back buffer that size too: 2^31 x 2^31 pixels, whose byte size (line 3249) wraps to 0 | the Software driver with window width 0 | the back buffer takes the size the window got | not executed | Platform.DefaultSizeAsksForEmptyBuffer | Platform.BufferSize |
| final_platform_layer.hpp:3844 | IsWindowFullscreen tests any bit of `WS_POPUP \| WS_VISIBLE` | any visible window in window mode: the result is true | test the popup bit, which only the fullscreen style has | not executed | Window.AsWrittenAlwaysFullscreen | Window.IsWindowFullscreenMeaning |
