# cxplat core, modelled in Dafny

cxplat is a thin operating-system abstraction layer for Windows kernel mode, Windows user mode, Linux and macOS. Most of it forwards to the operating system. This project models the self-contained logic that sits around those calls, and proves what that logic promises:

- **`Rtl::KArray<T>`** (module `Rtl`), the growable kernel-mode array. It is a class with an array buffer, a capacity and an element count. Modelled: `reserve`, `grow`, `resize`, `clear`, `append`, `pop_back`, `insertAt`, `moveElements`, `eraseAt`, `insertSorted`, `insertSortedUnique`, `operator[]`, `reset`, and the move constructor and move assignment. Whether the pool allocator has memory is an input of each call that may allocate.
- **Time arithmetic** (module `Time` for the shared helpers and the Windows counter conversion, module `PosixTime` for `struct timespec`). Modelled: the 32-bit difference across counter wrap-around, the 64-bit difference, the "at or before" orderings, the split high/low multiply-and-divide of `CxPlatTimePlatToUs64` and `CxPlatTimeUs64ToPlat`, `CxPlatTimespecToUs`, the deadline of `CxPlatGetAbsoluteTime` and the interval of `CxPlatSleep`. Clock readings are parameters.
- **Status codes** (module `Status`): `CXPLAT_FAILED` and `CXPLAT_SUCCEEDED` on POSIX (an errno in an `unsigned int`) and on Windows (an `HRESULT`), and `HRESULT_FROM_WIN32`.
- **Debug allocation-failure injection** (module `FaultInjection`). The denominator/counter rule is shared by both allocators and is stated against the sequence of outcomes it produces. The counter is a C `long` that wraps: 32 bits on Windows, 64 bits on the 64-bit POSIX targets.
- **The library state on POSIX** (module `PosixPlatform`): initialisation, the fault-injection setter and getter, the debug allocator, the current-processor lookup, and the Linux thread creation with its retry. Creation is modelled as the sequence of pthread calls it makes.
- **The library state on Windows user mode** (module `WinUserPlatform`): an abstract heap of tagged blocks; the debug allocator and free; `CxPlatGetProcessorGroupInfo`; `CxPlatProcessorInfoInit`, which fills the two processor tables with nested loops; its teardown; and `CxPlatInitialize` with its unwinding.
- **The processor topology** (module `Topology`). It gives the specification of the tables: group offsets are prefix sums of the active counts, and each flat processor index maps to one group and an index within it. It also holds the user-mode `CxPlatProcCurrentNumber`.
- **Windows user-mode thread creation** (module `WinUserThread`): the affinity mask, the ideal-processor hint, the priority and the truncated name.
- **The POSIX event** (module `PosixEvent`): a class with `Signaled` and `AutoReset`. The mutex and condition variable are abstracted. Each return from a condition wait is an input saying whether it timed out and what `Signaled` then holds.

C integer semantics are written out where they matter:
- `Wrap32` and `Wrap64` for unsigned wrap-around;
- `ToInt32` for the signed reading of a 32-bit value;
- `CDiv` and `CRem` for division that truncates toward zero. C leaves the one overflowing case, `LONG_MIN % -1`, undefined; `CRem` gives 0 there (see `FaultInjection.Decide` under "## Left out").

Code that changes state in place is modelled as classes and methods with loops. Each method is proved against specification functions (`Resized`, `InsertedAt`, `RemovedAt`, `Moved`, `FirstNotLess`, `GroupTable`, `ProcessorTable`, `TimedWait`, `Setup`). The lemmas next to those functions prove what the source promises about them.

## Model

| member | source | states |
|---|---|---|
| Status.PosixFailedCharacterised | inc/cxplat_posix.h:50-57 | `CXPLAT_SUCCEEDED` is the exact complement of `CXPLAT_FAILED`, and a POSIX status fails exactly when it is a positive value below 2^31 |
| Status.PosixNamedCodes | inc/cxplat_posix.h:55-57 | success succeeds; out-of-memory (12) and not-supported (95) fail |
| Status.WinFailedCharacterised | inc/cxplat_winuser.h:32-38 | a Windows status fails exactly when its top bit is set; `S_OK` succeeds, and `E_OUTOFMEMORY` and `E_NOINTERFACE` fail |
| Status.HResultFromWin32 | src/lib/cxplat_winuser.c:52 | the converted code is a failure exactly when the Win32 code is nonzero; a small code keeps its value under the failure bit and facility 7 |
| Time.Diff32 | inc/cxplat_winuser.h:325-335 | the result is `(T2 - T1) mod 2^32` for all inputs, `T2 - T1` when `T2 > T1`, and 0 when they are equal (the POSIX copy at inc/cxplat_posix.h:261-271 is identical) |
| Time.Diff64 | inc/cxplat_winuser.h:309-318 | `T2 - T1` when `T1 <= T2`, and otherwise the 64-bit wrap of the negative difference |
| Time.AtOrBefore64 | inc/cxplat_winuser.h:342-351 | true exactly when the 64-bit difference is the true difference, i.e. no wrap |
| Time.AtOrBefore32 | inc/cxplat_winuser.h:358-364 | true exactly when the wrapped difference `Diff32(T1, T2)` is at most 2^31 |
| Time.AtOrBeforeReflexive | inc/cxplat_posix.h:290-296 | both orderings are reflexive |
| Time.AtOrBefore32HalfRange | inc/cxplat_winuser.h:358-364 | a time `d <= 2^31` ticks later (across the wrap) is at or after; when `0 < d < 2^31` the order is strict |
| Time.Diff32Examples | inc/cxplat_posix.h:261-271 | 32 ticks across the wrap are 0x20; 100 ticks without wrap are 100; a reversed pair wraps |
| Time.MulDivSplit | inc/cxplat_winuser.h:264-268 | with both halves divided by `div`, the high/low split with its 64-bit wraps equals `floor(x * mul / div)` whenever no intermediate overflows |
| Time.MulDivSplitExact | inc/cxplat_winuser.h:264-268 | the same fact about the split expression itself |
| Time.PlatToUs64 | inc/cxplat_winuser.h:253-269 | `CxPlatTimePlatToUs64(C) == floor(C * 1000000 / Freq)` whenever no intermediate overflows, and so for every count at every frequency from 1 MHz to 2^32 - 10^6 Hz |
| Time.UsualFrequenciesFit | inc/cxplat_winuser.h:253-269 | for every frequency from 1 MHz to 2^32 - 10^6 Hz no intermediate of the conversion overflows, whatever the count |
| Time.UsToPlatAsWrittenLosesScale | inc/cxplat_winuser.h:276-285 | as written, at 10 MHz one microsecond converts to 1 tick where the exact value is 10 |
| Time.UsToPlat | inc/cxplat_winuser.h:276-285 | with both halves divided by 1000000, the conversion is `floor(us * Freq / 1000000)` whenever no intermediate overflows |
| PosixTime.TimespecToUs | src/lib/cxplat_posix.c:211-217 | for a normalized timespec that fits, the result is the instant in whole microseconds: seconds part `sec`, sub-second part `nsec / 1000` |
| PosixTime.GetAbsoluteTime | src/lib/cxplat_posix.c:243-278 | from a normalized start, the deadline is normalized after at most one carry, and lies exactly `DeltaMs * 10^6` ns after the start |
| PosixTime.SleepInterval | src/lib/cxplat_posix.c:280-294 | the `nanosleep` interval is normalized, holds whole milliseconds, has `sec * 1000 + nsec / 10^6 == ms`, and lasts `ms * 10^6` ns |
| PosixEvent.TimedWait | inc/cxplat_posix.h:445-490 | the wait loop consumes no more wakes than there are |
| PosixEvent.TimedWaitCharacterised | inc/cxplat_posix.h:468-482 | the wait consumes wakes up to the first that ends it; it is satisfied unless that wake timed out; a satisfied wait leaves the flag clear exactly for an auto-reset event; a timed-out wait leaves the flag as the wake found it |
| PosixEvent.WaitForeverIsUntimedWait | inc/cxplat_posix.h:416-441 | the untimed wait loop is the timed one without timeouts: always satisfied, and the flag stays set exactly for a manual-reset event |
| PosixEvent.Event.Initialize | inc/cxplat_posix.h:332-357 | `AutoReset = !ManualReset` and `Signaled = InitialState` |
| PosixEvent.Event.Set | inc/cxplat_posix.h:375-397 | `Signaled` becomes true; `AutoReset` is unchanged |
| PosixEvent.Event.Reset | inc/cxplat_posix.h:401-412 | `Signaled` becomes false; `AutoReset` is unchanged |
| PosixEvent.Event.WaitForever | inc/cxplat_posix.h:416-441 | returns only after a wakeup that found the flag set (or at once if it was set); afterwards the flag is set exactly for a manual-reset event |
| PosixEvent.Event.WaitWithTimeout | inc/cxplat_posix.h:445-490 | requires `TimeoutMs != UINT32_MAX`; the result and the flag are `TimedWait`'s; the deadline is the clock reading plus the timeout |
| PosixEvent.EventBasicScenario | src/test/lib/EventTest.cpp:19-38 | on an auto-reset event created unsignaled, the first timed wait returns false and the timed wait after reset and set returns true |
| FaultInjection.Decide | src/lib/cxplat_posix.c:193-196 | `D == 0` never fails; `D > 0` fails exactly when `Rand % D == 1` and leaves the counter; `D < 0` increments the `long` counter with two's-complement wrap (the largest value goes to the smallest), and from a nonnegative counter below the largest it fails exactly when the new value is a multiple of `|D|` |
| FaultInjection.CRemOfNonNegative | src/lib/cxplat_posix.c:194 | C's `%` of a nonnegative counter by a negative denominator is the remainder by its absolute value |
| FaultInjection.CounterAfter | src/lib/cxplat_winuser.c:336-337 | with `D < 0` the counter after n calls is the start plus n, wrapped to the width of `long`; otherwise it does not move |
| FaultInjection.NegativeDenominatorPeriodic | src/lib/cxplat_posix.c:194 | with `D < 0` the draws do not matter: while the counter stays below the largest `long`, the k-th call fails exactly when `counter + k` is a multiple of `|D|` |
| FaultInjection.NthAllocationFails | src/lib/cxplat_posix.c:165-173 | after the setter stores a negative `D`, exactly the `|D|`-th, `2|D|`-th, ... allocations fail, for the first `LONG_MAX` calls |
| FaultInjection.WindowsCounterWraps | src/lib/cxplat_winuser.c:25 | on Windows the 32-bit counter reads `-2^31` after 2^31 calls, and with `D == -3` the call numbered 2^31 + 1, a multiple of 3, does not fail |
| FaultInjection.NeverFailsForZeroOrOne | src/lib/cxplat_winuser.c:336 | `D == 0` and `D == 1` never inject a failure |
| FaultInjection.MemoryTestExpectationAsWritten | src/test/lib/MemoryTest.cpp:87-97 | the test expects exactly loop index `FailureIter` to fail |
| FaultInjection.MemoryTestExpectation | src/test/lib/MemoryTest.cpp:87-97 | the corrected expectation: exactly loop index `FailureIter - 1` fails |
| FaultInjection.MemoryTestMatchesCorrected | src/test/lib/MemoryTest.cpp:87-97 | for `D = -6` and ten allocations, the allocator's outcomes equal the corrected expectation for every draw |
| FaultInjection.MemoryTestNthPattern | src/test/lib/MemoryTest.cpp:87-97 | in that run index 5 fails and index 6 does not, so the expectation as written never matches |
| PosixPlatform.Platform.constructor | src/lib/cxplat_posix.c:14-46 | before initialisation the fault-injection state is zero and no random source is open |
| PosixPlatform.Platform.Initialize | src/lib/cxplat_posix.c:100-148 | resets the fault-injection state; the processor count is 1 on Darwin and otherwise the `sysconf` answer truncated to 32 bits; a failed open of the random source returns `errno` |
| PosixPlatform.Platform.SetAllocFailDenominator | src/lib/cxplat_posix.c:165-180 | stores the value, which the getter then returns, and resets the counter; nothing else changes |
| PosixPlatform.Platform.Alloc | src/lib/cxplat_posix.c:183-199 | the counter follows `Decide`; the allocation succeeds exactly when no failure is injected and `malloc` succeeds |
| PosixPlatform.Platform.ProcCurrentNumber | src/lib/cxplat_posix.c:296-310 | the result is below the processor count; it is 0 on Darwin, and on Linux it is the CPU number itself when that is in range |
| PosixPlatform.CreateStatusAsWrittenHidesFailure | src/lib/cxplat_posix.c:387-397 | as written, two failed `pthread_create` calls with `errno` still 0 report success |
| PosixPlatform.CreateStatusReportsFailure | src/lib/cxplat_posix.c:387-397 | with the return code as the status, the status is success exactly when one of the two attempts succeeded |
| PosixPlatform.CreateStatusAsWrittenPinsMissingThread | src/lib/cxplat_posix.c:387-407 | as written, with `SET_AFFINITIZE`, two failed attempts and `errno` at 0, the pinning call is made on a thread that was never created |
| PosixPlatform.ThreadCreate | src/lib/cxplat_posix.c:314-428 | the corrected variant, whose status after two failed attempts is `CreateStatus`: a failing `pthread_attr_init` returns `errno` at once. Otherwise the calls are: attribute setup, one or two creation attempts (the second without the attribute), pinning, then destroy. Success holds exactly when an attempt succeeded. The thread is pinned exactly when it was created with `SET_AFFINITIZE` |
| PosixPlatform.AttrSetup | src/lib/cxplat_posix.c:331-356 | the attribute gets the CPU set exactly with `SET_AFFINITIZE` and the scheduling parameter exactly with `HIGH_PRIORITY` |
| PosixPlatform.CreateAttempts | src/lib/cxplat_posix.c:387-397 | one attempt with the attribute, then a retry without it exactly when the first fails |
| PosixPlatform.Pinning | src/lib/cxplat_posix.c:401-423 | the thread is pinned to its ideal processor exactly on success with `SET_AFFINITIZE` |
| Topology.ActiveTotal | src/lib/cxplat_winuser.c:109-112 | the total of well-formed groups is at most 64 per group |
| Topology.OffsetStep | src/lib/cxplat_winuser.c:160-166 | consecutive group offsets differ by the active count of the group between them |
| Topology.OffsetMonotone | src/lib/cxplat_winuser.c:160-166 | offsets grow with the group number and end at the total |
| Topology.GroupTable | src/lib/cxplat_winuser.c:160-166 | one entry per active group, entry `g` being that group's entry of the loop |
| Topology.GroupTableLayout | src/lib/cxplat_winuser.c:160-166 | entry `g` holds group `g`'s active mask and active count; the first offset is 0 and each next offset is the previous one plus its count, so every group's range lies below the processor total |
| Topology.GroupUnique | src/lib/cxplat_winuser.c:168-183 | the group ranges are disjoint: a processor lies in at most one group |
| Topology.GroupExists | src/lib/cxplat_winuser.c:168-183 | the group ranges cover every processor below the total |
| Topology.FirstGroupFrom | src/lib/cxplat_winuser.c:169-182 | the inner search returns the first group that holds the processor, or the end |
| Topology.FirstGroupFinds | src/lib/cxplat_winuser.c:168-183 | the search finds every processor below the total, in the one group that holds it |
| Topology.ProcessorEntry | src/lib/cxplat_winuser.c:170-173 | a processor's entry names the group that holds it, and the index is its distance from that group's offset, below the group's count |
| Topology.ProcessorTable | src/lib/cxplat_winuser.c:168-183 | one entry per processor below the total, each `ProcessorEntry` |
| Topology.ProcessorTableMapsToUniqueGroup | src/lib/cxplat_winuser.c:168-183 | the group an entry names is the only group whose range holds the processor, and the index lies within that group's count |
| Topology.ProcessorTableInverse | src/lib/cxplat_winuser.c:168-183 | slot `i` of group `g` is entry `Offset[g] + i` of the processor table, and that entry is `(i, g)` |
| Topology.GroupTableCoversTotal | src/lib/cxplat_winuser.c:160-166 | the first offset is 0, and the last group's range ends at the total |
| Topology.GroupSlot | src/lib/cxplat_winuser.c:160-183 | both tables agree on each slot of each group |
| Topology.ProcCurrentNumber | inc/cxplat_winuser.h:419-426 | the result lies in the current group's range `[Offset, Offset + Count)`, so it is below the processor count, and its table entry is `(Number % Count, Group)` |
| WinUserPlatform.FreeBlock | src/lib/cxplat_winuser.c:359-367 | a free succeeds exactly on a live block; it removes that block alone and reports whether the header tag matches |
| WinUserPlatform.SecondQueryFailureAsWrittenFreesTwice | src/lib/cxplat_winuser.c:72-73 | as written, when the second query fails the temporary buffer is freed again by the caller's error path, on a block that is no longer live |
| WinUserPlatform.Platform.constructor | src/lib/cxplat_winuser.c:8-34 | before initialisation there is no heap, no block and no table, and the fault-injection state is zero |
| WinUserPlatform.Platform.SetAllocFailDenominator | src/lib/cxplat_winuser.c:301-316 | stores the value, which the getter then returns, and resets the counter; nothing else changes |
| WinUserPlatform.Platform.Alloc | src/lib/cxplat_winuser.c:327-351 | the 32-bit counter follows `Decide`. On success there is a fresh block carrying the tag in its header, and the other blocks are unchanged. On failure the heap is unchanged |
| WinUserPlatform.Platform.Free | src/lib/cxplat_winuser.c:354-372 | `Free(NULL)` skips the check; otherwise the block is released and the result says whether its header tag matches |
| WinUserPlatform.Platform.GetProcessorGroupInfo | src/lib/cxplat_winuser.c:39-77 | a failed sizing call, or a second query that fails after the buffer was allocated, gives the Win32 error as an `HRESULT`; an allocation refused by the fault-injection decision or by the heap gives out-of-memory. On success the temporary buffer is live and tagged `CXPLAT_POOL_TMP_ALLOC`; on failure it does not remain |
| WinUserPlatform.Platform.ProcessorInfoInit | src/lib/cxplat_winuser.c:80-205 | no group, no processor or more than `UINT16_MAX` processors is not supported. On success both tables are `GroupTable`/`ProcessorTable` of the answer in two new `CXPLAT_POOL_PROC` blocks. The temporary buffer is freed on every path. On failure both tables are null and the heap is as before. Without injected or heap failures a supported answer succeeds |
| WinUserPlatform.Platform.SumActive | src/lib/cxplat_winuser.c:109-112 | the first loop sums the active counts to `ActiveTotal` |
| WinUserPlatform.Platform.BuildTables | src/lib/cxplat_winuser.c:132-183 | the allocations and fills: on success the tables are exactly the specification tables and the count is the total; on failure only the processor table may remain, in its new block |
| WinUserPlatform.Platform.AllocTables | src/lib/cxplat_winuser.c:132-158 | the processor table, then the group table, each in a fresh `CXPLAT_POOL_PROC` block of the right length; a failure leaves the group table null |
| WinUserPlatform.Platform.FillGroupTable | src/lib/cxplat_winuser.c:160-166 | the group table becomes `GroupTable(groups)` and the running count ends as the total |
| WinUserPlatform.Platform.FillProcessorTable | src/lib/cxplat_winuser.c:168-183 | the processor table becomes `ProcessorTable(groups)` |
| WinUserPlatform.Platform.ProcessorInfoUnInit | src/lib/cxplat_winuser.c:209-217 | both tables become null, and exactly the blocks of the non-null ones are freed |
| WinUserPlatform.Platform.Initialize | src/lib/cxplat_winuser.c:221-267 | a failed heap creation is out-of-memory. Once the heap exists, the fault-injection state is reset. On success the tables are built from the answer. On failure the heap is destroyed (no block remains), the handle is null and no table remains |
| WinUserThread.SingleProcessorMask | inc/cxplat_winuser.h:550 | `1ull << Index` has exactly bit `Index` set |
| WinUserThread.Affinity | inc/cxplat_winuser.h:546-555 | the group is always the ideal processor's; with `SET_AFFINITIZE` the mask is that processor's single bit, and otherwise its group's active mask |
| WinUserThread.TruncatedName | inc/cxplat_winuser.h:562-570 | the name handed to the thread is a prefix of the given name, of at most 62 characters |
| WinUserThread.Setup | inc/cxplat_winuser.h:546-582 | the group affinity comes first and only once. The ideal-processor hint (with the processor's index) is set exactly with `SET_IDEAL_PROC`, the priority exactly with `HIGH_PRIORITY`, and the truncated name exactly when a name is given |
| WinUserThread.ThreadCreateAsWrittenHidesFailure | inc/cxplat_winuser.h:542-544 | as written, a failed `CreateThread` with last error 8 returns 8, which reads as success |
| WinUserThread.ThreadCreate | inc/cxplat_winuser.h:506-584 | with the error converted, the status is success exactly when the thread was created, and then the calls on it are `Setup`'s |
| WinUserThread.ThreadCreateOnBuiltTables | inc/cxplat_winuser.h:546-555 | with the tables built at initialisation, every ideal processor below the count meets the affinity's lookups. The affinity's group holds the processor, the unpinned mask is that group's active mask, and the pinned bit index is the processor's distance from the group's offset, below 64 |
| Rtl.GrowTarget | inc/karray.h:933-946 | the capacity `grow` asks for is the largest of the count, 4 and 1.5 times the old capacity |
| Rtl.Resized | inc/karray.h:641-671 | `resize(n)` leaves n elements: the first `min(old, n)` are kept and the new slots are `T()` |
| Rtl.ResizedRoundTrip | inc/karray.h:641-671 | shrinking keeps a prefix, and growing back to the old count restores the contents exactly when every cut element was `T()` |
| Rtl.Moved | inc/karray.h:875-931 | `moveElements` writes slot `to + k` from slot `from + k` and leaves the other slots alone |
| Rtl.FirstNotLess | inc/karray.h:745-756 | the insertion point: every earlier element is less than `t`, and the element there is not |
| Rtl.FirstNotLessUnique | inc/karray.h:745-756 | any position with that property is `FirstNotLess` |
| Rtl.InsertedAt | inc/karray.h:713-727 | `t` at position `i`, the earlier elements kept, and the later ones one slot up |
| Rtl.InsertedAtPermutes | inc/karray.h:713-727 | an insertion is a permutation of the old elements plus `t` |
| Rtl.RemovedAt | inc/karray.h:803-811 | the element at `i` is dropped, and the later ones move one slot down |
| Rtl.RemovedAtPermutes | inc/karray.h:803-811 | a removal drops exactly the one element at `i` |
| Rtl.RemoveInsertedAt | inc/karray.h:713-811 | erasing what was just inserted gives the old elements back |
| Rtl.InsertSortedKeepsSorted | inc/karray.h:745-756 | for a strict weak order, `insertSorted` keeps a sorted array sorted |
| Rtl.EquivalentFoundAtFirstNotLess | inc/karray.h:771-785 | in a sorted array, an element equivalent to `t` exists exactly when the one at the insertion point is equivalent, so checking that one element suffices |
| Rtl.InsertSortedUniqueKeepsStrictlySorted | inc/karray.h:771-785 | `insertSortedUnique` keeps a strictly sorted array strictly sorted when it inserts |
| Rtl.KArray.Count | inc/karray.h:591-599 | `count()` is the element count, never above the capacity |
| Rtl.KArray.constructor | inc/karray.h:951-953 | a new array has no elements and no capacity |
| Rtl.KArray.Reserve | inc/karray.h:601-639 | succeeds at once when the capacity suffices. It fails and changes nothing when the count is at least `(ULONG)(-1)`, when the byte size overflows, or when allocation fails. On success the capacity is exactly the count, in a new buffer holding the same elements |
| Rtl.KArray.CopyElements | inc/karray.h:620-628 | the copy loop moves the first `n` elements into the new buffer |
| Rtl.KArray.Grow | inc/karray.h:933-946 | a no-op returning true when the capacity suffices; otherwise `reserve(GrowTarget)`, whose success decides the result. The elements never change |
| Rtl.KArray.FillSlots | inc/karray.h:646-652 | the new slots of `resize` get `T()`, and the others keep their values |
| Rtl.KArray.Resize | inc/karray.h:641-671 | fails with nothing changed exactly when `reserve` fails; otherwise the contents are `Resized(old, n)` and the capacity is `max(old capacity, n)` |
| Rtl.KArray.Clear | inc/karray.h:673-676 | always succeeds: no elements, and the capacity stays |
| Rtl.KArray.Append | inc/karray.h:678-701 | succeeds exactly when `grow(count + 1)` does; then the contents are `old + [t]`. The buffer is kept when there was room and grows to `GrowTarget` when full. On failure nothing changes |
| Rtl.KArray.PopBack | inc/karray.h:708-711 | drops the last element; on an empty array the request for `SIZE_MAX` is refused and nothing changes; the capacity stays |
| Rtl.KArray.MoveElements | inc/karray.h:875-931 | after the move the buffer is `Moved(old, from, to, number)`, as `memmove` leaves it |
| Rtl.KArray.ShiftInsert | inc/karray.h:719-725 | the shift and placement of `insertAt`: the first `n + 1` slots become `InsertedAt(old, index, t)` |
| Rtl.KArray.ShiftErase | inc/karray.h:808-810 | the shift of `eraseAt`: the first `n - 1` slots become `RemovedAt(old, index)` |
| Rtl.KArray.InsertAt | inc/karray.h:713-743 | succeeds exactly when `index <= count` and `grow` succeeds; then the contents are `old[..i] + [t] + old[i..]`; otherwise nothing changes |
| Rtl.KArray.EraseAt | inc/karray.h:803-811 | an index at or past the count is a fast-fail with nothing changed; otherwise the contents are `old[..i] + old[i+1..]` and the capacity stays |
| Rtl.KArray.At | inc/karray.h:813-827 | the element at an index below the count, and a fast-fail otherwise |
| Rtl.KArray.FindInsertPosition | inc/karray.h:747-753 | the search loop stops at `FirstNotLess` |
| Rtl.KArray.InsertSorted | inc/karray.h:745-769 | succeeds exactly when `grow` does, and then inserts `t` before the first element not less than it (or appends it); otherwise nothing changes |
| Rtl.KArray.InsertSortedUnique | inc/karray.h:771-801 | when the element at the insertion point is equivalent to `t`, succeeds without change; otherwise behaves as `insertSorted` |
| Rtl.KArray.Reset | inc/karray.h:856-873 | the buffer is freed: no elements and no capacity |
| Rtl.KArray.Move | inc/karray.h:560-569 | the new array takes the other's buffer, capacity and elements, and the other is left empty |
| Rtl.KArray.MoveAssign | inc/karray.h:575-589 | after `reset`, this array takes the other's buffer and elements, and the other is left empty; self-assignment leaves the array empty |
| Rtl.KArrayBasic | src/test/lib/KArrayTest.cpp:15-28 | appending 0..9 to an empty array gives count 10 and `a[i] == i` |

## Left out

- Operating-system and foreign calls are parameters or oracles: `CreateThread`, `SetThreadGroupAffinity`, `SetThreadIdealProcessor`, `SetThreadPriority`, `NtSetInformationThread`/`SetThreadDescription`, `WaitForSingleObject`, `pthread_*`, `sched_getcpu`, `sysconf`, `clock_gettime`, `QueryPerformanceCounter`/`Frequency`, `GetLogicalProcessorInformationEx`, `HeapCreate`/`HeapAlloc`/`HeapFree`, `malloc`, `BCryptGenRandom` and the `/dev/urandom` read.
- Concurrency: the event's mutex and condition variable are abstracted into a sequence of wakes, and the lock macros and interlocked wrappers are left out, because their whole point is concurrency.
- NUMA awareness (`CXPLAT_NUMA_AWARE`) is a build option that only adds operating-system calls.
- The custom thread context (`CXPLAT_USE_CUSTOM_THREAD_CONTEXT`) and the Darwin `CxPlatThreadCreate` are left out; only the default Linux and Windows paths are modelled.
- The KArray `(count, value)` constructor is left out, because it ignores its `grow` failure and promises nothing.
- KArray iterators, `data()`, the `DebugBlock` allocator and the pool operators are left out: they add no behaviour over the buffer.
- KArray elements are values. Constructors, destructors and moves of non-trivial element types are not modelled, and neither is the `CXPLAT_FRE_ASSERT` of the non-trivial `moveElements` path.
- Rtl.KArray.Reserve: a reallocation makes the new slots past the count hold `T()` rather than uninitialised memory; nothing reads them before they are written.
- Rtl.KArray.EraseAt and Rtl.KArray.At: the fast-fail is an outcome (`true`, or `None`) rather than a process termination.
- The epoch helpers, `CxPlatTimeUs64`, `CxPlatTimeMs64` and the timer resolution only read clocks.
- 64-bit `time_t` overflow in `CxPlatGetAbsoluteTime` is not modelled; the seconds field is unbounded.
- PosixEvent.Event.WaitWithTimeout: the deadline is computed and returned, but what the condition wait does with it is an input.
- `MaximumProcessorCount` is only logged and is not modelled.
- The debug assertions on the operating system's answers (a group relationship, `ActiveGroupCount <= MaximumGroupCount`) are assumptions about the input (`GroupQueryWellFormed`), not checks.
- WinUserPlatform.Platform.ProcessorInfoInit: the failure path's free of the group table is not modelled. It never runs, since nothing fails after the group table is allocated.
- WinUserPlatform.Platform.Initialize: the `ProcInfoInitialized` branch is not modelled. It never runs, since that flag is set only on success. The trace after a failed query is left out as well.
- WinUserPlatform.GroupQueryWellFormed: a failing operating-system call is assumed to leave a nonzero last error, so `HRESULT_FROM_WIN32(0)` (which is success) is never produced by a failure.
- WinUserThread.AffinityDefined: `1ull << Index` for `Index >= 64` is undefined behaviour in C, and the model requires the index to be below 64 when pinning.
- The flag bit values of `CXPLAT_THREAD_FLAG_*` are defined in a header that is not part of this model; flags are booleans. The pool tags are given the values MSVC assigns to `'10xC'` and `'20xC'`; only their being different matters.
- `CxPlatEventWaitWithTimeout` and `CxPlatThreadWaitWithTimeout` (inc/cxplat_winuser.h:386-393 and 589-596) only forward to `WaitForSingleObject`, after a debug assertion that `TimeoutMs != UINT32_MAX`, so they are not modelled.
- WinUserThread.TruncatedName: each `char` of the name is taken as one wide character. The locale-dependent multibyte decoding of `mbstowcs_s`, the empty name it leaves for an invalid sequence, and the characters that need two `WCHAR`s are not modelled, so the prefix property holds as stated only for single-byte names.
- FaultInjection.Decide: with denominator -1 and the Windows 32-bit `long`, the 2^31-th call after the counter is reset wraps the counter to `LONG_MIN` (src/lib/cxplat_winuser.c:336-337). The source then evaluates `LONG_MIN % -1`, which is undefined behaviour in C (C11 section 6.5.5, paragraph 6) and traps on x86/x64. The model has no trap outcome and reports an ordinary injected failure with the counter at `LONG_MIN`. On the 64-bit POSIX `long` the same case needs 2^63 calls.
- WinUserPlatform.Platform.Alloc: inherits the `LONG_MIN % -1` case of `FaultInjection.Decide` at denominator -1; there the model fails the allocation instead of trapping.
- PosixPlatform.Platform.Alloc: the counter is the 64-bit `long` of the 64-bit POSIX targets; 32-bit POSIX targets, where it would wrap as on Windows, are not modelled.
- PosixPlatform.ThreadCreate: the `errno` returned after a failed `pthread_attr_init` is passed through as given.
- Failures of `pthread_attr_setaffinity_np`, `pthread_attr_setschedparam`, `pthread_setaffinity_np` and `pthread_attr_destroy` are only traced, so they are not modelled.
- `inc/cxplatvector.h` and `CxPlatAsync` in `inc/cxplat.hpp` are thin wrappers and are not part of this model.
- The kernel-mode sources are not part of this model.

## Findings

| source | as written | input that shows it | evidently intended | confidence | as-written member | corrected member |
|---|---|---|---|---|---|---|
| inc/cxplat_winuser.h:276-285 | `CxPlatTimeUs64ToPlat` divides the low half by `CxPlatPerfFreq` | `TimeUs = 1`, `PerfFreq = 10000000` gives 1 instead of 10 | divide both halves by 1000000 | not executed | Time.UsToPlatAsWritten, Time.UsToPlatAsWrittenLosesScale | Time.UsToPlat |
| src/lib/cxplat_posix.c:387-397 | after both `pthread_create` attempts fail, the status is `errno`, which `pthread_create` need not set | both attempts return `EAGAIN` (11) with `errno == 0`: success is reported and no thread exists | return the second attempt's return code | not executed | PosixPlatform.CreateStatusAsWritten, PosixPlatform.CreateStatusAsWrittenHidesFailure, PosixPlatform.CreateStatusAsWrittenPinsMissingThread | PosixPlatform.CreateStatus, PosixPlatform.CreateStatusReportsFailure, PosixPlatform.ThreadCreate |
| inc/cxplat_winuser.h:542-544 | a failed `CreateThread` returns the raw Win32 code of `GetLastError()` as an `HRESULT` | last error `ERROR_NOT_ENOUGH_MEMORY` (8) gives status 8, which `CXPLAT_FAILED` reads as success | `HRESULT_FROM_WIN32(GetLastError())` | not executed | WinUserThread.ThreadCreateAsWritten, WinUserThread.ThreadCreateAsWrittenHidesFailure | WinUserThread.ThreadCreate |
| src/lib/cxplat_winuser.c:72-73 | when the second query fails, the buffer is freed but `*Buffer` stays set, and the caller's `Error` path frees it again | the sizing call succeeds and the second `GetLogicalProcessorInformationEx` call fails: a double free of the temporary buffer | clear `*Buffer` after the free | not executed | WinUserPlatform.SecondQueryFailureAsWritten, WinUserPlatform.SecondQueryFailureAsWrittenFreesTwice | WinUserPlatform.Platform.GetProcessorGroupInfo |
| src/test/lib/MemoryTest.cpp:87-97 | with denominator `-FailureIter` the test expects loop index `FailureIter` to fail | `FailureIter = 6`: the allocator fails the 6th call, loop index 5 | expect loop index `FailureIter - 1` | not executed | FaultInjection.MemoryTestExpectationAsWritten, FaultInjection.MemoryTestNthPattern | FaultInjection.MemoryTestExpectation, FaultInjection.MemoryTestMatchesCorrected |
