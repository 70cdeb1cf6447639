/**
 * The Windows user-mode library state (`CxPlatform`, `CxPlatPerfFreq`,
 * `CxPlatProcessorInfo`, `CxPlatProcessorGroupInfo`, `CxPlatProcessorCount`)
 * and the operations on it: initialisation with its unwinding, the
 * processor-table construction and teardown, the debug allocation-failure
 * setter and getter, and the debug allocator that records a tag in a
 * header and checks it on free.
 *
 * The heap is abstract: a block is a number, and the map `blocks` holds
 * the live blocks with the tag written into each one's header. The contents
 * of the two processor tables are arrays.
 */
module WinUserPlatform {
  import opened Ints
  import opened Status
  import opened Optional
  import opened FaultInjection
  import opened Topology

  /**
   * `CXPLAT_POOL_PROC` and `CXPLAT_POOL_TMP_ALLOC`, the multi-character
   * constants `'10xC'` and `'20xC'` as MSVC evaluates them (the first
   * character in the most significant byte).
   */
  const POOL_PROC: uint32 := 0x3130_7843
  const POOL_TMP_ALLOC: uint32 := 0x3230_7843

  /** What one allocation meets: the random draw for injection, and whether `HeapAlloc` succeeds. */
  datatype AllocDraw = AllocDraw(rand: uint32, heapOk: bool)

  /**
   * The answers of `GetLogicalProcessorInformationEx(RelationGroup, ...)`:
   * the length the sizing call reports (0 when it fails), the group records
   * the second call returns (`None` when it fails), and `GetLastError()`.
   */
  datatype GroupQuery = GroupQuery(length: uint32, answer: Option<seq<GroupRecord>>, lastError: uint32)

  /**
   * What the operating system guarantees: a failing call leaves a nonzero
   * last error, and the records it returns are well formed.
   */
  predicate GroupQueryWellFormed(q: GroupQuery) {
    (q.length == 0 || q.answer.None? ==> q.lastError != 0)
    && (q.answer.Some? ==> WellFormed(q.answer.value))
  }

  /** The answer the tables can be built from: some groups, and between 1 and `UINT16_MAX` processors. */
  predicate Supported(groups: seq<GroupRecord>) {
    |groups| > 0 && 0 < ActiveTotal(groups) <= UINT16_MAX
  }

  /** What the allocator does with a live block when it is freed. */
  datatype FreeResult = Freed(remaining: map<nat, uint32>, tagMatches: bool) | NotLive

  /** `CxPlatFree` on the abstract heap: a live block is released and its header tag compared. */
  function FreeBlock(blocks: map<nat, uint32>, b: nat, tag: uint32): (r: FreeResult)
    ensures r.Freed? <==> b in blocks
    ensures r.Freed? ==> r.remaining == blocks - {b} && (r.tagMatches <==> blocks[b] == tag)
  {
    if b in blocks then Freed(blocks - {b}, blocks[b] == tag) else NotLive
  }

  /**
   * The temporary buffer's fate as written when the second query fails:
   * `CxPlatGetProcessorGroupInfo` frees it but leaves the caller's pointer
   * set, and the `Error` path of `CxPlatProcessorInfoInit` frees it again.
   */
  function SecondQueryFailureAsWritten(blocks: map<nat, uint32>, temp: nat): (r: FreeResult)
  {
    var first := FreeBlock(blocks, temp, POOL_TMP_ALLOC);
    if first.Freed? then FreeBlock(first.remaining, temp, POOL_TMP_ALLOC) else first
  }

  /** Whatever the heap held, the second free as written hits a block that is no longer live. */
  lemma SecondQueryFailureAsWrittenFreesTwice(blocks: map<nat, uint32>, temp: nat)
    requires temp in blocks
    ensures SecondQueryFailureAsWritten(blocks, temp) == NotLive
  {
  }

  class Platform {
    /** `CxPlatform.Heap != NULL`. */
    var heap: bool
    /** `CxPlatPerfFreq`. */
    var perfFreq: uint64
    /** `CxPlatform.AllocFailDenominator`. */
    var allocFailDenominator: int32
    /** `CxPlatform.AllocCounter`, a `long`: 32 bits here. */
    var allocCounter: int32
    /** The live heap blocks and the tag in each header. */
    var blocks: map<nat, uint32>
    /** The block the next successful allocation returns. */
    var nextBlock: nat
    /** `CxPlatProcessorInfo`, with the heap block that holds it. */
    var processorInfo: array?<ProcessorInfo>
    var processorInfoBlock: nat
    /** `CxPlatProcessorGroupInfo`, with the heap block that holds it. */
    var processorGroupInfo: array?<ProcessorGroupInfo>
    var processorGroupInfoBlock: nat
    /** `CxPlatProcessorCount`. */
    var processorCount: uint32

    /** Every live block was handed out before `nextBlock`. */
    ghost predicate HeapValid()
      reads this
    {
      forall b :: b in blocks ==> b < nextBlock
    }

    /** Each table that is not null lives in its own heap block, tagged `CXPLAT_POOL_PROC`. */
    ghost predicate Valid()
      reads this
    {
      && HeapValid()
      && (processorInfo != null ==> processorInfoBlock in blocks && blocks[processorInfoBlock] == POOL_PROC)
      && (processorGroupInfo != null ==> processorGroupInfoBlock in blocks && blocks[processorGroupInfoBlock] == POOL_PROC)
      && (processorInfo != null && processorGroupInfo != null ==> processorInfoBlock != processorGroupInfoBlock)
    }

    /** Both tables are present and hold exactly what the answer `groups` yields. */
    ghost predicate TablesBuiltFrom(groups: seq<GroupRecord>)
      requires WellFormed(groups)
      reads this, processorInfo, processorGroupInfo
    {
      && processorInfo != null && processorGroupInfo != null
      && processorInfo[..] == ProcessorTable(groups)
      && processorGroupInfo[..] == GroupTable(groups)
      && processorCount == ActiveTotal(groups)
    }

    /** The library before `CxPlatInitialize`: zero-initialised globals and no heap. */
    constructor ()
      ensures Valid()
      ensures !heap && blocks == map[] && processorInfo == null && processorGroupInfo == null
      ensures allocFailDenominator == 0 && allocCounter == 0 && processorCount == 0
    {
      heap := false;
      perfFreq := 0;
      allocFailDenominator := 0;
      allocCounter := 0;
      blocks := map[];
      nextBlock := 0;
      processorInfo := null;
      processorInfoBlock := 0;
      processorGroupInfo := null;
      processorGroupInfoBlock := 0;
      processorCount := 0;
    }

    /** `CxPlatSetAllocFailDenominator`: stores the value and restarts the count. */
    method SetAllocFailDenominator(value: int32)
      modifies this
      ensures GetAllocFailDenominator() == value && allocCounter == 0
      ensures heap == old(heap) && blocks == old(blocks) && nextBlock == old(nextBlock)
      ensures processorInfo == old(processorInfo) && processorInfoBlock == old(processorInfoBlock)
      ensures processorGroupInfo == old(processorGroupInfo) && processorGroupInfoBlock == old(processorGroupInfoBlock)
      ensures processorCount == old(processorCount) && perfFreq == old(perfFreq)
    {
      allocFailDenominator := value;
      allocCounter := 0;
    }

    /** `CxPlatGetAllocFailDenominator`. */
    function GetAllocFailDenominator(): (value: int32)
      reads this
    {
      allocFailDenominator
    }

    /**
     * The debug `CxPlatAlloc`. The caller must have a heap and must not ask
     * for zero bytes. The injection decision comes first; then `HeapAlloc`
     * of the request plus the header; a new block carries `tag` in its header.
     */
    method Alloc(byteCount: size_t, tag: uint32, draw: AllocDraw) returns (p: Option<nat>)
      requires heap && byteCount != 0
      requires Valid()
      modifies this
      ensures Valid()
      ensures var dec := Decide(Long32, old(allocFailDenominator), old(allocCounter), draw.rand);
        allocCounter == dec.counter && (p.Some? <==> !dec.fail && draw.heapOk)
      ensures p.Some? ==>
        && p.value == old(nextBlock) && p.value !in old(blocks)
        && blocks == old(blocks)[p.value := tag] && nextBlock == old(nextBlock) + 1
      ensures p.None? ==> blocks == old(blocks) && nextBlock == old(nextBlock)
      ensures heap == old(heap) && allocFailDenominator == old(allocFailDenominator)
      ensures processorInfo == old(processorInfo) && processorInfoBlock == old(processorInfoBlock)
      ensures processorGroupInfo == old(processorGroupInfo) && processorGroupInfoBlock == old(processorGroupInfoBlock)
      ensures processorCount == old(processorCount) && perfFreq == old(perfFreq)
    {
      var dec := Decide(Long32, allocFailDenominator, allocCounter, draw.rand);
      allocCounter := dec.counter;
      if dec.fail {
        return None;
      }
      if !draw.heapOk {
        return None;
      }
      p := Some(nextBlock);
      blocks := blocks[nextBlock := tag];
      nextBlock := nextBlock + 1;
    }

    /**
     * The debug `CxPlatFree`. A null pointer skips the header check; any
     * other must be a live block, whose header tag is compared with `tag`
     * (the debug assertion: `tagMatches`) before the block is released.
     */
    method Free(p: Option<nat>, tag: uint32) returns (tagMatches: bool)
      requires p.None? || p.value in blocks
      modifies this
      ensures p.None? ==> tagMatches && blocks == old(blocks)
      ensures p.Some? ==> FreeBlock(old(blocks), p.value, tag) == Freed(blocks, tagMatches)
      ensures heap == old(heap) && nextBlock == old(nextBlock)
      ensures allocFailDenominator == old(allocFailDenominator) && allocCounter == old(allocCounter)
      ensures processorInfo == old(processorInfo) && processorInfoBlock == old(processorInfoBlock)
      ensures processorGroupInfo == old(processorGroupInfo) && processorGroupInfoBlock == old(processorGroupInfoBlock)
      ensures processorCount == old(processorCount) && perfFreq == old(perfFreq)
    {
      if p.None? {
        return true;
      }
      tagMatches := blocks[p.value] == tag;
      blocks := blocks - {p.value};
    }

    /**
     * `CxPlatGetProcessorGroupInfo`, with the temporary buffer's pointer
     * cleared when the second query fails (the code as written leaves it
     * set: see `SecondQueryFailureAsWritten`). A failed sizing call or a
     * failed second query yields the Win32 error as an `HRESULT`; a failed
     * allocation yields out-of-memory; otherwise the buffer is live, tagged
     * `CXPLAT_POOL_TMP_ALLOC`.
     */
    method GetProcessorGroupInfo(query: GroupQuery, draw: AllocDraw) returns (status: HResult, info: Option<nat>)
      requires heap && Valid() && GroupQueryWellFormed(query)
      modifies this
      ensures Valid()
      ensures query.length == 0 ==> status == HResultFromWin32(query.lastError)
      ensures query.length != 0 && query.answer.None? ==> status != S_OK
      ensures var dec := Decide(Long32, old(allocFailDenominator), old(allocCounter), draw.rand);
        query.length != 0 && (dec.fail || !draw.heapOk) ==> status == E_OUTOFMEMORY
      ensures var dec := Decide(Long32, old(allocFailDenominator), old(allocCounter), draw.rand);
        query.length != 0 && !dec.fail && draw.heapOk && query.answer.None? ==> status == HResultFromWin32(query.lastError)
      ensures (&& query.length != 0 && query.answer.Some?
               && old(allocFailDenominator) == 0 && draw.heapOk) ==> info.Some?
      ensures !WinFailed(status) <==> info.Some?
      ensures info.Some? ==>
        && status == S_OK && query.answer.Some? && info.value !in old(blocks)
        && blocks == old(blocks)[info.value := POOL_TMP_ALLOC] && nextBlock == info.value + 1
      ensures info.None? ==> blocks == old(blocks) && WinFailed(status)
      ensures heap == old(heap) && allocFailDenominator == old(allocFailDenominator)
      ensures allocFailDenominator >= 0 ==> allocCounter == old(allocCounter)
      ensures processorInfo == old(processorInfo) && processorInfoBlock == old(processorInfoBlock)
      ensures processorGroupInfo == old(processorGroupInfo) && processorGroupInfoBlock == old(processorGroupInfoBlock)
      ensures processorCount == old(processorCount) && perfFreq == old(perfFreq)
    {
      if query.length == 0 {
        return HResultFromWin32(query.lastError), None;
      }
      info := Alloc(query.length, POOL_TMP_ALLOC, draw);
      if info.None? {
        return E_OUTOFMEMORY, None;
      }
      if query.answer.None? {
        var _ := Free(info, POOL_TMP_ALLOC);
        return HResultFromWin32(query.lastError), None;
      }
      status := S_OK;
    }

    /**
     * `CxPlatProcessorInfoInit`. Both tables must be null on entry. An
     * answer with no group, no processor or more than `UINT16_MAX`
     * processors is not supported; a failed table allocation is
     * out-of-memory. On success the tables are exactly `GroupTable` and
     * `ProcessorTable` of the answer, in two new `CXPLAT_POOL_PROC` blocks,
     * and the processor count is the total. The temporary buffer is freed on
     * every path; on failure both tables are null, the processor table freed
     * if it was allocated. With fault injection off and a heap that never
     * fails, a supported answer always succeeds.
     */
    method ProcessorInfoInit(query: GroupQuery, draws: seq<AllocDraw>) returns (status: HResult)
      requires heap && Valid() && processorInfo == null && processorGroupInfo == null
      requires GroupQueryWellFormed(query) && |draws| == 3
      modifies this
      ensures Valid()
      ensures status == S_OK || WinFailed(status)
      ensures query.length == 0 ==> status == HResultFromWin32(query.lastError)
      ensures (&& query.length != 0 && query.answer.Some? && !Supported(query.answer.value)
               && old(allocFailDenominator) == 0 && draws[0].heapOk) ==> status == WIN_NOT_SUPPORTED
      ensures (&& query.length != 0 && query.answer.Some? && Supported(query.answer.value)
               && old(allocFailDenominator) == 0 && draws[0].heapOk && draws[1].heapOk && draws[2].heapOk) ==> status == S_OK
      ensures status == S_OK ==>
        && query.answer.Some? && Supported(query.answer.value)
        && TablesBuiltFrom(query.answer.value)
        && processorInfoBlock !in old(blocks) && processorGroupInfoBlock !in old(blocks)
        && blocks == old(blocks)[processorInfoBlock := POOL_PROC][processorGroupInfoBlock := POOL_PROC]
      ensures status != S_OK ==> processorInfo == null && processorGroupInfo == null && blocks == old(blocks)
      ensures heap == old(heap) && perfFreq == old(perfFreq) && allocFailDenominator == old(allocFailDenominator)
      ensures allocFailDenominator >= 0 ==> allocCounter == old(allocCounter)
    {
      var info;
      status, info := GetProcessorGroupInfo(query, draws[0]);
      if !WinFailed(status) {
        var groups := query.answer.value;
        if |groups| == 0 {
          status := WIN_NOT_SUPPORTED;
        } else {
          var active := SumActive(groups);
          if active == 0 || active > UINT16_MAX {
            status := WIN_NOT_SUPPORTED;
          } else {
            status := BuildTables(groups, draws[1], draws[2]);
          }
        }
      }
      // Error:
      if info.Some? {
        var _ := Free(info, POOL_TMP_ALLOC);
        if status == S_OK {
          RemoveBeneathTwo(old(blocks), info.value, POOL_TMP_ALLOC, processorInfoBlock, processorGroupInfoBlock, POOL_PROC);
        } else if processorInfo != null {
          RemoveBeneathOne(old(blocks), info.value, POOL_TMP_ALLOC, processorInfoBlock, POOL_PROC);
        } else {
          RemoveAdded(old(blocks), info.value, POOL_TMP_ALLOC);
        }
      }
      // The group table is allocated last and nothing fails after it, so on
      // a failing path it is null and its release here never runs.
      if WinFailed(status) {
        if processorInfo != null {
          var _ := Free(Some(processorInfoBlock), POOL_PROC);
          RemoveAdded(old(blocks), processorInfoBlock, POOL_PROC);
          processorInfo := null;
        }
      }
    }

    /** Adding a new key and removing it again leaves the map as it was. */
    static lemma RemoveAdded(m: map<nat, uint32>, k: nat, v: uint32)
      requires k !in m
      ensures m[k := v] - {k} == m
    {
    }

    /** Removing a new key from under one later update. */
    static lemma RemoveBeneathOne(m: map<nat, uint32>, k: nat, v: uint32, k1: nat, v1: uint32)
      requires k !in m && k != k1
      ensures m[k := v][k1 := v1] - {k} == m[k1 := v1]
    {
    }

    /** Removing a new key from under two later updates. */
    static lemma RemoveBeneathTwo(m: map<nat, uint32>, k: nat, v: uint32, k1: nat, k2: nat, v1: uint32)
      requires k !in m && k != k1 && k != k2
      ensures m[k := v][k1 := v1][k2 := v1] - {k} == m[k1 := v1][k2 := v1]
    {
    }

    /**
     * The first loop of `CxPlatProcessorInfoInit`: the sum of the groups'
     * active processor counts.
     */
    static method SumActive(groups: seq<GroupRecord>) returns (active: uint32)
      requires WellFormed(groups)
      ensures active == ActiveTotal(groups)
    {
      active := 0;
      var i := 0;
      while i < |groups|
        invariant i <= |groups|
        invariant active == Offset(groups, i)
      {
        OffsetStep(groups, i);
        OffsetMonotone(groups, i + 1, |groups|);
        active := active + groups[i].activeProcessorCount;
        i := i + 1;
      }
      assert groups[..|groups|] == groups;
    }

    /**
     * The allocations and the filling loops of `CxPlatProcessorInfoInit`
     * for a supported answer: the processor table and the group table are
     * allocated in that order; the group table gets each group's mask,
     * count and running offset; then each processor gets the first group
     * whose range holds it.
     */
    method BuildTables(groups: seq<GroupRecord>, draw1: AllocDraw, draw2: AllocDraw) returns (status: HResult)
      requires heap && Valid() && processorInfo == null && processorGroupInfo == null
      requires WellFormed(groups) && Supported(groups)
      modifies this
      ensures Valid()
      ensures status == S_OK || status == E_OUTOFMEMORY
      ensures old(allocFailDenominator) == 0 && draw1.heapOk && draw2.heapOk ==> status == S_OK
      ensures status == S_OK ==>
        && TablesBuiltFrom(groups)
        && processorInfoBlock !in old(blocks) && processorGroupInfoBlock !in old(blocks)
        && blocks == old(blocks)[processorInfoBlock := POOL_PROC][processorGroupInfoBlock := POOL_PROC]
      ensures status != S_OK ==>
        && (processorInfo == null || blocks == old(blocks)[processorInfoBlock := POOL_PROC])
        && (processorInfo == null ==> blocks == old(blocks))
        && processorGroupInfo == null
        && (processorInfo != null ==> processorInfoBlock !in old(blocks))
      ensures heap == old(heap) && perfFreq == old(perfFreq) && allocFailDenominator == old(allocFailDenominator)
      ensures allocFailDenominator >= 0 ==> allocCounter == old(allocCounter)
    {
      status := AllocTables(groups, draw1, draw2);
      if status == S_OK {
        var count := FillGroupTable(groups, processorGroupInfo);
        processorCount := count;
        FillProcessorTable(groups, processorGroupInfo, processorInfo);
      }
    }

    /**
     * The two allocations of `CxPlatProcessorInfoInit`, each followed by its
     * failure exit: the processor table first, then the group table.
     */
    method AllocTables(groups: seq<GroupRecord>, draw1: AllocDraw, draw2: AllocDraw) returns (status: HResult)
      requires heap && Valid() && processorInfo == null && processorGroupInfo == null
      requires WellFormed(groups) && Supported(groups)
      modifies this
      ensures Valid()
      ensures status == S_OK || status == E_OUTOFMEMORY
      ensures old(allocFailDenominator) == 0 && draw1.heapOk && draw2.heapOk ==> status == S_OK
      ensures status == S_OK ==>
        && processorInfo != null && fresh(processorInfo) && processorInfo.Length == ActiveTotal(groups)
        && processorGroupInfo != null && fresh(processorGroupInfo) && processorGroupInfo.Length == |groups|
        && processorInfoBlock !in old(blocks) && processorGroupInfoBlock !in old(blocks)
        && blocks == old(blocks)[processorInfoBlock := POOL_PROC][processorGroupInfoBlock := POOL_PROC]
      ensures status != S_OK ==>
        && (processorInfo == null || blocks == old(blocks)[processorInfoBlock := POOL_PROC])
        && (processorInfo == null ==> blocks == old(blocks))
        && processorGroupInfo == null
        && (processorInfo != null ==> processorInfoBlock !in old(blocks))
      ensures heap == old(heap) && perfFreq == old(perfFreq) && allocFailDenominator == old(allocFailDenominator)
      ensures allocFailDenominator >= 0 ==> allocCounter == old(allocCounter)
    {
      var active := ActiveTotal(groups);
      var p := Alloc(active * 8, POOL_PROC, draw1);  // sizeof(CXPLAT_PROCESSOR_INFO) is 8
      if p.None? {
        return E_OUTOFMEMORY;
      }
      processorInfo := new ProcessorInfo[active];
      processorInfoBlock := p.value;
      var g := Alloc(|groups| * 16, POOL_PROC, draw2);  // sizeof(CXPLAT_PROCESSOR_GROUP_INFO) is 16
      if g.None? {
        return E_OUTOFMEMORY;
      }
      processorGroupInfo := new ProcessorGroupInfo[|groups|];
      processorGroupInfoBlock := g.value;
      status := S_OK;
    }

    /**
     * The second loop of `CxPlatProcessorInfoInit`: each group's mask and
     * count, and as its offset the running processor count, which ends as
     * the total.
     */
    static method FillGroupTable(groups: seq<GroupRecord>, table: array<ProcessorGroupInfo>) returns (count: uint32)
      requires WellFormed(groups) && table.Length == |groups|
      modifies table
      ensures table[..] == GroupTable(groups)
      ensures count == ActiveTotal(groups)
    {
      count := 0;
      var i := 0;
      while i < |groups|
        invariant i <= |groups|
        invariant count == Offset(groups, i)
        invariant forall j :: 0 <= j < i ==> table[j] == GroupEntry(groups, j)
      {
        OffsetStep(groups, i);
        OffsetMonotone(groups, i + 1, |groups|);
        table[i] := ProcessorGroupInfo(groups[i].activeProcessorMask, groups[i].activeProcessorCount, count);
        assert table[i] == GroupEntry(groups, i);
        count := count + groups[i].activeProcessorCount;
        i := i + 1;
      }
      assert groups[..|groups|] == groups;
    }

    /**
     * The nested loop of `CxPlatProcessorInfoInit`: for each processor, the
     * groups are searched in order and the first whose range holds it gives
     * the entry; the search then stops.
     */
    static method FillProcessorTable(groups: seq<GroupRecord>, groupTable: array<ProcessorGroupInfo>, table: array<ProcessorInfo>)
      requires WellFormed(groups) && groupTable[..] == GroupTable(groups) && table.Length == ActiveTotal(groups)
      modifies table
      ensures table[..] == ProcessorTable(groups)
    {
      var proc := 0;
      while proc < table.Length
        invariant proc <= table.Length
        invariant forall q :: 0 <= q < proc ==> table[q] == ProcessorEntry(groups, q)
      {
        FirstGroupFinds(groups, proc);
        ghost var target := FirstGroupFrom(groups, proc, 0);
        var group := 0;
        while group < |groups|
          invariant group <= target
          invariant forall q :: 0 <= q < proc ==> table[q] == ProcessorEntry(groups, q)
        {
          var entry := groupTable[group];
          assert entry == GroupEntry(groups, group);
          if entry.offset <= proc < entry.offset + groups[group].activeProcessorCount {
            table[proc] := ProcessorInfo(proc - entry.offset, group);
            assert InGroup(groups, proc, group);
            assert group == target;
            break;
          }
          group := group + 1;
        }
        assert table[proc] == ProcessorEntry(groups, proc);
        proc := proc + 1;
      }
    }

    /** `CxPlatProcessorInfoUnInit`: frees both tables (a null one skips the check) and nulls them. */
    method ProcessorInfoUnInit()
      requires Valid()
      modifies this
      ensures Valid()
      ensures processorInfo == null && processorGroupInfo == null
      ensures blocks == old(blocks)
        - (if old(processorInfo) != null then {old(processorInfoBlock)} else {})
        - (if old(processorGroupInfo) != null then {old(processorGroupInfoBlock)} else {})
      ensures heap == old(heap) && perfFreq == old(perfFreq) && processorCount == old(processorCount)
      ensures allocFailDenominator == old(allocFailDenominator) && allocCounter == old(allocCounter)
    {
      var _ := Free(if processorGroupInfo != null then Some(processorGroupInfoBlock) else None, POOL_PROC);
      processorGroupInfo := null;
      var _ := Free(if processorInfo != null then Some(processorInfoBlock) else None, POOL_PROC);
      processorInfo := null;
    }

    /**
     * `CxPlatInitialize`. It reads the performance-counter frequency
     * (`freq`) and creates the heap (`heapCreated`; failure is
     * out-of-memory); resets the fault-injection state; builds the
     * processor tables. On failure the heap, and with it every block, is
     * destroyed and the handle left null, and no table remains.
     */
    method Initialize(freq: uint64, heapCreated: bool, query: GroupQuery, draws: seq<AllocDraw>) returns (status: HResult)
      requires Valid() && !heap && processorInfo == null && processorGroupInfo == null
      requires GroupQueryWellFormed(query) && |draws| == 3
      modifies this
      ensures Valid()
      ensures perfFreq == freq
      ensures status == S_OK || WinFailed(status)
      ensures !heapCreated ==> status == E_OUTOFMEMORY
      ensures heapCreated ==> allocFailDenominator == 0 && allocCounter == 0
      ensures (&& heapCreated && query.length != 0 && query.answer.Some? && Supported(query.answer.value)
               && draws[0].heapOk && draws[1].heapOk && draws[2].heapOk) ==> status == S_OK
      ensures status == S_OK ==>
        && heap && query.answer.Some? && Supported(query.answer.value)
        && TablesBuiltFrom(query.answer.value)
      ensures status != S_OK ==> !heap && processorInfo == null && processorGroupInfo == null
      ensures status != S_OK && heapCreated ==> blocks == map[]
      ensures !heapCreated ==> blocks == old(blocks)
    {
      perfFreq := freq;
      if !heapCreated {
        status := E_OUTOFMEMORY;
      } else {
        heap := true;
        allocFailDenominator := 0;
        allocCounter := 0;
        status := ProcessorInfoInit(query, draws);
      }
      // Error:
      if WinFailed(status) {
        if heap {
          heap := false;
          blocks := map[];
        }
      }
    }
  }
}
