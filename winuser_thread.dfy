/**
 * `CxPlatThreadCreate` of the Windows user-mode header. Thread creation is
 * a fixed sequence of operating-system calls: `CreateThread`, then the
 * group affinity, then the optional ideal-processor hint, priority boost
 * and name. The model computes that sequence from the
 * configuration and the processor tables; the calls themselves are outside
 * the model, and `CreateThread`'s outcome and `GetLastError()` are inputs.
 */
module WinUserThread {
  import opened Ints
  import opened Status
  import opened Optional
  import opened ThreadConfig
  import opened Topology

  /** `GROUP_AFFINITY` as the thread is given it: a processor mask within one group. */
  datatype GroupAffinity = GroupAffinity(mask: bv64, group: uint16)

  /** The calls made on a new thread, in the order the header makes them. */
  datatype ThreadStep =
    | SetGroupAffinity(affinity: GroupAffinity)
    | SetIdealProcessor(number: uint32)
    | SetPriorityHighest
    | SetName(name: seq<char>)

  /** What `CxPlatThreadCreate` returns, with the calls it made on the thread. */
  datatype CreateResult = CreateResult(status: HResult, steps: seq<ThreadStep>)

  /** The name buffer holds 64 wide characters and the conversion is given 63, one of them the terminator. */
  const MAX_THREAD_NAME := 62

  /** Bit `b` of a processor mask. */
  predicate BitSet(mask: bv64, b: bv7)
    requires b < 64
  {
    (mask >> b) & 1 == 1
  }

  /** A mask with exactly the bit `i` set: processor `i` of its group and no other. */
  function SingleProcessorMask(i: bv7): (mask: bv64)
    requires i < 64
    ensures forall b: bv7 :: b < 64 ==> (BitSet(mask, b) <==> b == i)
  {
    (1 as bv64) << i
  }

  /**
   * What the header relies on (a debug assertion and a lookup it makes in
   * the tables): the ideal processor has an entry, its group has an entry,
   * and, when pinning, its index names a bit of the 64-bit mask.
   */
  predicate AffinityDefined(config: Config, procInfo: seq<ProcessorInfo>, groupInfo: seq<ProcessorGroupInfo>) {
    && config.idealProcessor as nat < |procInfo|
    && procInfo[config.idealProcessor].group as nat < |groupInfo|
    && (config.flags.setAffinitize ==> procInfo[config.idealProcessor].index < 64)
  }

  /**
   * The affinity the new thread gets: always the ideal processor's group;
   * with `CXPLAT_THREAD_FLAG_SET_AFFINITIZE` only the ideal processor, and
   * otherwise every active processor of the group.
   */
  function Affinity(config: Config, procInfo: seq<ProcessorInfo>, groupInfo: seq<ProcessorGroupInfo>): (a: GroupAffinity)
    requires AffinityDefined(config, procInfo, groupInfo)
    ensures a.group == procInfo[config.idealProcessor].group
    ensures config.flags.setAffinitize ==> a.mask == SingleProcessorMask(procInfo[config.idealProcessor].index as bv7)
    ensures !config.flags.setAffinitize ==> a.mask == groupInfo[procInfo[config.idealProcessor].group].mask
  {
    var info := procInfo[config.idealProcessor];
    if config.flags.setAffinitize then
      GroupAffinity(SingleProcessorMask(info.index as bv7), info.group)
    else
      GroupAffinity(groupInfo[info.group].mask, info.group)
  }

  /** The name as `mbstowcs_s` leaves it with `_TRUNCATE`: at most `MAX_THREAD_NAME` characters. */
  function TruncatedName(name: seq<char>): (wide: seq<char>)
    ensures |wide| == Min(|name|, MAX_THREAD_NAME)
    ensures wide <= name
  {
    if |name| <= MAX_THREAD_NAME then name else name[..MAX_THREAD_NAME]
  }

  /** The calls `CxPlatThreadCreate` makes on a thread it has created. */
  function Setup(config: Config, name: Option<seq<char>>, procInfo: seq<ProcessorInfo>, groupInfo: seq<ProcessorGroupInfo>): (steps: seq<ThreadStep>)
    requires AffinityDefined(config, procInfo, groupInfo)
    ensures |steps| > 0 && steps[0] == SetGroupAffinity(Affinity(config, procInfo, groupInfo))
    ensures forall k :: 1 <= k < |steps| ==> !steps[k].SetGroupAffinity?
    ensures SetIdealProcessor(procInfo[config.idealProcessor].index) in steps <==> config.flags.setIdealProc
    ensures forall s :: s in steps && s.SetIdealProcessor? ==> s.number == procInfo[config.idealProcessor].index
    ensures SetPriorityHighest in steps <==> config.flags.highPriority
    ensures name.Some? ==> SetName(TruncatedName(name.value)) in steps
    ensures forall s :: s in steps && s.SetName? ==> name.Some? && s.name == TruncatedName(name.value)
    ensures |steps| == 1 + (if config.flags.setIdealProc then 1 else 0)
      + (if config.flags.highPriority then 1 else 0) + (if name.Some? then 1 else 0)
  {
    var index := procInfo[config.idealProcessor].index;
    [SetGroupAffinity(Affinity(config, procInfo, groupInfo))]
    + (if config.flags.setIdealProc then [SetIdealProcessor(index)] else [])
    + (if config.flags.highPriority then [SetPriorityHighest] else [])
    + (match name case Some(n) => [SetName(TruncatedName(n))] case None => [])
  }

  /**
   * `CxPlatThreadCreate` as written (the path without the custom thread
   * context): when `CreateThread` fails it returns the raw Win32 code of
   * `GetLastError()` as the status.
   */
  function ThreadCreateAsWritten(config: Config, name: Option<seq<char>>, created: bool, lastError: uint32,
                                 procInfo: seq<ProcessorInfo>, groupInfo: seq<ProcessorGroupInfo>): (r: CreateResult)
    requires created ==> AffinityDefined(config, procInfo, groupInfo)
  {
    if !created then CreateResult(lastError, [])
    else CreateResult(S_OK, Setup(config, name, procInfo, groupInfo))
  }

  /**
   * A Win32 code is a small positive number, which as a status reads as
   * success: with `ERROR_NOT_ENOUGH_MEMORY` (8) the caller is told the
   * thread was created.
   */
  lemma ThreadCreateAsWrittenHidesFailure(config: Config, name: Option<seq<char>>,
                                          procInfo: seq<ProcessorInfo>, groupInfo: seq<ProcessorGroupInfo>)
    ensures var r := ThreadCreateAsWritten(config, name, false, 8, procInfo, groupInfo);
      r.status == 8 && !WinFailed(r.status) && r.steps == []
  {
  }

  /**
   * `CxPlatThreadCreate` with the failure code converted by
   * `HRESULT_FROM_WIN32`: the status is success exactly when the thread was
   * created (the operating system sets a nonzero last error on failure), and
   * then the calls on it are `Setup`'s.
   */
  function ThreadCreate(config: Config, name: Option<seq<char>>, created: bool, lastError: uint32,
                        procInfo: seq<ProcessorInfo>, groupInfo: seq<ProcessorGroupInfo>): (r: CreateResult)
    requires created ==> AffinityDefined(config, procInfo, groupInfo)
    requires !created ==> lastError != 0
    ensures r.status == S_OK <==> created
    ensures WinFailed(r.status) <==> !created
    ensures created ==> r.steps == Setup(config, name, procInfo, groupInfo)
    ensures !created ==> r.steps == []
  {
    if !created then CreateResult(HResultFromWin32(lastError), [])
    else CreateResult(S_OK, Setup(config, name, procInfo, groupInfo))
  }

  /**
   * With the tables `CxPlatProcessorInfoInit` builds, every ideal processor
   * below the processor count meets what `CxPlatThreadCreate` relies on; the
   * affinity names the group whose range holds the processor, and the index
   * a pinned thread's one mask bit comes from is the processor's distance
   * from that group's first flat index.
   */
  lemma ThreadCreateOnBuiltTables(groups: seq<GroupRecord>, config: Config)
    requires WellFormed(groups) && config.idealProcessor as nat < ActiveTotal(groups)
    ensures AffinityDefined(config, ProcessorTable(groups), GroupTable(groups))
    ensures var a := Affinity(config, ProcessorTable(groups), GroupTable(groups));
      && a.group as nat < |groups| && InGroup(groups, config.idealProcessor as nat, a.group as nat)
      && (!config.flags.setAffinitize ==> a.mask == groups[a.group].activeProcessorMask)
      && ProcessorTable(groups)[config.idealProcessor].index as int == config.idealProcessor as int - Offset(groups, a.group as nat) < 64
  {
    var p := config.idealProcessor as nat;
    var pt, gt := ProcessorTable(groups), GroupTable(groups);
    var info := pt[p];
    assert info == ProcessorEntry(groups, p);
    assert info.index as int == p - Offset(groups, info.group as nat) < Count(groups, info.group as nat) <= 64;
    assert gt[info.group] == GroupEntry(groups, info.group as nat);
    assert AffinityDefined(config, pt, gt);
    var a := Affinity(config, pt, gt);
    assert a.group == info.group;
  }
}
