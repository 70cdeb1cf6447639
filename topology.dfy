/**
 * The Windows user-mode processor topology tables. The operating system
 * reports one record per active processor group; `CxPlatProcessorInfoInit`
 * turns them into a per-group table (`CxPlatProcessorGroupInfo`, with each
 * group's first flat index) and a per-processor table
 * (`CxPlatProcessorInfo`, with each flat index's group and index within the
 * group). This module defines the tables those loops compute and proves
 * what the lookups built on them rely on.
 */
module Topology {
  import opened Ints

  /** `PROCESSOR_GROUP_INFO` as the operating system reports it. */
  datatype GroupRecord = GroupRecord(maximumProcessorCount: uint8, activeProcessorCount: uint8, activeProcessorMask: bv64)

  /** `CXPLAT_PROCESSOR_INFO`. */
  datatype ProcessorInfo = ProcessorInfo(index: uint32, group: uint16)

  /** `CXPLAT_PROCESSOR_GROUP_INFO`. */
  datatype ProcessorGroupInfo = ProcessorGroupInfo(mask: bv64, count: uint32, offset: uint32)

  /**
   * What the operating system guarantees of its answer: fewer than 2^16
   * groups (the count is a `WORD`) and at most 64 active processors in a
   * group (one bit each in the affinity mask).
   */
  predicate WellFormed(groups: seq<GroupRecord>) {
    |groups| < 0x1_0000 && forall g :: 0 <= g < |groups| ==> groups[g].activeProcessorCount <= 64
  }

  /** The number of active processors in the groups. */
  function ActiveTotal(groups: seq<GroupRecord>): (n: nat)
    ensures n <= 64 * |groups| || !WellFormed(groups)
    decreases |groups|
  {
    if |groups| == 0 then 0
    else
      var init := groups[..|groups| - 1];
      assert WellFormed(groups) ==> WellFormed(init) by {
        forall g | 0 <= g < |init| ensures init[g] == groups[g] { }
      }
      ActiveTotal(init) + groups[|groups| - 1].activeProcessorCount
  }

  /** The first flat index of group `g`: the active processors of the groups before it. */
  function Offset(groups: seq<GroupRecord>, g: nat): nat
    requires g <= |groups|
  {
    ActiveTotal(groups[..g])
  }

  /** A group's active count, widened to the table's field. */
  function Count(groups: seq<GroupRecord>, g: nat): nat
    requires g < |groups|
  {
    groups[g].activeProcessorCount
  }

  /** Consecutive offsets differ by the active count of the group between them. */
  lemma OffsetStep(groups: seq<GroupRecord>, g: nat)
    requires g < |groups|
    ensures Offset(groups, g + 1) == Offset(groups, g) + Count(groups, g)
  {
    assert groups[..g + 1][..g] == groups[..g];
  }

  /** Offsets grow with the group number and stop at the total. */
  lemma {:induction false} OffsetMonotone(groups: seq<GroupRecord>, g: nat, h: nat)
    requires g <= h <= |groups|
    ensures Offset(groups, g) <= Offset(groups, h) <= ActiveTotal(groups)
    decreases |groups| - g
  {
    assert groups[..|groups|] == groups;
    if g < |groups| {
      OffsetStep(groups, g);
      OffsetMonotone(groups, g + 1, |groups|);
      if g < h {
        OffsetMonotone(groups, g + 1, h);
      }
    }
  }

  /** Flat processor `p` belongs to group `g`. */
  predicate InGroup(groups: seq<GroupRecord>, p: nat, g: nat)
    requires g < |groups|
  {
    Offset(groups, g) <= p < Offset(groups, g) + Count(groups, g)
  }

  /** The groups' ranges are disjoint: a processor belongs to at most one group. */
  lemma GroupUnique(groups: seq<GroupRecord>, p: nat, g: nat, h: nat)
    requires g < |groups| && h < |groups|
    requires InGroup(groups, p, g) && InGroup(groups, p, h)
    ensures g == h
  {
    if g < h {
      OffsetStep(groups, g);
      OffsetMonotone(groups, g + 1, h);
    } else if h < g {
      OffsetStep(groups, h);
      OffsetMonotone(groups, h + 1, g);
    }
  }

  /** The groups' ranges cover every processor below the total. */
  lemma {:induction false} GroupExists(groups: seq<GroupRecord>, p: nat)
    requires p < ActiveTotal(groups)
    ensures exists g :: 0 <= g < |groups| && InGroup(groups, p, g)
    decreases |groups|
  {
    var n := |groups| - 1;
    var init := groups[..n];
    OffsetStep(groups, n);
    assert groups[..n + 1] == groups;
    if p >= Offset(groups, n) {
      assert InGroup(groups, p, n);
    } else {
      GroupExists(init, p);
      var g :| 0 <= g < |init| && InGroup(init, p, g);
      assert init[..g] == groups[..g];
      assert InGroup(groups, p, g);
    }
  }

  /** The search of the inner loop: the first group from `g` on that holds `p`, or `|groups|`. */
  function FirstGroupFrom(groups: seq<GroupRecord>, p: nat, g: nat): (r: nat)
    requires g <= |groups|
    ensures g <= r <= |groups|
    ensures r < |groups| ==> InGroup(groups, p, r)
    ensures forall h :: g <= h < r ==> !InGroup(groups, p, h)
    decreases |groups| - g
  {
    if g == |groups| then g
    else if InGroup(groups, p, g) then g
    else FirstGroupFrom(groups, p, g + 1)
  }

  /** The search finds every processor below the total, in the one group that holds it. */
  lemma FirstGroupFinds(groups: seq<GroupRecord>, p: nat)
    requires p < ActiveTotal(groups)
    ensures FirstGroupFrom(groups, p, 0) < |groups|
    ensures forall h :: 0 <= h < |groups| && InGroup(groups, p, h) ==> h == FirstGroupFrom(groups, p, 0)
  {
    GroupExists(groups, p);
    var r := FirstGroupFrom(groups, p, 0);
    forall h | 0 <= h < |groups| && InGroup(groups, p, h)
      ensures h == r
    {
      if r < |groups| {
        GroupUnique(groups, p, h, r);
      }
    }
  }

  /** One entry of the group table: group `g`'s active mask, active count and first flat index. */
  function GroupEntry(groups: seq<GroupRecord>, g: nat): ProcessorGroupInfo
    requires WellFormed(groups) && g < |groups|
  {
    OffsetMonotone(groups, g, |groups|);
    ProcessorGroupInfo(groups[g].activeProcessorMask, Count(groups, g), Offset(groups, g))
  }

  /** The group table the loops of `CxPlatProcessorInfoInit` fill in, one entry per group. */
  function GroupTable(groups: seq<GroupRecord>): (t: seq<ProcessorGroupInfo>)
    requires WellFormed(groups)
    ensures |t| == |groups|
    ensures forall g :: 0 <= g < |groups| ==> t[g] == GroupEntry(groups, g)
  {
    seq(|groups|, g requires 0 <= g < |groups| => GroupEntry(groups, g))
  }

  /**
   * The layout of the group table: entry `g` carries group `g`'s active mask
   * and active count, the first offset is 0, each next offset is the previous
   * one plus its count, and every group's range lies below the total, so the
   * ranges tile `[0, ActiveTotal)` in group order.
   */
  lemma GroupTableLayout(groups: seq<GroupRecord>)
    requires WellFormed(groups)
    ensures var t := GroupTable(groups);
      forall g :: 0 <= g < |groups| ==>
        t[g].mask == groups[g].activeProcessorMask && t[g].count as nat == groups[g].activeProcessorCount as nat
    ensures |groups| > 0 ==> GroupTable(groups)[0].offset == 0
    ensures var t := GroupTable(groups);
      forall g :: 0 <= g < |groups| - 1 ==> t[g + 1].offset == t[g].offset + t[g].count
    ensures var t := GroupTable(groups);
      forall g :: 0 <= g < |groups| ==> t[g].offset + t[g].count <= ActiveTotal(groups)
  {
    var t := GroupTable(groups);
    forall g | 0 <= g < |groups|
      ensures t[g].offset + t[g].count <= ActiveTotal(groups)
    {
      OffsetStep(groups, g);
      OffsetMonotone(groups, g + 1, |groups|);
    }
    forall g | 0 <= g < |groups| - 1
      ensures t[g + 1].offset == t[g].offset + t[g].count
    {
      OffsetStep(groups, g);
    }
  }

  /**
   * The entry the nested loop writes for processor `p`: the group the
   * search finds and the index within it.
   */
  function ProcessorEntry(groups: seq<GroupRecord>, p: nat): (info: ProcessorInfo)
    requires WellFormed(groups) && p < ActiveTotal(groups)
    ensures info.group < |groups| && InGroup(groups, p, info.group)
    ensures info.index == p - Offset(groups, info.group) < Count(groups, info.group)
  {
    FirstGroupFinds(groups, p);
    var g := FirstGroupFrom(groups, p, 0);
    ProcessorInfo(p - Offset(groups, g), g)
  }

  /** The processor table the nested loop of `CxPlatProcessorInfoInit` fills in. */
  function ProcessorTable(groups: seq<GroupRecord>): (t: seq<ProcessorInfo>)
    requires WellFormed(groups)
    ensures |t| == ActiveTotal(groups)
    ensures forall p :: 0 <= p < |t| ==> t[p] == ProcessorEntry(groups, p)
  {
    seq(ActiveTotal(groups), p requires 0 <= p < ActiveTotal(groups) => ProcessorEntry(groups, p))
  }

  /**
   * The two tables agree: every processor's entry names the one group whose
   * range holds it, and its index is its distance from the group's offset,
   * below the group's count.
   */
  lemma ProcessorTableMapsToUniqueGroup(groups: seq<GroupRecord>, p: nat)
    requires WellFormed(groups) && p < ActiveTotal(groups)
    ensures var info := ProcessorTable(groups)[p]; var gt := GroupTable(groups);
      && info.group < |gt|
      && gt[info.group].offset <= p < gt[info.group].offset + gt[info.group].count
      && info.index == p - gt[info.group].offset < gt[info.group].count
      && (forall h :: 0 <= h < |gt| && gt[h].offset <= p < gt[h].offset + gt[h].count ==> h == info.group)
  {
    var info := ProcessorTable(groups)[p];
    var gt := GroupTable(groups);
    assert info == ProcessorEntry(groups, p);
    assert gt[info.group] == ProcessorGroupInfo(groups[info.group].activeProcessorMask, Count(groups, info.group), Offset(groups, info.group));
    forall h | 0 <= h < |gt| && gt[h].offset <= p < gt[h].offset + gt[h].count
      ensures h == info.group
    {
      assert gt[h] == ProcessorGroupInfo(groups[h].activeProcessorMask, Count(groups, h), Offset(groups, h));
      GroupUnique(groups, p, h, info.group);
    }
  }

  /**
   * The converse: the `i`-th active processor of group `g` sits at the flat
   * index `Offset + i`, and its entry names `g` and `i`.
   */
  lemma ProcessorTableInverse(groups: seq<GroupRecord>, g: nat, i: nat)
    requires WellFormed(groups) && g < |groups| && i < Count(groups, g)
    ensures Offset(groups, g) + i < ActiveTotal(groups)
    ensures ProcessorTable(groups)[Offset(groups, g) + i] == ProcessorInfo(i, g)
  {
    var p := Offset(groups, g) + i;
    assert p < ActiveTotal(groups) by {
      OffsetStep(groups, g);
      OffsetMonotone(groups, g + 1, |groups|);
    }
    assert InGroup(groups, p, g);
    var e := ProcessorEntry(groups, p);
    GroupUnique(groups, p, g, e.group);
    assert e.group == g && e.index == i;
    assert ProcessorTable(groups)[p] == e;
  }

  /** The last group's range ends at the total: the counts add up. */
  lemma GroupTableCoversTotal(groups: seq<GroupRecord>)
    requires WellFormed(groups) && |groups| > 0
    ensures GroupTable(groups)[0].offset == 0
    ensures GroupTable(groups)[|groups| - 1].offset + GroupTable(groups)[|groups| - 1].count == ActiveTotal(groups)
  {
    OffsetStep(groups, |groups| - 1);
    assert groups[..|groups|] == groups;
  }

  /** Slot `k` of group `g`, seen through both tables. */
  lemma GroupSlot(groups: seq<GroupRecord>, g: nat, k: nat)
    requires WellFormed(groups) && g < |groups| && k < Count(groups, g)
    ensures GroupTable(groups)[g].offset == Offset(groups, g)
    ensures GroupTable(groups)[g].count == Count(groups, g)
    ensures Offset(groups, g) + k < ActiveTotal(groups) <= 64 * 0xFFFF
    ensures ProcessorTable(groups)[Offset(groups, g) + k] == ProcessorInfo(k, g)
  {
    ProcessorTableInverse(groups, g, k);
  }

  /**
   * `CxPlatProcCurrentNumber` (Windows user mode): the group's offset plus
   * the processor number reduced modulo the group's count. The result lies in
   * the group's range, and so below the total and, read back through the
   * processor table, in the same group at index `number % count`.
   */
  function ProcCurrentNumber(groups: seq<GroupRecord>, group: uint16, number: uint8): (n: uint32)
    requires WellFormed(groups) && group < |groups| && Count(groups, group) > 0
    ensures GroupTable(groups)[group].offset <= n < GroupTable(groups)[group].offset + GroupTable(groups)[group].count
    ensures n < ActiveTotal(groups)
    ensures ProcessorTable(groups)[n] == ProcessorInfo(number % Count(groups, group), group)
  {
    var k := number % Count(groups, group);
    GroupSlot(groups, group, k);
    Offset(groups, group) + k
  }
}
