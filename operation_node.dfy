/**
 * Source positions of an operation node's bytecode. A SourceInfo is a table of entries held in
 * four parallel arrays; entry `i` says that from bytecode index `bci[i]` on, the code belongs to
 * the section (`sourceStart[i]`, `sourceLength[i]`) of source `sourceIndex[i]`, where a negative
 * index or start means "no source section".
 */
module OperationNodes {
  import opened Wrappers

  /** A section of source `sourceIndex`, as the node's sources would create it. */
  datatype SourceSection = SourceSection(sourceIndex: int, start: int, length: int)

  /** The bytecode node an operation node executes; its contents are not modelled. */
  type BytecodeNodeId = nat

  /** The index of the first entry whose start is defined, or `|start|` when there is none. */
  function FirstDefinedStart(start: seq<int>): (k: nat)
    ensures k <= |start|
    ensures forall j :: 0 <= j < k ==> start[j] < 0
    ensures k < |start| ==> start[k] >= 0
  {
    if start == [] || start[0] >= 0 then 0 else 1 + FirstDefinedStart(start[1..])
  }

  /** The index of the first entry whose bci is greater than `query`, or `|bci|` when there is none. */
  function FirstGreaterBci(bci: seq<int>, query: int): (k: nat)
    ensures k <= |bci|
    ensures forall j :: 0 <= j < k ==> bci[j] <= query
    ensures k < |bci| ==> bci[k] > query
  {
    if bci == [] || bci[0] > query then 0 else 1 + FirstGreaterBci(bci[1..], query)
  }

  /** A larger query never selects an earlier entry. */
  lemma FirstGreaterBciMonotonic(bci: seq<int>, q1: int, q2: int)
    requires q1 <= q2
    ensures FirstGreaterBci(bci, q1) <= FirstGreaterBci(bci, q2)
  {
  }

  /**
   * When the bci column is sorted, as the builder emits it, the entry before the first greater
   * bci is the last entry whose bci is at most the query.
   */
  lemma {:induction false} FirstGreaterBciSorted(bci: seq<int>, query: int)
    requires forall i, j :: 0 <= i < j < |bci| ==> bci[i] <= bci[j]
    ensures forall j :: 0 <= j < |bci| ==> (bci[j] <= query <==> j < FirstGreaterBci(bci, query))
  {
    var k := FirstGreaterBci(bci, query);
    forall j | 0 <= j < |bci|
      ensures bci[j] <= query <==> j < k
    {
      if k <= j {
        assert bci[k] <= bci[j];
      }
    }
  }

  class SourceInfo {
    const bci: array<int>
    const sourceIndex: array<int>
    const sourceStart: array<int>
    const sourceLength: array<int>

    /** All four columns have the same number of entries. */
    predicate Valid()
    {
      && bci.Length == sourceIndex.Length
      && bci.Length == sourceStart.Length
      && bci.Length == sourceLength.Length
    }

    constructor (bci: array<int>, sourceIndex: array<int>, start: array<int>, length: array<int>)
      requires bci.Length == sourceIndex.Length
      requires bci.Length == start.Length
      requires bci.Length == length.Length
      ensures Valid()
      ensures this.bci == bci && this.sourceIndex == sourceIndex
      ensures this.sourceStart == start && this.sourceLength == length
    {
      this.bci := bci;
      this.sourceIndex := sourceIndex;
      this.sourceStart := start;
      this.sourceLength := length;
    }

    /** The number of entries, which every column has. */
    function Length(): (n: nat)
      requires Valid()
      ensures n == sourceIndex.Length && n == sourceStart.Length && n == sourceLength.Length
    {
      bci.Length
    }

    /** The section of entry `j`, or None when its source index or its start is undefined. */
    function EntrySection(j: nat): (r: Option<SourceSection>)
      requires Valid() && j < Length()
      reads sourceIndex, sourceStart, sourceLength
      ensures r.Some? <==> sourceIndex[j] >= 0 && sourceStart[j] >= 0
    {
      if sourceIndex[j] < 0 || sourceStart[j] < 0 then None
      else Some(SourceSection(sourceIndex[j], sourceStart[j], sourceLength[j]))
    }

    /**
     * The section of the whole function: that of the first entry with a defined start. The
     * source index of that entry is used as is.
     */
    function FirstSection(): (r: Option<SourceSection>)
      requires Valid()
      reads sourceIndex, sourceStart, sourceLength
      ensures r.None? <==> forall j :: 0 <= j < Length() ==> sourceStart[j] < 0
      ensures r.Some? ==> r.value.start >= 0
    {
      var k := FirstDefinedStart(sourceStart[..]);
      if k < Length() then Some(SourceSection(sourceIndex[k], sourceStart[k], sourceLength[k]))
      else None
    }

    /** The section in force at bytecode index `query`: that of the entry before the first greater bci. */
    function SectionAtBci(query: int): (r: Option<SourceSection>)
      requires Valid()
      reads bci, sourceIndex, sourceStart, sourceLength
      ensures r.Some? ==> r.value.sourceIndex >= 0 && r.value.start >= 0
      ensures Length() == 0 || bci[0] > query ==> r.None?
    {
      var k := FirstGreaterBci(bci[..], query);
      if k == 0 then None else EntrySection(k - 1)
    }
  }

  class OperationNode {
    var sourceInfo: SourceInfo?
    var bcNode: BytecodeNodeId

    ghost predicate Valid()
      reads this
    {
      sourceInfo != null ==> sourceInfo.Valid()
    }

    constructor (sourceInfo: SourceInfo?, bcNode: BytecodeNodeId)
      requires sourceInfo != null ==> sourceInfo.Valid()
      ensures Valid()
      ensures this.sourceInfo == sourceInfo && this.bcNode == bcNode
    {
      this.sourceInfo := sourceInfo;
      this.bcNode := bcNode;
    }

    /** Whether source information has been installed. */
    predicate HasSourceInfo()
      reads this
      ensures Valid() && !HasSourceInfo() ==> RootSection().None? && forall b :: SectionAtBci(b).None?
    {
      sourceInfo != null
    }

    /** Installs source information; a node gets it at most once. */
    method SetSourceInfo(sourceInfo: SourceInfo?)
      requires Valid() && !HasSourceInfo()
      requires sourceInfo != null ==> sourceInfo.Valid()
      modifies this`sourceInfo
      ensures Valid()
      ensures this.sourceInfo == sourceInfo
      ensures HasSourceInfo() <==> sourceInfo != null
    {
      this.sourceInfo := sourceInfo;
    }

    /** Replaces the bytecode node; the source information stays. */
    method ChangeBytecode(node: BytecodeNodeId)
      modifies this`bcNode
      ensures bcNode == node
    {
      bcNode := node;
    }

    /** The section of the whole function, if the node has source information. */
    ghost function RootSection(): (r: Option<SourceSection>)
      requires Valid()
      reads this, if sourceInfo != null then {sourceInfo.sourceIndex, sourceInfo.sourceStart, sourceInfo.sourceLength} else {}
      ensures sourceInfo == null ==> r.None?
    {
      if sourceInfo == null then None else sourceInfo.FirstSection()
    }

    /** The section at bytecode index `bci`, if the node has source information. */
    ghost function SectionAtBci(bci: int): (r: Option<SourceSection>)
      requires Valid()
      reads this, if sourceInfo != null then {sourceInfo.bci, sourceInfo.sourceIndex, sourceInfo.sourceStart, sourceInfo.sourceLength} else {}
      ensures sourceInfo == null ==> r.None?
    {
      if sourceInfo == null then None else sourceInfo.SectionAtBci(bci)
    }

    method GetSourceSection() returns (r: Option<SourceSection>)
      requires Valid()
      ensures r == RootSection()
      ensures r.None? <==>
        sourceInfo == null || forall j :: 0 <= j < sourceInfo.Length() ==> sourceInfo.sourceStart[j] < 0
      ensures r.Some? ==> r.value.start >= 0
    {
      if sourceInfo == null {
        return None;
      }
      var info := sourceInfo;
      for i := 0 to info.Length()
        invariant forall j :: 0 <= j < i ==> info.sourceStart[j] < 0
      {
        if info.sourceStart[i] >= 0 {
          assert i == FirstDefinedStart(info.sourceStart[..]);
          return Some(SourceSection(info.sourceIndex[i], info.sourceStart[i], info.sourceLength[i]));
        }
      }
      assert FirstDefinedStart(info.sourceStart[..]) == info.Length();
      return None;
    }

    method GetSourceSectionAtBci(bci: int) returns (r: Option<SourceSection>)
      requires Valid()
      ensures r == SectionAtBci(bci)
      ensures sourceInfo == null ==> r.None?
      ensures r.Some? ==> r.value.sourceIndex >= 0 && r.value.start >= 0
    {
      if sourceInfo == null {
        return None;
      }
      var info := sourceInfo;
      var i := 0;
      while i < info.Length()
        invariant 0 <= i <= info.Length()
        invariant forall j :: 0 <= j < i ==> info.bci[j] <= bci
      {
        if info.bci[i] > bci {
          break;
        }
        i := i + 1;
      }
      assert i == FirstGreaterBci(info.bci[..], bci);
      if i == 0 {
        return None;
      }
      var sourceIndex := info.sourceIndex[i - 1];
      if sourceIndex < 0 {
        return None;
      }
      var sourceStart := info.sourceStart[i - 1];
      var sourceLength := info.sourceLength[i - 1];
      if sourceStart < 0 {
        return None;
      }
      return Some(SourceSection(sourceIndex, sourceStart, sourceLength));
    }

    /** A node standing for bytecode index `bci` of this operation node. */
    method CreateLocationNode(bci: int) returns (n: LocationNode)
      ensures fresh(n)
      ensures n.owner == this && n.bci == bci
    {
      n := new LocationNode(this, bci);
    }
  }

  /**
   * The node made by CreateLocationNode. It asks its operation node at each call, so source
   * information installed after its creation is seen.
   */
  class LocationNode {
    const owner: OperationNode
    const bci: int

    constructor (owner: OperationNode, bci: int)
      ensures this.owner == owner && this.bci == bci
    {
      this.owner := owner;
      this.bci := bci;
    }

    method GetSourceSection() returns (r: Option<SourceSection>)
      requires owner.Valid()
      ensures r == owner.SectionAtBci(bci)
    {
      r := owner.GetSourceSectionAtBci(bci);
    }

    method GetEncapsulatingSourceSection() returns (r: Option<SourceSection>)
      requires owner.Valid()
      ensures r == owner.SectionAtBci(bci)
    {
      r := owner.GetSourceSectionAtBci(bci);
    }
  }
}
