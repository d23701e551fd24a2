/**
 * The leaf and height bounds of a reference B+tree over a number of records,
 * against the layouts that such a tree can actually have.
 */
module BTreeBounds {
  import opened Sequences
  import opened SystemLimits

  datatype Bounds = Bounds(minimumLeaves: nat, maximumLeaves: nat, maximumHeight: nat)

  /** Lines 446 to 464; none is a range error. */
  function ReferenceBounds(records: int): Option<Bounds> {
    if !(0 <= records <= HARD_RECORDS) then None
    else if records == 0 then Some(Bounds(0, 0, 0))
    else
      var minimumLeaves := (records + LEAF_MAX_ROWS - 1) / LEAF_MAX_ROWS;
      var maximumLeaves := if records < 2 * LEAF_MIN_ROWS then 1 else records / LEAF_MIN_ROWS;
      var maximumHeight := if maximumLeaves <= 1 then 1 else if maximumLeaves <= INTERNAL_MAX_ENTRIES then 2 else 3;
      if maximumLeaves > MAX_LEAVES || maximumHeight > MAX_TREE_HEIGHT then None
      else Some(Bounds(minimumLeaves, maximumLeaves, maximumHeight))
  }

  /** The only range error left is the one about the number of records. */
  lemma BoundsExist(records: int)
    ensures ReferenceBounds(records).Some? <==> 0 <= records <= HARD_RECORDS
  {
  }

  /** Leaves that hold all records: each half full at least, unless one leaf is the whole tree. */
  ghost predicate Layout(leaves: seq<int>, records: int) {
    && Sum(leaves) == records
    && (forall i :: 0 <= i < |leaves| ==> leaves[i] <= LEAF_MAX_ROWS)
    && (|leaves| != 1 ==> forall i :: 0 <= i < |leaves| ==> leaves[i] >= LEAF_MIN_ROWS)
  }

  ghost predicate Possible(records: int, k: nat) {
    exists leaves :: |leaves| == k && Layout(leaves, records)
  }

  lemma {:induction false} HalfFullLeavesHold(leaves: seq<int>)
    requires forall i :: 0 <= i < |leaves| ==> LEAF_MIN_ROWS <= leaves[i] <= LEAF_MAX_ROWS
    ensures LEAF_MIN_ROWS * |leaves| <= Sum(leaves) <= LEAF_MAX_ROWS * |leaves|
  {
    if leaves != [] { HalfFullLeavesHold(leaves[..|leaves| - 1]); }
  }

  /** The last of k leaves can be filled so that the others can hold the rest. */
  lemma LastLeaf(records: int, k: nat) returns (last: int)
    requires k > 0 && LEAF_MIN_ROWS * k <= records <= LEAF_MAX_ROWS * k
    ensures LEAF_MIN_ROWS <= last <= LEAF_MAX_ROWS
    ensures LEAF_MIN_ROWS * (k - 1) <= records - last <= LEAF_MAX_ROWS * (k - 1)
  {
    last := if records - 128 <= 512 * (k - 1) then 128 else records - 512 * (k - 1);
  }

  /** k half-full leaves can hold any number of records in between. */
  lemma {:induction false} Spread(records: int, k: nat) returns (leaves: seq<int>)
    requires LEAF_MIN_ROWS * k <= records <= LEAF_MAX_ROWS * k
    ensures |leaves| == k && Sum(leaves) == records
    ensures forall i :: 0 <= i < k ==> LEAF_MIN_ROWS <= leaves[i] <= LEAF_MAX_ROWS
    decreases k
  {
    if k == 0 {
      leaves := [];
    } else {
      var last := LastLeaf(records, k);
      var rest := Spread(records - last, k - 1);
      SumByConcat(Self, rest, [last]);
      SumOfOne([last]);
      leaves := rest + [last];
    }
  }

  /** The bounds are exact: a layout with k leaves exists exactly between them. */
  lemma LeafBoundsAreExact(records: int, k: nat)
    requires 0 < records <= HARD_RECORDS
    ensures var b := ReferenceBounds(records);
            b.Some? && (Possible(records, k) <==> b.value.minimumLeaves <= k <= b.value.maximumLeaves)
  {
    BoundsExist(records);
    var b := ReferenceBounds(records).value;
    if Possible(records, k) {
      var leaves :| |leaves| == k && Layout(leaves, records);
      if k == 1 {
        SumOfOne(leaves);
      } else {
        HalfFullLeavesHold(leaves);
      }
    }
    if b.minimumLeaves <= k <= b.maximumLeaves {
      var leaves := [records];
      if k == 1 {
        SumOfOne(leaves);
      } else {
        leaves := Spread(records, k);
      }
      assert Layout(leaves, records);
    }
  }

  function Power(base: nat, n: nat): nat { if n == 0 then 1 else base * Power(base, n - 1) }

  /** The height is the least at which full nodes reach the largest number of leaves. */
  lemma HeightIsLeast(records: int, height: nat)
    requires 0 < records <= HARD_RECORDS && height > 0
    ensures var b := ReferenceBounds(records).value;
            Power(INTERNAL_MAX_ENTRIES, height - 1) >= b.maximumLeaves <==> height >= b.maximumHeight
  {
    assert Power(INTERNAL_MAX_ENTRIES, 0) == 1;
    assert Power(INTERNAL_MAX_ENTRIES, 1) == 256;
    assert Power(INTERNAL_MAX_ENTRIES, 2) == 65536;
    if height >= 3 { PowerGrows(INTERNAL_MAX_ENTRIES, 2, height - 1); }
  }

  lemma {:induction false} PowerGrows(base: nat, m: nat, n: nat)
    requires base >= 1 && m <= n
    ensures Power(base, n) >= Power(base, m) >= 1
  {
    if n > m {
      PowerGrows(base, m, n - 1);
      Scale(base, Power(base, n - 1));
    } else if m > 0 {
      PowerGrows(base, m - 1, m - 1);
      Scale(base, Power(base, m - 1));
    }
  }

  lemma Scale(base: nat, p: nat)
    requires base >= 1
    ensures base * p >= p
  {
  }

  /** Enough room for the records is enough room for the leaves. */
  lemma RecordCapImpliesLeafCap(records: int)
    requires 0 <= records <= ACTIVATION_RECORDS
    ensures ReferenceBounds(records).Some? && ReferenceBounds(records).value.maximumLeaves <= ACTIVATION_LEAVES
  {
  }

  /** However a tree within the record cap is laid out, its leaves are within the leaf cap. */
  lemma CappedLayoutsFit(leaves: seq<int>, records: int)
    requires 0 < records <= ACTIVATION_RECORDS && Layout(leaves, records)
    ensures |leaves| <= ACTIVATION_LEAVES
  {
    LeafBoundsAreExact(records, |leaves|);
    RecordCapImpliesLeafCap(records);
  }
}
