/** The initial assignment of partitions to the nodes of a fleet (assign.go, internal/hash/hash.go). */
module Assign {
  import opened Deliveries
  import opened Sorting
  import opened Tokens
  import opened Ownership
  import opened Partition

  function LogicalNodeID(i: int): string {
    "go" + Itoa(i)
  }

  /** `p` is what is left of a hash sum when whole rounds of `count` are taken off it. */
  ghost predicate LeftOver(sum: nat, count: int, p: int) {
    0 <= p < count && exists k: nat :: sum == k * count + p
  }

  /** The partition of a subscriber under the hash function `sum`. */
  function PartitionOf(sum: string -> nat, subscriber: string, partitions: int): (p: int)
    ensures 0 <= p < Effective(partitions)
    ensures LeftOver(sum(subscriber), Effective(partitions), p)
  {
    var n := Effective(partitions);
    assert sum(subscriber) == (sum(subscriber) / n) * n + sum(subscriber) % n;
    sum(subscriber) % n
  }

  /** Two subscribers share a partition if and only if their sums differ by whole rounds. */
  lemma SharePartition(sum: string -> nat, a: string, b: string, partitions: int)
    ensures PartitionOf(sum, a, partitions) == PartitionOf(sum, b, partitions) <==>
      exists k: int :: sum(a) == sum(b) + k * Effective(partitions)
  {
    var n, p, q := Effective(partitions), PartitionOf(sum, a, partitions), PartitionOf(sum, b, partitions);
    var i: nat :| sum(a) == i * n + p;
    var j: nat :| sum(b) == j * n + q;
    if p == q {
      assert sum(a) == sum(b) + (i - j) * n;
    }
    if k: int :| sum(a) == sum(b) + k * n {
      assert sum(a) == (j + k) * n + q;
      OneQuotient(n, i, p, j + k, q);
    }
  }

  lemma OneQuotient(n: int, i: int, p: int, j: int, q: int)
    requires i * n + p == j * n + q && 0 <= p < n && 0 <= q < n
    ensures p == q
  {
    assert (i - j) * n == q - p;
    if i > j {
      ScaleUp(i - j, n);
    } else if i < j {
      assert (j - i) * n == p - q;
      ScaleUp(j - i, n);
    }
  }

  function NodeIndex(sum: string -> nat, subscriber: string, partitions: int, nodeCount: int): int {
    if nodeCount <= 0 then 0 else PartitionOf(sum, subscriber, partitions) % nodeCount
  }

  method PartitionsForNode(partitions: int, nodeCount: int, nodeIndex: int) returns (out: seq<int>)
    ensures nodeCount <= 0 || !(0 <= nodeIndex < nodeCount) ==> out == []
    ensures nodeCount > 0 && 0 <= nodeIndex < nodeCount ==>
      out == Dealt(Universe(None, Effective(partitions)), nodeCount, nodeIndex, Effective(partitions))
  {
    var n := if partitions <= 0 then DEFAULT_PARTITIONS else partitions;
    if nodeCount <= 0 || nodeIndex < 0 || nodeIndex >= nodeCount { return []; }
    out := [];
    for p := 0 to n
      invariant out == Dealt(Universe(None, n), nodeCount, nodeIndex, p)
    {
      if p % nodeCount == nodeIndex {
        out := out + [p];
      }
    }
  }

  function Assignments(partitions: int, nodeCount: int): seq<string> {
    if nodeCount <= 0 then [] else seq(Effective(partitions), p => LogicalNodeID(p % nodeCount))
  }

  method OwnerAssignmentsForNodes(partitions: int, nodeCount: int) returns (owners: seq<string>)
    ensures owners == Assignments(partitions, nodeCount)
  {
    var n := if partitions <= 0 then DEFAULT_PARTITIONS else partitions;
    if nodeCount <= 0 { return []; }
    var a := new string[n](_ => "");
    for p := 0 to n
      invariant forall q :: 0 <= q < p ==> a[q] == LogicalNodeID(q % nodeCount)
    {
      a[p] := LogicalNodeID(p % nodeCount);
    }
    owners := a[..];
  }

  lemma PrintedNodes()
    ensures LogicalNodeID(0) == "go0" && LogicalNodeID(12) == "go12"
  {
    PrintedDigits();
  }

  // ---- The three views agree ----

  lemma NodeIDsApart(i: nat, j: nat)
    requires Int64(i) && Int64(j) && LogicalNodeID(i) == LogicalNodeID(j)
    ensures i == j
  {
    assert LogicalNodeID(i)[2..] == Itoa(i) && LogicalNodeID(j)[2..] == Itoa(j);
    ScanPrinted(i);
    ScanPrinted(j);
  }

  /** The partitions dealt to node `i`. */
  ghost function NodePartitions(partitions: int, nodeCount: int, i: int): seq<int> {
    if 0 <= i < nodeCount then Dealt(Universe(None, Effective(partitions)), nodeCount, i, Effective(partitions)) else []
  }

  lemma NodePartitionsAre(partitions: int, nodeCount: int, i: int, p: int)
    ensures p in NodePartitions(partitions, nodeCount, i) <==>
      0 <= i < nodeCount && 0 <= p < Effective(partitions) && p % nodeCount == i
  {
    var n := Effective(partitions);
    var universe := Universe(None, n);
    if 0 <= i < nodeCount {
      DealtExactly(universe, nodeCount, i, n, p);
      if 0 <= p < n && p % nodeCount == i {
        assert universe[p] == p;
      }
    }
  }

  /** The list goes up in steps of the node count. */
  lemma NodePartitionsInOrder(partitions: int, nodeCount: int, i: int, j: nat)
    requires j < |NodePartitions(partitions, nodeCount, i)|
    ensures NodePartitions(partitions, nodeCount, i)[j] == i + j * nodeCount < Effective(partitions)
  {
    var n := Effective(partitions);
    DealtAt(Universe(None, n), nodeCount, i, n, j);
  }

  /** A partition is in a node's list exactly when the seeded owner of the partition is that node. */
  lemma ListsMatchAssignments(partitions: int, nodeCount: int, i: int, p: int)
    requires 0 <= i < nodeCount && Int64(nodeCount)
    ensures p in NodePartitions(partitions, nodeCount, i) <==>
      0 <= p < Effective(partitions) && Assignments(partitions, nodeCount)[p] == LogicalNodeID(i)
  {
    NodePartitionsAre(partitions, nodeCount, i, p);
    if 0 <= p < Effective(partitions) {
      var owner := p % nodeCount;
      assert Assignments(partitions, nodeCount)[p] == LogicalNodeID(owner);
      if LogicalNodeID(owner) == LogicalNodeID(i) {
        NodeIDsApart(owner, i);
      }
    }
  }

  /** A subscriber is served by the node in whose list its partition is, under every hash. */
  lemma NodeServesSubscriber(sum: string -> nat, subscriber: string, partitions: int, nodeCount: int, i: int)
    requires 0 <= i < nodeCount
    ensures NodeIndex(sum, subscriber, partitions, nodeCount) == i <==>
      PartitionOf(sum, subscriber, partitions) in NodePartitions(partitions, nodeCount, i)
  {
    NodePartitionsAre(partitions, nodeCount, i, PartitionOf(sum, subscriber, partitions));
  }

  /** Every partition is in exactly one node's list, unless there are no nodes: then no list has
      any, although `NodeIndex` still names node 0. */
  lemma NodesCover(sum: string -> nat, partitions: int, nodeCount: int, p: int)
    requires 0 <= p < Effective(partitions)
    ensures (exists i :: p in NodePartitions(partitions, nodeCount, i)) <==> nodeCount > 0
    ensures forall i, j ::
      p in NodePartitions(partitions, nodeCount, i) && p in NodePartitions(partitions, nodeCount, j) ==> i == j
    ensures nodeCount <= 0 ==> forall s :: NodeIndex(sum, s, partitions, nodeCount) == 0
  {
    forall i
      ensures p in NodePartitions(partitions, nodeCount, i) <==> 0 <= i < nodeCount && p % nodeCount == i
    {
      NodePartitionsAre(partitions, nodeCount, i, p);
    }
    if nodeCount > 0 {
      assert p in NodePartitions(partitions, nodeCount, p % nodeCount);
    }
  }

  /** The assignments seed an empty owner table, and make `p` the node's exactly when `p` is in
      its list; each node's list is one that its dispatcher accepts as its claim. */
  lemma AssignmentsSeed(partitions: int, nodeCount: int, i: int, p: int)
    requires 0 <= i < nodeCount && Int64(nodeCount)
    ensures Seedable(map[], Assignments(partitions, nodeCount))
    ensures var owners := Seeded(map[], Assignments(partitions, nodeCount));
      p in NodePartitions(partitions, nodeCount, i) <==> p in owners && owners[p].node == LogicalNodeID(i)
    ensures InRange(NodePartitions(partitions, nodeCount, i), Effective(partitions))
    ensures NoRepeats(NodePartitions(partitions, nodeCount, i))
  {
    ListsMatchAssignments(partitions, nodeCount, i, p);
    forall q | 0 <= q < Effective(partitions)
      ensures NodeName(LogicalNodeID(q % nodeCount))
    {
      DigitsSlashFree(q % nodeCount);
    }
    var ps := NodePartitions(partitions, nodeCount, i);
    DealtNoRepeats(Universe(None, Effective(partitions)), nodeCount, i, Effective(partitions));
    forall k | 0 <= k < |ps|
      ensures 0 <= ps[k] < Effective(partitions)
    {
      ListsMatchAssignments(partitions, nodeCount, i, ps[k]);
    }
  }
}
