/** Which worker of a process claims which partition (partition.go). */
module Partition {
  import opened Deliveries
  import opened Sorting
  import opened Tokens

  const DEFAULT_PARTITIONS := 256

  datatype OwnershipError = NoWorkers | OutOfRange(p: int) | Duplicate(p: int)

  /** `byPart` names no owner where partitions overlap or are not claimed. */
  datatype PartitionMap = PartitionMap(
    partitions: int,
    byOwner: map<string, seq<int>>,
    byPart: seq<string>,
    overlap: bool,
    narrowed: bool)
  {
    function PartitionsFor(owner: string): seq<int> {
      if owner in byOwner then byOwner[owner] else []
    }

    function OwnerOf(p: int): Option<string> {
      if overlap || p < 0 || p >= |byPart| || byPart[p] == "" then None else Some(byPart[p])
    }
  }

  function Effective(partitions: int): (n: nat)
    ensures n == if partitions < 1 then 256 else partitions
  {
    if partitions <= 0 then DEFAULT_PARTITIONS else partitions
  }

  /** The partitions that are dealt out: a claimed subset, or all. */
  function Universe(claim: Option<seq<int>>, n: nat): seq<int> {
    match claim
    case Some(ps) => ps
    case None => seq(n, i => i)
  }

  predicate InRange(ps: seq<int>, n: nat) {
    forall i :: 0 <= i < |ps| ==> 0 <= ps[i] < n
  }

  /** What worker `w` is dealt of the first `n` partitions: every `workers`-th one. */
  function Dealt(universe: seq<int>, workers: int, w: int, n: nat): seq<int>
    requires workers > 0 && n <= |universe|
  {
    if n == 0 then [] else
    Dealt(universe, workers, w, n - 1) + if (n - 1) % workers == w then [universe[n - 1]] else []
  }

  /** The lists, when `m` of the workers have taken their turns. */
  ghost predicate ListsTo(byOwner: map<string, seq<int>>, universe: seq<int>, workers: int, m: int,
                          overlap: bool, node: string, incarnation: string)
    requires workers > 0
  {
    && (forall w {:trigger ClaimOwnerID(node, incarnation, w) in byOwner}
          {:trigger byOwner[ClaimOwnerID(node, incarnation, w)]} :: 0 <= w < m ==>
          ClaimOwnerID(node, incarnation, w) in byOwner
          && byOwner[ClaimOwnerID(node, incarnation, w)] ==
             (if overlap then universe else Dealt(universe, workers, w, |universe|)))
    && (forall id :: id in byOwner ==> exists w :: 0 <= w < m && id == ClaimOwnerID(node, incarnation, w))
  }

  /** The names, when `m` of the workers have taken their turns. */
  ghost predicate NamesTo(byPart: seq<string>, universe: seq<int>, workers: int, m: int,
                          overlap: bool, node: string, incarnation: string)
    requires workers > 0
  {
    && InRange(universe, |byPart|) && NoRepeats(universe)
    && (forall i :: 0 <= i < |universe| ==>
          byPart[universe[i]] ==
            if !overlap && i % workers < m then ClaimOwnerID(node, incarnation, i % workers) else "")
    && (forall p :: 0 <= p < |byPart| && p !in universe ==> byPart[p] == "")
  }

  /** `o` deals `universe` out in turns to the workers of a process. */
  ghost predicate Deals(o: PartitionMap, universe: seq<int>, workers: int, node: string, incarnation: string)
    requires workers > 0
  {
    && |o.byPart| == o.partitions
    && ListsTo(o.byOwner, universe, workers, workers, o.overlap, node, incarnation)
    && NamesTo(o.byPart, universe, workers, workers, o.overlap, node, incarnation)
  }

  // ---- Building ----

  method CheckClaim(ps: seq<int>, n: nat) returns (err: Option<OwnershipError>)
    ensures err == None <==> InRange(ps, n) && NoRepeats(ps)
    ensures match err
      case Some(OutOfRange(p)) => p in ps && !(0 <= p < n)
      case Some(Duplicate(p)) => exists i, j :: 0 <= i < j < |ps| && ps[i] == p == ps[j]
      case Some(NoWorkers) => false
      case None => true
  {
    var seen: set<int> := {};
    for i := 0 to |ps|
      invariant InRange(ps[..i], n) && NoRepeats(ps[..i])
      invariant forall p :: p in seen <==> p in ps[..i]
    {
      if ps[i] < 0 || ps[i] >= n {
        return Some(OutOfRange(ps[i]));
      }
      if ps[i] in seen {
        var j :| 0 <= j < i && ps[j] == ps[i];
        return Some(Duplicate(ps[i]));
      }
      seen := seen + {ps[i]};
      assert ps[..i + 1] == ps[..i] + [ps[i]];
    }
    assert ps[..|ps|] == ps;
    err := None;
  }

  method BuildOwnership(workers: int, partitions: int, overlap: bool, claim: Option<seq<int>>, node: string,
                        incarnation: string)
    returns (r: Result<PartitionMap, OwnershipError>)
    requires Int64(workers)
    ensures workers <= 0 ==> r == Err(NoWorkers)
    ensures workers > 0 ==>
      var universe := Universe(claim, Effective(partitions));
      && (r.Ok? <==> InRange(universe, Effective(partitions)) && NoRepeats(universe))
      && (r.Ok? ==>
            && Deals(r.value, universe, workers, node, incarnation)
            && r.value.partitions == Effective(partitions)
            && r.value.overlap == overlap && r.value.narrowed == claim.Some?)
  {
    if workers <= 0 { return Err(NoWorkers); }
    var n := Effective(partitions);
    var universe := Universe(claim, n);
    if claim.Some? {
      var err := CheckClaim(universe, n);
      if err.Some? { return Err(err.value); }
    }
    var byOwner: map<string, seq<int>> := map[];
    var byPart := new string[n](_ => "");
    for w := 0 to workers
      invariant ListsTo(byOwner, universe, workers, w, overlap, node, incarnation)
      invariant NamesTo(byPart[..], universe, workers, w, overlap, node, incarnation)
    {
      var id := ClaimOwnerID(node, incarnation, w);
      var parts := [];
      ghost var before := byPart[..];
      if overlap {
        parts := universe;
      } else {
        parts := DealTo(byPart, universe, workers, w, id);
      }
      ListsOneMore(byOwner, universe, workers, w, overlap, node, incarnation);
      NamesOneMore(before, byPart[..], universe, workers, w, overlap, node, incarnation);
      byOwner := byOwner[id := parts];
    }
    r := Ok(PartitionMap(n, byOwner, byPart[..], overlap, claim.Some?));
  }

  /** Worker `w` takes its turns. */
  method DealTo(byPart: array<string>, universe: seq<int>, workers: int, w: int, id: string) returns (parts: seq<int>)
    requires workers > 0 && InRange(universe, byPart.Length) && NoRepeats(universe)
    modifies byPart
    ensures parts == Dealt(universe, workers, w, |universe|)
    ensures Turns(old(byPart[..]), byPart[..], universe, workers, w, id, |universe|)
  {
    parts := [];
    ghost var before := byPart[..];
    for i := 0 to |universe|
      invariant parts == Dealt(universe, workers, w, i)
      invariant Turns(before, byPart[..], universe, workers, w, id, i)
    {
      var p := universe[i];
      if i % workers == w {
        parts := parts + [p];
        byPart[p] := id;
      }
    }
  }

  /** Among the first `n` partitions, worker `w` is now named in its turns; nothing else changes. */
  ghost predicate Turns(before: seq<string>, after: seq<string>, universe: seq<int>, workers: int, w: int,
                        id: string, n: nat)
    requires workers > 0
  {
    && |after| == |before| && InRange(universe, |before|)
    && (forall i :: 0 <= i < |universe| ==>
      after[universe[i]] == if i < n && i % workers == w then id else before[universe[i]])
    && (forall p :: 0 <= p < |before| && p !in universe ==> after[p] == before[p])
  }

  lemma TokensApart(node: string, incarnation: string, v: nat, w: nat)
    requires Int64(v) && Int64(w) && v != w
    ensures ClaimOwnerID(node, incarnation, v) != ClaimOwnerID(node, incarnation, w)
  {
    WorkerIndexRoundTrip(node, incarnation, v);
    WorkerIndexRoundTrip(node, incarnation, w);
  }

  lemma ListsOneMore(byOwner: map<string, seq<int>>, universe: seq<int>, workers: int, w: int,
                     overlap: bool, node: string, incarnation: string)
    requires 0 <= w < workers && Int64(workers) && ListsTo(byOwner, universe, workers, w, overlap, node, incarnation)
    ensures var parts := if overlap then universe else Dealt(universe, workers, w, |universe|);
      ListsTo(byOwner[ClaimOwnerID(node, incarnation, w) := parts], universe, workers, w + 1, overlap,
              node, incarnation)
  {
    forall v {:trigger ClaimOwnerID(node, incarnation, v)} | 0 <= v < w
      ensures ClaimOwnerID(node, incarnation, v) != ClaimOwnerID(node, incarnation, w)
    {
      TokensApart(node, incarnation, v, w);
    }
  }

  lemma NamesOneMore(before: seq<string>, after: seq<string>, universe: seq<int>, workers: int, w: int,
                     overlap: bool, node: string, incarnation: string)
    requires 0 <= w < workers && NamesTo(before, universe, workers, w, overlap, node, incarnation)
    requires if overlap then after == before
             else Turns(before, after, universe, workers, w, ClaimOwnerID(node, incarnation, w), |universe|)
    ensures NamesTo(after, universe, workers, w + 1, overlap, node, incarnation)
  {
  }

  // ---- What the dealing guarantees ----

  lemma {:induction false} DealtExactly(universe: seq<int>, workers: int, w: int, n: nat, p: int)
    requires workers > 0 && n <= |universe|
    ensures p in Dealt(universe, workers, w, n) <==> exists i :: 0 <= i < n && i % workers == w && universe[i] == p
  {
    if n > 0 {
      DealtExactly(universe, workers, w, n - 1, p);
      if p in Dealt(universe, workers, w, n - 1) {
        var i :| 0 <= i < n - 1 && i % workers == w && universe[i] == p;
        assert i < n;
      }
    }
  }

  lemma NextTurn(n: nat, k: int)
    requires k > 0
    ensures (n + 1) % k == if n % k == k - 1 then 0 else n % k + 1
    ensures (n + 1) / k == n / k + if n % k == k - 1 then 1 else 0
  {
    var q, r := n / k, n % k;
    assert n == q * k + r;
    if r == k - 1 {
      assert n + 1 == (q + 1) * k + 0;
      Quotient(n + 1, k, q + 1, 0);
    } else {
      Quotient(n + 1, k, q, r + 1);
    }
  }

  lemma Quotient(n: nat, k: int, q: int, r: int)
    requires k > 0 && n == q * k + r && 0 <= r < k
    ensures n / k == q && n % k == r
  {
    var q2, r2 := n / k, n % k;
    assert (q - q2) * k == r2 - r;
    if q > q2 {
      assert (q - q2) * k >= k by { ScaleUp(q - q2, k); }
    } else if q < q2 {
      assert (q2 - q) * k >= k by { ScaleUp(q2 - q, k); }
    }
  }

  lemma ScaleUp(a: int, k: int)
    requires a >= 1 && k > 0
    ensures a * k >= k
  {
  }

  /** How many of the first `n` turns are the `w`th of `k`. */
  function TurnsOf(n: nat, k: int, w: int): int
    requires k > 0
  {
    n / k + if w < n % k then 1 else 0
  }

  lemma OneMoreTurn(n: nat, k: int, w: int)
    requires 0 <= w < k
    ensures TurnsOf(n + 1, k, w) == TurnsOf(n, k, w) + if n % k == w then 1 else 0
  {
    NextTurn(n, k);
  }

  lemma {:induction false} DealtSize(universe: seq<int>, workers: int, w: int, n: nat)
    requires 0 <= w < workers && n <= |universe|
    ensures |Dealt(universe, workers, w, n)| == TurnsOf(n, workers, w)
  {
    if n > 0 {
      DealtSize(universe, workers, w, n - 1);
      OneMoreTurn(n - 1, workers, w);
    } else {
      NoTurn(workers, w);
    }
  }

  /** The turns in order: worker `w` is dealt the places `w`, `w + workers`, and so on. */
  lemma {:induction false} DealtAt(universe: seq<int>, workers: int, w: int, n: nat, j: nat)
    requires 0 <= w < workers && n <= |universe| && j < |Dealt(universe, workers, w, n)|
    ensures w + j * workers < n && Dealt(universe, workers, w, n)[j] == universe[w + j * workers]
  {
    var before := Dealt(universe, workers, w, n - 1);
    if j < |before| {
      DealtAt(universe, workers, w, n - 1, j);
    } else {
      DealtSize(universe, workers, w, n - 1);
      TurnAt(n - 1, workers, w);
    }
  }

  /** The turn that takes place `n` comes after `n / k` earlier ones. */
  lemma TurnAt(n: nat, k: int, w: int)
    requires 0 <= w < k && n % k == w
    ensures w + TurnsOf(n, k, w) * k == n
  {
  }

  /** Whose turn a place of the universe is. */
  lemma InTurn(o: PartitionMap, universe: seq<int>, workers: int, node: string, incarnation: string, i: nat)
    requires workers > 0 && Deals(o, universe, workers, node, incarnation) && !o.overlap && i < |universe|
    ensures o.OwnerOf(universe[i]) == Some(ClaimOwnerID(node, incarnation, i % workers))
  {
    assert o.byPart[universe[i]] == ClaimOwnerID(node, incarnation, i % workers);
  }

  lemma NoTurn(k: int, w: int)
    requires 0 <= w < k
    ensures TurnsOf(0, k, w) == 0
  {
  }

  lemma {:induction false} DealtNoRepeats(universe: seq<int>, workers: int, w: int, n: nat)
    requires workers > 0 && n <= |universe| && NoRepeats(universe)
    ensures NoRepeats(Dealt(universe, workers, w, n))
  {
    if n > 0 {
      DealtNoRepeats(universe, workers, w, n - 1);
      DealtExactly(universe, workers, w, n - 1, universe[n - 1]);
    }
  }

  /** The two directions of an exclusive map invert each other, for every token and every number;
      and exactly the partitions dealt out have an owner, which is one of the workers. So owner
      lists are disjoint and cover the universe. */
  lemma ExclusiveOwnership(o: PartitionMap, universe: seq<int>, workers: int, node: string, incarnation: string,
                           p: int, owner: string)
    requires workers > 0 && Int64(workers) && Deals(o, universe, workers, node, incarnation) && !o.overlap
    ensures p in o.PartitionsFor(owner) <==> o.OwnerOf(p) == Some(owner)
    ensures p in universe <==> exists w :: 0 <= w < workers && o.OwnerOf(p) == Some(ClaimOwnerID(node, incarnation, w))
    ensures o.OwnerOf(p).Some? <==> p in universe
  {
    if p in universe {
      var i :| 0 <= i < |universe| && universe[i] == p;
      var v := i % workers;
      assert o.byPart[universe[i]] == ClaimOwnerID(node, incarnation, v);
      assert o.OwnerOf(p) == Some(ClaimOwnerID(node, incarnation, v));
      DealtExactly(universe, workers, v, |universe|, p);
    }
    if owner in o.byOwner {
      var w :| 0 <= w < workers && owner == ClaimOwnerID(node, incarnation, w);
      DealtExactly(universe, workers, w, |universe|, p);
      if p in o.PartitionsFor(owner) {
        var i :| 0 <= i < |universe| && i % workers == w && universe[i] == p;
        assert o.byPart[universe[i]] == ClaimOwnerID(node, incarnation, w);
      }
    }
  }

  /** Where partitions overlap, every worker is given all. */
  lemma OverlapGivesAll(o: PartitionMap, universe: seq<int>, workers: int, node: string, incarnation: string, w: int)
    requires 0 <= w < workers && Deals(o, universe, workers, node, incarnation) && o.overlap
    ensures o.PartitionsFor(ClaimOwnerID(node, incarnation, w)) == universe
  {
    assert ClaimOwnerID(node, incarnation, w) in o.byOwner;
  }

  /** No two tokens share a partition. */
  lemma OwnersDisjoint(o: PartitionMap, universe: seq<int>, workers: int, node: string, incarnation: string,
                       a: string, b: string, p: int)
    requires workers > 0 && Int64(workers) && Deals(o, universe, workers, node, incarnation) && !o.overlap
    requires p in o.PartitionsFor(a) && p in o.PartitionsFor(b)
    ensures a == b
  {
    ExclusiveOwnership(o, universe, workers, node, incarnation, p, a);
    ExclusiveOwnership(o, universe, workers, node, incarnation, p, b);
  }

  /** Any two workers' lists differ in length by at most one, and repeat nothing. */
  lemma Balanced(o: PartitionMap, universe: seq<int>, workers: int, node: string, incarnation: string, v: int, w: int)
    requires 0 <= v < workers && 0 <= w < workers && Deals(o, universe, workers, node, incarnation) && !o.overlap
    ensures var a := o.PartitionsFor(ClaimOwnerID(node, incarnation, v));
      var b := o.PartitionsFor(ClaimOwnerID(node, incarnation, w));
      NoRepeats(a) && |a| <= |b| + 1
  {
    DealtSize(universe, workers, v, |universe|);
    DealtSize(universe, workers, w, |universe|);
    DealtNoRepeats(universe, workers, v, |universe|);
  }
}
