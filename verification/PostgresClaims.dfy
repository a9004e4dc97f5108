/** The claim statement of the SQL store (store/postgres/postgres.go): one query picks rows in
    order, skipping locked ones, and stamps them from the caller or from the owner rows. */
module PostgresClaims {
  import opened Deliveries
  import opened StoreSpec
  import opened Refinement
  import opened StoreRuns
  import opened Sorting
  import opened Claiming
  import opened Tokens
  import opened Ownership

  /** What entitles a claim to a row: the caller's partition list and generation, or the active
      owner rows of the claimant's node. */
  datatype Grant = ByList(parts: set<int>, generation: nat) | ByOwners(owners: Owners, node: string) {

    /** The generation to stamp on a row of partition `p`, if the claim may take it. */
    function StampFor(p: int): Option<nat> {
      match this
      case ByList(parts, generation) => if p in parts then Some(generation) else None
      case ByOwners(owners, node) =>
        if p in owners && owners[p].node == node && owners[p].state == Active then Some(owners[p].generation) else None
    }
  }

  ghost predicate MayTake(t: Table, id: string, grant: Grant, now: int) {
    Claimable(t, id, now) && grant.StampFor(t.rows[id].partition).Some?
  }

  /** The rows that a claim may take and that no other transaction has locked. */
  ghost function Unlocked(t: Table, grant: Grant, locked: set<string>, now: int): set<string> {
    set id | id in t.rows && MayTake(t, id, grant, now) && id !in locked
  }

  /** ORDER BY partition, subscriber_id, sequence. */
  predicate ClaimOrder(a: Delivery, b: Delivery) {
    if a.partition != b.partition then a.partition < b.partition
    else if a.subscriber != b.subscriber then Before(a.subscriber, b.subscriber)
    else a.sequence < b.sequence
  }

  /** The claim is exact: it takes, stamped, the first `min(limit, n)` of the `n` rows that it may
      take and that are not locked, never two of one subscriber. SQL promises no order in which
      they are returned. */
  ghost predicate ExactBatch(t: Table, out: seq<Delivery>, grant: Grant, locked: set<string>, limit: int,
                             owner: string, now: int) {
    var open := Unlocked(t, grant, locked, now);
    && |out| == (if |open| < limit then |open| else limit)
    && (forall d :: d in out ==>
          d.id in open && d == Claimed(t.rows[d.id], owner, grant.StampFor(t.rows[d.id].partition).value, now))
    && (forall i, j :: 0 <= i < j < |out| ==> out[i].subscriber != out[j].subscriber)
    && (forall d, id :: d in out && id in open && id !in IdSet(out) ==> ClaimOrder(t.rows[d.id], t.rows[id]))
  }

  // ---- The query ----

  /** EXISTS an earlier row of the subscriber that is pending or in flight. */
  predicate Blocked(rows: map<string, Delivery>, id: string)
    requires id in rows
  {
    exists j :: j in rows && rows[j].subscriber == rows[id].subscriber
      && rows[j].sequence < rows[id].sequence && Unfinished(rows[j])
  }

  /** The rows that match the query, each once, in claim order. */
  ghost predicate Matches(ds: seq<Delivery>, t: Table, grant: Grant, locked: set<string>, now: int) {
    && NoRepeats(ds) && Sorted(ds, ClaimOrder)
    && forall d :: d in ds <==> d.id in t.rows && d == t.rows[d.id] && d.id in Unlocked(t, grant, locked, now)
  }

  lemma RowsKeyedById(h: seq<Op>, t: Table)
    requires Reached(h, t)
    ensures forall id :: id in t.rows ==> t.rows[id].id == id
  {
    forall id | id in t.rows
      ensures t.rows[id].id == id
    {
      var q := ReachedMirrors(h, t, t.rows[id].subscriber);
      assert Fits(id, t.rows[id], q);
    }
  }

  lemma ClaimOrderIsWeak()
    ensures StrictWeak(ClaimOrder)
  {
    forall a: Delivery, b: Delivery | ClaimOrder(a, b)
      ensures !ClaimOrder(b, a)
    {
      BeforeOrder(a.subscriber, b.subscriber, "");
    }
    forall a: Delivery, b: Delivery, c: Delivery
      ensures Carries(ClaimOrder, a, b, c)
    {
      BeforeOrder(a.subscriber, b.subscriber, c.subscriber);
      BeforeOrder(b.subscriber, c.subscriber, a.subscriber);
      BeforeOrder(a.subscriber, c.subscriber, b.subscriber);
    }
  }

  method SelectClaimable(t: Table, grant: Grant, locked: set<string>, now: int,
                         ghost h: seq<Op>) returns (ds: seq<Delivery>)
    requires Reached(h, t)
    ensures Matches(ds, t, grant, locked, now)
  {
    RowsKeyedById(h, t);
    var found: seq<Delivery> := [];
    var todo := t.rows.Keys;
    while todo != {}
      invariant todo <= t.rows.Keys && NoRepeats(found)
      invariant forall d :: d in found <==>
        d.id in t.rows && d.id !in todo && d == t.rows[d.id] && d.id in Unlocked(t, grant, locked, now)
      decreases todo
    {
      var id :| id in todo;
      todo := todo - {id};
      var d := t.rows[id];
      if d.status == Pending && Due(d, now) && grant.StampFor(d.partition).Some?
         && !(d.subscriber in t.subs && t.subs[d.subscriber].suspended) && !Blocked(t.rows, id) && id !in locked
      {
        found := found + [d];
      }
    }
    ClaimOrderIsWeak();
    ds := SortBy(found, ClaimOrder);
  }

  /** In claim order the matching rows are of different subscribers and strictly ascending. */
  lemma MatchesRanked(h: seq<Op>, ds: seq<Delivery>, t: Table, grant: Grant, locked: set<string>, now: int, i: nat,
                      j: nat)
    requires Reached(h, t) && Matches(ds, t, grant, locked, now) && i < j < |ds|
    ensures ds[i].subscriber != ds[j].subscriber && ds[i].id != ds[j].id && ClaimOrder(ds[i], ds[j])
  {
    ClaimOrderIsWeak();
    SortedApart(ds, ClaimOrder, i, j);
    assert ds[i] in ds && ds[j] in ds;
    if ds[i].subscriber == ds[j].subscriber {
      OneClaimablePerSubscriber(h, t, ds[i].id, ds[j].id, now);
    }
    BeforeOrder(ds[i].subscriber, ds[j].subscriber, "");
  }

  lemma IdCount(ds: seq<Delivery>)
    requires forall i, j :: 0 <= i < j < |ds| ==> ds[i].id != ds[j].id
    ensures |IdSet(ds)| == |ds|
  {
    var ids := seq(|ds|, i requires 0 <= i < |ds| => ds[i].id);
    LineSize(ids);
    SameIds(ds, ids);
  }

  lemma SameIds(ds: seq<Delivery>, ids: seq<string>)
    requires |ids| == |ds| && forall i :: 0 <= i < |ds| ==> ids[i] == ds[i].id
    ensures IdSet(ds) == Ids(ids)
  {
  }

  lemma MatchIds(h: seq<Op>, ds: seq<Delivery>, t: Table, grant: Grant, locked: set<string>, now: int)
    requires Reached(h, t) && Matches(ds, t, grant, locked, now)
    ensures IdSet(ds) == Unlocked(t, grant, locked, now)
    ensures forall i, j :: 0 <= i < j < |ds| ==>
      ds[i].id != ds[j].id && ds[i].subscriber != ds[j].subscriber && ClaimOrder(ds[i], ds[j])
  {
    RowsKeyedById(h, t);
    forall id | id in Unlocked(t, grant, locked, now)
      ensures id in IdSet(ds)
    {
      assert t.rows[id] in ds;
    }
    forall i, j | 0 <= i < j < |ds|
      ensures ds[i].id != ds[j].id && ds[i].subscriber != ds[j].subscriber && ClaimOrder(ds[i], ds[j])
    {
      MatchesRanked(h, ds, t, grant, locked, now, i, j);
    }
  }

  // ---- UPDATE ... FROM candidates ... RETURNING ----

  /** The generation to stamp on each row that is taken. */
  function PicksOf(t: Table, ids: set<string>, grant: Grant): map<string, nat> {
    map id | id in ids && id in t.rows && grant.StampFor(t.rows[id].partition).Some? ::
      grant.StampFor(t.rows[id].partition).value
  }

  /** Runs the claim on a transaction's view of the tables. */
  method TakeBatch(t: Table, grant: Grant, locked: set<string>, limit: int, owner: string, now: int, ghost h: seq<Op>)
    returns (t2: Table, out: seq<Delivery>, picks: map<string, nat>)
    requires Reached(h, t) && limit > 0 && owner != ""
    requires forall p :: grant.StampFor(p) != Some(0)
    ensures picks == PicksOf(t, IdSet(out), grant) && ExactBatch(t, out, grant, locked, limit, owner, now)
    ensures Legal(t, Claim(picks, owner, now)) && t2 == Apply(t, Claim(picks, owner, now))
  {
    var ds := SelectClaimable(t, grant, locked, now, h);
    var n := if |ds| < limit then |ds| else limit;
    var ids := IdSet(ds[..n]);
    picks := PicksOf(t, ids, grant);
    ChosenFirst(h, ds, n, t, grant, locked, now);
    ChosenIsLegal(t, ids, grant, locked, owner, now);
    t2 := t.(rows := map id | id in t.rows ::
      if id in picks then Claimed(t.rows[id], owner, picks[id], now) else t.rows[id]);
    ghost var order;
    out, order := ScanRows(t2.rows, ids);
    ScannedAreReturned(t, ids, order, out, grant, owner, now);
    ReturnedIsExact(h, t, ds, n, order, out, grant, locked, limit, owner, now);
  }

  /** Reads back the returned rows. */
  method ScanRows(rows: map<string, Delivery>, ids: set<string>) returns (out: seq<Delivery>, ghost order: seq<string>)
    requires ids <= rows.Keys
    ensures NoRepeats(order) && |order| == |ids| && forall id :: id in order <==> id in ids
    ensures ReadBack(rows, order, out)
  {
    var listed := Listed(ids);
    out, order := [], listed;
    for i := 0 to |listed|
      invariant |out| == i && forall j :: 0 <= j < i ==> listed[j] in rows && out[j] == rows[listed[j]]
    {
      assert listed[i] in listed;
      out := out + [rows[listed[i]]];
    }
  }

  ghost predicate ReadBack(rows: map<string, Delivery>, order: seq<string>, out: seq<Delivery>) {
    |out| == |order| && forall j :: 0 <= j < |order| ==> order[j] in rows && out[j] == rows[order[j]]
  }

  lemma ScannedAreReturned(t: Table, ids: set<string>, order: seq<string>, out: seq<Delivery>, grant: Grant,
                           owner: string, now: int)
    requires PicksOf(t, ids, grant).Keys == ids && forall id :: id in order ==> id in ids
    requires ReadBack(Apply(t, Claim(PicksOf(t, ids, grant), owner, now)).rows, order, out)
    ensures Returned(t, order, out, grant, owner, now)
  {
  }

  lemma ChosenIsLegal(t: Table, ids: set<string>, grant: Grant, locked: set<string>, owner: string, now: int)
    requires ids <= Unlocked(t, grant, locked, now) && owner != "" && forall p :: grant.StampFor(p) != Some(0)
    ensures PicksOf(t, ids, grant).Keys == ids
    ensures Legal(t, Claim(PicksOf(t, ids, grant), owner, now))
  {
  }

  /** `out` lists the claimed rows in some order. */
  ghost predicate Returned(t: Table, order: seq<string>, out: seq<Delivery>, grant: Grant, owner: string, now: int) {
    |out| == |order| && forall i :: 0 <= i < |order| ==> ReturnedAt(t, order[i], out[i], grant, owner, now)
  }

  ghost predicate ReturnedAt(t: Table, id: string, d: Delivery, grant: Grant, owner: string, now: int) {
    && id in t.rows && grant.StampFor(t.rows[id].partition).Some?
    && d == Claimed(t.rows[id], owner, grant.StampFor(t.rows[id].partition).value, now)
  }

  lemma ReturnedIds(h: seq<Op>, t: Table, order: seq<string>, out: seq<Delivery>, grant: Grant, owner: string, now: int)
    requires Reached(h, t) && Returned(t, order, out, grant, owner, now)
    ensures forall i :: 0 <= i < |order| ==> out[i].id == order[i]
    ensures forall id :: id in IdSet(out) <==> id in order
  {
    RowsKeyedById(h, t);
    forall i | 0 <= i < |order|
      ensures out[i].id == order[i]
    {
      assert ReturnedAt(t, order[i], out[i], grant, owner, now);
    }
    forall id | id in order
      ensures id in IdSet(out)
    {
      var i :| 0 <= i < |order| && order[i] == id;
      assert out[i] in out;
    }
  }

  lemma ReturnedApart(h: seq<Op>, t: Table, order: seq<string>, out: seq<Delivery>, grant: Grant,
                      locked: set<string>, owner: string, now: int)
    requires Reached(h, t) && Returned(t, order, out, grant, owner, now) && NoRepeats(order)
    requires forall id :: id in order ==> id in Unlocked(t, grant, locked, now)
    ensures forall i, j :: 0 <= i < j < |out| ==> out[i].subscriber != out[j].subscriber
  {
    forall i, j | 0 <= i < j < |out|
      ensures out[i].subscriber != out[j].subscriber
    {
      assert order[i] in order && order[j] in order;
      assert ReturnedAt(t, order[i], out[i], grant, owner, now) && ReturnedAt(t, order[j], out[j], grant, owner, now);
      if out[i].subscriber == out[j].subscriber {
        OneClaimablePerSubscriber(h, t, order[i], order[j], now);
      }
    }
  }

  lemma ReturnedIsExact(h: seq<Op>, t: Table, ds: seq<Delivery>, n: nat, order: seq<string>, out: seq<Delivery>,
                        grant: Grant, locked: set<string>, limit: int, owner: string, now: int)
    requires Reached(h, t) && Matches(ds, t, grant, locked, now) && limit > 0
    requires n == (if |ds| < limit then |ds| else limit) && Returned(t, order, out, grant, owner, now)
    requires |order| == |IdSet(ds[..n])| && forall id :: id in order <==> id in IdSet(ds[..n])
    requires NoRepeats(order)
    ensures IdSet(out) == IdSet(ds[..n]) && ExactBatch(t, out, grant, locked, limit, owner, now)
  {
    ReturnedIds(h, t, order, out, grant, owner, now);
    MatchIds(h, ds, t, grant, locked, now);
    IdCount(ds);
    IdCount(ds[..n]);
    ChosenFirst(h, ds, n, t, grant, locked, now);
    ReturnedApart(h, t, order, out, grant, locked, owner, now);
    forall d | d in out
      ensures d.id in IdSet(ds[..n])
      ensures d == Claimed(t.rows[d.id], owner, grant.StampFor(t.rows[d.id].partition).value, now)
    {
      var i :| 0 <= i < |out| && out[i] == d;
      assert order[i] in order && ReturnedAt(t, order[i], out[i], grant, owner, now);
    }
  }

  /** What is chosen may be taken, and comes before what is not chosen. */
  lemma ChosenFirst(h: seq<Op>, ds: seq<Delivery>, n: nat, t: Table, grant: Grant, locked: set<string>, now: int)
    requires Reached(h, t) && Matches(ds, t, grant, locked, now) && n <= |ds|
    ensures IdSet(ds[..n]) <= Unlocked(t, grant, locked, now)
    ensures forall a, b :: a in IdSet(ds[..n]) && b in Unlocked(t, grant, locked, now) && b !in IdSet(ds[..n]) ==>
      ClaimOrder(t.rows[a], t.rows[b])
  {
    MatchIds(h, ds, t, grant, locked, now);
    forall a | a in IdSet(ds[..n])
      ensures a in IdSet(ds) && a in t.rows
    {
    }
    forall k | 0 <= k < n
      ensures ds[k].id in IdSet(ds[..n])
    {
      assert ds[..n][k] in ds[..n];
    }
    forall a, b | a in IdSet(ds[..n]) && b in Unlocked(t, grant, locked, now) && b !in IdSet(ds[..n])
      ensures ClaimOrder(t.rows[a], t.rows[b])
    {
      var i :| 0 <= i < n && ds[i].id == a;
      var j :| 0 <= j < |ds| && ds[j].id == b;
      assert ds[i] in ds && ds[j] in ds;
    }
  }

  // ---- A claim, read off the tables ----

  /** The caller may take rows of partition `p` with generation `g`: without owner rows, from the list
      it names and under the generation it names; otherwise as the partition's active owner. */
  predicate Entitles(owners: Owners, partitions: seq<int>, owner: string, generation: nat, p: int, g: nat) {
    if owners == map[] then p in partitions && g == generation
    else (p in owners && owners[p].state == Active && g == owners[p].generation
          && ParseDistributedOwner(owner) == Some(owners[p].node))
  }

  /** What a claim has taken and left: only rows that are first in line, due, unlocked and the
      caller's, stamped; all other rows untouched; and nothing of the kind left before a row of a
      batch, in order of partition and subscriber, or left at all by a batch that is not full. */
  ghost predicate SqlShare(rows: map<string, Delivery>, subs: map<string, Meta>, owners: Owners,
                           rows2: map<string, Delivery>, out: seq<Delivery>, partitions: seq<int>,
                           locked: set<string>, limit: int, owner: string, generation: nat, now: int) {
    && rows2.Keys == rows.Keys && |out| <= limit
    && (forall d :: d in out ==>
          && FirstAndDue(rows, subs, d.id, now) && d.id !in locked && rows2[d.id] == d
          && Entitles(owners, partitions, owner, generation, d.partition, d.generation)
          && TakenBy(rows[d.id], d, owner, d.generation, now))
    && (forall id :: id in rows && rows2[id] !in out ==> rows2[id] == rows[id])
    && (forall id, g ::
          FirstAndDue(rows, subs, id, now) && id !in locked && rows2[id] !in out
          && Entitles(owners, partitions, owner, generation, rows[id].partition, g) ==>
          |out| == limit && forall d :: d in out ==> Earlier(d, rows[id]))
  }

  /** An earlier partition, or the same one and an earlier subscriber. */
  predicate Earlier(d: Delivery, d2: Delivery) {
    d.partition < d2.partition || (d.partition == d2.partition && Before(d.subscriber, d2.subscriber))
  }

  ghost predicate GrantFor(grant: Grant, owners: Owners, partitions: seq<int>, owner: string, generation: nat) {
    if owners == map[] then grant == ByList(PartitionSet(partitions), generation)
    else ParseDistributedOwner(owner).Some? && grant == ByOwners(owners, ParseDistributedOwner(owner).value)
  }

  lemma GrantEntitles(grant: Grant, owners: Owners, partitions: seq<int>, owner: string, generation: nat, p: int,
                      g: nat)
    requires GrantFor(grant, owners, partitions, owner, generation)
    ensures grant.StampFor(p) == Some(g) <==> Entitles(owners, partitions, owner, generation, p, g)
  {
  }

  lemma OpenMeans(t: Table, grant: Grant, locked: set<string>, owners: Owners, partitions: seq<int>, owner: string,
                  generation: nat, now: int, id: string, g: nat)
    requires GrantFor(grant, owners, partitions, owner, generation)
    ensures id in Unlocked(t, grant, locked, now) && grant.StampFor(t.rows[id].partition) == Some(g) <==>
      FirstAndDue(t.rows, t.subs, id, now) && id !in locked
      && Entitles(owners, partitions, owner, generation, t.rows[id].partition, g)
  {
    FirstAndDueIsClaimable(t, id, now);
    if id in t.rows {
      GrantEntitles(grant, owners, partitions, owner, generation, t.rows[id].partition, g);
    }
  }

  lemma BatchIsShare(h: seq<Op>, t: Table, t2: Table, out: seq<Delivery>, grant: Grant, locked: set<string>, limit: int,
                     owners: Owners, partitions: seq<int>, owner: string, generation: nat, now: int)
    requires Reached(h, t) && limit > 0 && GrantFor(grant, owners, partitions, owner, generation)
    requires ExactBatch(t, out, grant, locked, limit, owner, now)
    requires t2 == Apply(t, Claim(PicksOf(t, IdSet(out), grant), owner, now))
    ensures SqlShare(t.rows, t.subs, owners, t2.rows, out, partitions, locked, limit, owner, generation, now)
  {
    forall d | d in out
      ensures FirstAndDue(t.rows, t.subs, d.id, now) && d.id !in locked && t2.rows[d.id] == d
      ensures Entitles(owners, partitions, owner, generation, d.partition, d.generation)
      ensures TakenBy(t.rows[d.id], d, owner, d.generation, now)
    {
      assert d.id in IdSet(out) && d.id in Unlocked(t, grant, locked, now);
      OpenMeans(t, grant, locked, owners, partitions, owner, generation, now, d.id, d.generation);
    }
    forall id | id in t.rows && t2.rows[id] !in out
      ensures t2.rows[id] == t.rows[id] && id !in IdSet(out)
    {
      LeftUntouched(t, t2, out, grant, owner, now, id);
    }
    forall id, g | FirstAndDue(t.rows, t.subs, id, now) && id !in locked && t2.rows[id] !in out
      && Entitles(owners, partitions, owner, generation, t.rows[id].partition, g)
      ensures |out| == limit && forall d :: d in out ==> Earlier(d, t.rows[id])
    {
      OpenMeans(t, grant, locked, owners, partitions, owner, generation, now, id, g);
      LeftIsLater(h, t, out, grant, locked, limit, owner, now, id);
    }
  }

  lemma LeftUntouched(t: Table, t2: Table, out: seq<Delivery>, grant: Grant, owner: string, now: int, id: string)
    requires t2 == Apply(t, Claim(PicksOf(t, IdSet(out), grant), owner, now)) && id in t.rows
    requires forall d :: d in out ==>
      && d.id in t.rows && grant.StampFor(t.rows[d.id].partition).Some?
      && d == Claimed(t.rows[d.id], owner, grant.StampFor(t.rows[d.id].partition).value, now)
    ensures t2.rows[id] !in out ==> t2.rows[id] == t.rows[id] && id !in IdSet(out)
  {
    if id in IdSet(out) {
      var d :| d in out && d.id == id;
      assert t2.rows[id] == d;
    }
  }

  lemma LeftIsLater(h: seq<Op>, t: Table, out: seq<Delivery>, grant: Grant, locked: set<string>, limit: int,
                    owner: string, now: int, id: string)
    requires Reached(h, t) && limit > 0 && ExactBatch(t, out, grant, locked, limit, owner, now)
    requires id in Unlocked(t, grant, locked, now) && id !in IdSet(out)
    ensures |out| == limit && forall d :: d in out ==> Earlier(d, t.rows[id])
  {
    RowsKeyedById(h, t);
    if |out| < limit {
      forall i, j | 0 <= i < j < |out|
        ensures out[i].id != out[j].id
      {
        assert out[i] in out && out[j] in out;
      }
      IdCount(out);
      assert IdSet(out) <= Unlocked(t, grant, locked, now);
      SubsetOfSize(IdSet(out), Unlocked(t, grant, locked, now));
    }
    forall d | d in out
      ensures Earlier(d, t.rows[id])
    {
      assert d.id in IdSet(out);
      if d.subscriber == t.rows[id].subscriber {
        OneClaimablePerSubscriber(h, t, d.id, id, now);
      }
    }
  }
}
