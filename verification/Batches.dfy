/** What the two stores share: the batches they accept, their counters, their retention defaults. */
module Batches {
  import opened Deliveries
  import opened StoreSpec
  import opened Sorting

  const DEFAULT_RETENTION_MAX_COUNT := 1000
  const DEFAULT_RETENTION_MAX_AGE := 24 * 3600 * 1_000_000_000

  datatype Gap = Gap(occurred: bool, dropped: nat)

  // ---- Enqueue ----

  /** Why a row is refused by a store that holds `ids`. */
  function RowFault(ids: set<string>, d: Delivery): Option<Error> {
    if d.id == "" then Some(MissingID)
    else if d.subscriber == "" then Some(MissingSubscriber)
    else if d.id in ids then Some(DuplicateID)
    else None
  }

  /** One row has been stored: under the next sequence of its subscriber, retained if that is
      suspended and pending otherwise, due at once, untried, and unclaimed. */
  ghost predicate Enqueued(t: Table, rows2: map<string, Delivery>, seqs2: map<string, nat>, d: Delivery, now: int) {
    var s := d.subscriber;
    var n := if s in t.seqs then t.seqs[s] + 1 else 1;
    var status := if s in t.subs && t.subs[s].suspended then Retained else Pending;
    && seqs2 == t.seqs[s := n]
    && rows2 == t.rows[d.id := Delivery(d.id, s, d.partition, d.body, n, status, 0, At(now), "", "", 0, Never, now)]
  }

  /** The ids of the first `n` rows of a batch. */
  function IdsOf(ds: seq<Delivery>, n: nat): set<string>
    requires n <= |ds|
  {
    if n == 0 then {} else IdsOf(ds, n - 1) + {ds[n - 1].id}
  }

  /** Why row `i` of a batch is refused when the rows before it have been stored. */
  function Fault(ids: set<string>, ds: seq<Delivery>, i: nat): Option<Error>
    requires i < |ds|
  {
    RowFault(ids + IdsOf(ds, i), ds[i])
  }

  /** The first `n` rows of a batch are fit to store. */
  ghost predicate Accepted(ids: set<string>, ds: seq<Delivery>, n: nat) {
    n <= |ds| && forall i :: 0 <= i < n ==> Fault(ids, ds, i) == None
  }

  /** A row of a batch is refused for lack of an id or of a subscriber, or because its id is taken by
      a stored row or by an earlier one of the batch; the first of these is the reason. */
  lemma {:induction false} FaultMeans(ids: set<string>, ds: seq<Delivery>, i: nat)
    requires i < |ds|
    ensures var d := ds[i];
      Fault(ids, ds, i) ==
      if d.id == "" then Some(MissingID) else if d.subscriber == "" then Some(MissingSubscriber)
      else if d.id in ids || exists j :: 0 <= j < i && ds[j].id == d.id then Some(DuplicateID)
      else None
  {
    EarlierIds(ds, i, ds[i].id);
  }

  lemma {:induction false} EarlierIds(ds: seq<Delivery>, n: nat, id: string)
    requires n <= |ds|
    ensures id in IdsOf(ds, n) <==> exists j :: 0 <= j < n && ds[j].id == id
  {
    if n > 0 {
      EarlierIds(ds, n - 1, id);
    }
  }

  lemma {:induction false} InsertionsAre(ds: seq<Delivery>, n: nat, now: int)
    requires n <= |ds|
    ensures |Insertions(ds, n, now)| == n
    ensures forall i :: 0 <= i < n ==> Insertions(ds, n, now)[i] == Insert(ds[i], now)
  {
    if n > 0 {
      InsertionsAre(ds, n - 1, now);
    }
  }

  lemma {:induction false} SuspendedAmongMeans(t: Table, ds: seq<Delivery>, n: nat, s: string)
    requires n <= |ds|
    ensures s in SuspendedAmong(t, ds, n) <==>
      s in t.subs && t.subs[s].suspended && exists j :: 0 <= j < n && ds[j].subscriber == s
  {
    if n > 0 {
      SuspendedAmongMeans(t, ds, n - 1, s);
    }
  }

  function Insertions(ds: seq<Delivery>, n: nat, now: int): seq<Op>
    requires n <= |ds|
  {
    if n == 0 then [] else Insertions(ds, n - 1, now) + [Insert(ds[n - 1], now)]
  }

  function SuspendedAmong(t: Table, ds: seq<Delivery>, n: nat): set<string>
    requires n <= |ds|
  {
    if n == 0 then {} else
    SuspendedAmong(t, ds, n - 1)
    + if t.MetaOf(ds[n - 1].subscriber).suspended then {ds[n - 1].subscriber} else {}
  }

  function Trims(order: seq<string>, limits: Limits, now: int): seq<Op> {
    seq(|order|, i requires 0 <= i < |order| => Trim(order[i], limits, now))
  }

  /** `order` goes through a set once. */
  ghost predicate Lists(order: seq<string>, members: set<string>) {
    NoRepeats(order) && forall x :: x in order <==> x in members
  }

  lemma TrimsOneMore(order: seq<string>, s: string, limits: Limits, now: int)
    ensures Trims(order + [s], limits, now) == Trims(order, limits, now) + [Trim(s, limits, now)]
  {
  }

  /** Where the insertion loop stands after `n` rows. */
  ghost predicate Storing(t: Table, h: seq<Op>, ds: seq<Delivery>, n: nat, now: int,
                          ids: set<string>, touched: set<string>, history: seq<Op>) {
    && Accepted(t.rows.Keys, ds, n)
    && ids == t.rows.Keys + IdsOf(ds, n)
    && touched == SuspendedAmong(t, ds, n)
    && history == h + Insertions(ds, n, now)
  }

  lemma StoringOneMore(t: Table, h: seq<Op>, ds: seq<Delivery>, n: nat, now: int,
                       ids: set<string>, touched: set<string>, history: seq<Op>)
    requires Storing(t, h, ds, n, now, ids, touched, history) && n < |ds|
    ensures Fault(t.rows.Keys, ds, n) == RowFault(ids, ds[n])
    ensures RowFault(ids, ds[n]) == None ==>
      Storing(t, h, ds, n + 1, now, ids + {ds[n].id},
              touched + (if t.MetaOf(ds[n].subscriber).suspended then {ds[n].subscriber} else {}),
              history + [Insert(ds[n], now)])
  {
  }

  // ---- Counters ----

  function Where(rows: map<string, Delivery>, wanted: Delivery -> bool): set<string> {
    set id | id in rows && wanted(rows[id])
  }

  method CountWhere(rows: map<string, Delivery>, wanted: Delivery -> bool) returns (n: nat)
    ensures n == |Where(rows, wanted)|
  {
    n := 0;
    ghost var found: set<string> := {};
    var todo := rows.Keys;
    while todo != {}
      invariant todo <= rows.Keys && n == |found|
      invariant forall id :: id in found <==> id in rows && id !in todo && wanted(rows[id])
      decreases todo
    {
      var id :| id in todo;
      todo := todo - {id};
      if wanted(rows[id]) {
        n := n + 1;
        found := found + {id};
      }
    }
    assert found == Where(rows, wanted);
  }
}
