/** What an enqueued batch does to a store, and when retention bounds hold. */
module BatchRuns {
  import opened Deliveries
  import opened StoreSpec
  import opened Refinement
  import opened StoreRuns
  import opened Batches

  // ---- All or nothing ----

  /** The first row from `i` on that is refused, or the length of the batch. */
  function FirstFault(ids: set<string>, ds: seq<Delivery>, i: nat): nat
    requires i <= |ds|
    decreases |ds| - i
  {
    if i == |ds| || Fault(ids, ds, i) != None then i else FirstFault(ids, ds, i + 1)
  }

  lemma {:induction false} FirstFaultIs(ids: set<string>, ds: seq<Delivery>, i: nat, n: nat)
    requires i <= n <= |ds| && Accepted(ids, ds, n) && (n < |ds| ==> Fault(ids, ds, n) != None)
    ensures FirstFault(ids, ds, i) == n
    decreases n - i
  {
    if i < n {
      FirstFaultIs(ids, ds, i + 1, n);
    }
  }

  lemma {:induction false} InsertionsAdd(h: seq<Op>, t: Table, ds: seq<Delivery>, n: nat, now: int, t2: Table)
    requires n <= |ds| && Reached(h, t) && Reached(h + Insertions(ds, n, now), t2)
    ensures t2.rows.Keys == t.rows.Keys + IdsOf(ds, n) && t2.subs == t.subs
  {
    if n == 0 {
      assert h + Insertions(ds, n, now) == h;
      ReachesOneTable(h, t, t2);
    } else {
      assert h + Insertions(ds, n, now) == h + Insertions(ds, n - 1, now) + [Insert(ds[n - 1], now)];
      var before := ReachedBefore(h + Insertions(ds, n - 1, now), Insert(ds[n - 1], now), t2);
      InsertionsAdd(h, t, ds, n - 1, now, before);
    }
  }

  lemma {:induction false} FirstIsAmong(ds: seq<Delivery>, n: nat)
    requires 0 < n <= |ds|
    ensures ds[0].id in IdsOf(ds, n)
  {
    if n > 1 {
      FirstIsAmong(ds, n - 1);
    }
  }

  /** The interface calls an enqueue atomic; in memory a refused batch leaves the rows before the
      refused one behind. It is all or nothing exactly when nothing is refused, or the first row is. */
  lemma AtomicExactly(h: seq<Op>, t: Table, ds: seq<Delivery>, stored: nat, now: int, t2: Table)
    requires Accepted(t.rows.Keys, ds, stored) && (stored < |ds| ==> Fault(t.rows.Keys, ds, stored) != None)
    requires Reached(h, t) && Reached(h + Insertions(ds, stored, now), t2)
    ensures stored == |ds| || t2 == t <==> FirstFault(t.rows.Keys, ds, 0) == 0 || FirstFault(t.rows.Keys, ds, 0) == |ds|
  {
    FirstFaultIs(t.rows.Keys, ds, 0, stored);
    InsertionsAdd(h, t, ds, stored, now, t2);
    if stored == 0 {
      assert h + Insertions(ds, 0, now) == h;
      ReachesOneTable(h, t, t2);
    } else {
      FirstIsAmong(ds, stored);
      assert Fault(t.rows.Keys, ds, 0) == None;
    }
  }

  function RowNamed(id: string): Delivery {
    Delivery(id, "s", 0, "", 0, Pending, 0, Never, "", "", 0, Never, 0)
  }

  /** A refused batch that leaves a row behind: its second row has no id. */
  lemma PartialBatch(now: int)
    ensures var ds := [RowNamed("a"), RowNamed("")];
      && Accepted({}, ds, 1) && Fault({}, ds, 1) == Some(MissingID)
      && Reached(Insertions(ds, 1, now), Apply(EMPTY, Insert(RowNamed("a"), now)))
      && "a" in Apply(EMPTY, Insert(RowNamed("a"), now)).rows
  {
    var ds := [RowNamed("a"), RowNamed("")];
    EmptyReached();
    assert Fault({}, ds, 0) == None;
    ReachedNext([], EMPTY, Insert(RowNamed("a"), now));
    assert Insertions(ds, 1, now) == [] + [Insert(RowNamed("a"), now)];
  }

  // ---- The retention bound ----

  /** How many of the first `n` rows are for `s`. */
  function CountFor(ds: seq<Delivery>, n: nat, s: string): nat
    requires n <= |ds|
  {
    if n == 0 then 0 else CountFor(ds, n - 1, s) + if ds[n - 1].subscriber == s then 1 else 0
  }

  /** Storing rows retains those of a suspended subscriber and no others. So a batch that is
      refused before retention is applied can leave more than the bound, by exactly this much. */
  lemma {:induction false} InsertionsRetain(h: seq<Op>, t: Table, ds: seq<Delivery>, n: nat, now: int, t2: Table,
                                            s: string)
    requires n <= |ds| && Reached(h, t) && Reached(h + Insertions(ds, n, now), t2)
    ensures |RetainedRows(t2, s)| == |RetainedRows(t, s)| + if t.MetaOf(s).suspended then CountFor(ds, n, s) else 0
    ensures t2.subs == t.subs
  {
    if n == 0 {
      assert h + Insertions(ds, n, now) == h;
      ReachesOneTable(h, t, t2);
    } else {
      var d := ds[n - 1];
      assert h + Insertions(ds, n, now) == h + Insertions(ds, n - 1, now) + [Insert(d, now)];
      var before := ReachedBefore(h + Insertions(ds, n - 1, now), Insert(d, now), t2);
      InsertionsRetain(h, t, ds, n - 1, now, before, s);
      InsertRetains(before, d, now, s);
    }
  }

  lemma InsertRetains(t: Table, d: Delivery, now: int, s: string)
    requires d.id !in t.rows
    ensures |RetainedRows(Apply(t, Insert(d, now)), s)| == |RetainedRows(t, s)| +
      if d.subscriber == s && t.MetaOf(s).suspended then 1 else 0
    ensures Apply(t, Insert(d, now)).subs == t.subs
  {
    RetainedAfterInsert(t, d, now, s);
  }

  lemma RetainedAfterInsert(t: Table, d: Delivery, now: int, s: string)
    requires d.id !in t.rows
    ensures RetainedRows(Apply(t, Insert(d, now)), s) ==
      RetainedRows(t, s) + if d.subscriber == s && t.MetaOf(s).suspended then {d.id} else {}
  {
  }

  /** Retention leaves at most `maxCount` rows of the subscriber, none beyond the age bound. */
  lemma TrimWithinBound(h: seq<Op>, t: Table, s: string, limits: Limits, now: int)
    requires Reached(h, t)
    ensures |RetainedRows(Trimmed(t, s, limits, now), s)| <= limits.maxCount
    ensures forall id :: id in RetainedRows(Trimmed(t, s, limits, now), s) ==> !Aged(t.rows[id], limits, now)
  {
    TrimKeepsNewest(h, t, s, limits, now);
  }

  /** After a successful enqueue every suspended subscriber of the batch is within the bound, in
      whatever order retention went through them. */
  lemma {:induction false} TrimsWithinBound(h: seq<Op>, t: Table, order: seq<string>, limits: Limits, now: int,
                                            t2: Table, s: string)
    requires Reached(h, t) && Reached(h + Trims(order, limits, now), t2) && s in order
    ensures |RetainedRows(t2, s)| <= limits.maxCount
    decreases |order|
  {
    var init, last := order[..|order| - 1], order[|order| - 1];
    assert order == init + [last];
    TrimsOneMore(init, last, limits, now);
    assert h + Trims(order, limits, now) == h + Trims(init, limits, now) + [Trim(last, limits, now)];
    var before := ReachedBefore(h + Trims(init, limits, now), Trim(last, limits, now), t2);
    if s == last {
      TrimWithinBound(h + Trims(init, limits, now), before, s, limits, now);
    } else {
      TrimsWithinBound(h, t, init, limits, now, before, s);
      assert RetainedRows(t2, s) <= RetainedRows(before, s);
      SubsetSize(RetainedRows(t2, s), RetainedRows(before, s));
    }
  }

  // ---- Why the clock must not go back ----

  /** Retention of `s` drops from below, whatever the bounds and the time. */
  ghost predicate DropsFromBelow(t: Table, s: string) {
    forall limits, now, a, b :: !DroppedOutOfOrder(t, s, limits, now, a, b)
  }

  ghost predicate DroppedOutOfOrder(t: Table, s: string, limits: Limits, now: int, a: string, b: string) {
    && a in RetainedRows(t, s) && b in RetainedRows(t, s) && t.rows[a].sequence < t.rows[b].sequence
    && a !in DropsOf(t.rows, s, limits, now) && b in DropsOf(t.rows, s, limits, now)
  }

  /** Later retained rows of `s` were not created earlier. */
  ghost predicate AgesAscend(t: Table, s: string) {
    forall a, b :: a in RetainedRows(t, s) && b in RetainedRows(t, s) && t.rows[a].sequence < t.rows[b].sequence
      ==> t.rows[a].createdAt <= t.rows[b].createdAt
  }

  /** Retention leaves no hole in the line, at any time and under any bounds, exactly when creation
      times follow the sequences; this is what the assumption on the clock of an enqueue is for. */
  lemma AgeOrderExactly(t: Table, s: string)
    ensures DropsFromBelow(t, s) <==> AgesAscend(t, s)
  {
    if AgesAscend(t, s) {
      forall limits, now, a, b | DroppedOutOfOrder(t, s, limits, now, a, b)
        ensures false
      {
        LowerDropsToo(t, s, limits, now, a, b);
      }
    } else {
      var a, b :| a in RetainedRows(t, s) && b in RetainedRows(t, s)
        && t.rows[a].sequence < t.rows[b].sequence && t.rows[a].createdAt > t.rows[b].createdAt;
      YoungerBelow(t, s, a, b);
    }
  }

  lemma LowerDropsToo(t: Table, s: string, limits: Limits, now: int, a: string, b: string)
    requires AgesAscend(t, s) && a in RetainedRows(t, s) && b in DropsOf(t.rows, s, limits, now)
    requires t.rows[a].sequence < t.rows[b].sequence
    ensures a in DropsOf(t.rows, s, limits, now)
  {
    if !Aged(t.rows[b], limits, now) {
      SubsetSize(Newer(t.rows, s, t.rows[b].sequence, limits, now), Newer(t.rows, s, t.rows[a].sequence, limits, now));
    }
  }

  lemma YoungerBelow(t: Table, s: string, a: string, b: string)
    requires a in RetainedRows(t, s) && b in RetainedRows(t, s)
    requires t.rows[a].sequence < t.rows[b].sequence && t.rows[a].createdAt > t.rows[b].createdAt
    ensures DroppedOutOfOrder(t, s, Limits(|t.rows| + 1, 0), t.rows[a].createdAt, a, b)
  {
    var limits, now := Limits(|t.rows| + 1, 0), t.rows[a].createdAt;
    SubsetSize(Newer(t.rows, s, t.rows[a].sequence, limits, now), t.rows.Keys);
    assert |t.rows.Keys| == |t.rows|;
  }
}
