/** The statements of the SQL store (store/postgres/postgres.go) on a transaction's view of the
    delivery tables: what each transaction reads and writes before it commits. */
module PostgresQueries {
  import opened Deliveries
  import opened StoreSpec
  import opened Refinement
  import opened StoreRuns
  import opened Sorting
  import opened Retention
  import opened Batches

  // ---- SELECT ... ORDER BY sequence ----

  /** The rows that are wanted, each once, by ascending sequence. */
  ghost predicate Selected(cs: seq<Candidate>, rows: map<string, Delivery>, wanted: Delivery -> bool) {
    && NoRepeats(cs) && Sorted(cs, BySequence)
    && forall c :: c in cs <==> c.id in rows && wanted(rows[c.id]) && c == CandidateOf(c.id, rows[c.id])
  }

  method SelectBySequence(rows: map<string, Delivery>, wanted: Delivery -> bool) returns (cs: seq<Candidate>)
    ensures Selected(cs, rows, wanted)
  {
    var found: seq<Candidate> := [];
    var todo := rows.Keys;
    while todo != {}
      invariant todo <= rows.Keys && NoRepeats(found)
      invariant forall c :: c in found <==>
        c.id in rows && c.id !in todo && wanted(rows[c.id]) && c == CandidateOf(c.id, rows[c.id])
      decreases todo
    {
      var id :| id in todo;
      todo := todo - {id};
      if wanted(rows[id]) {
        found := found + [CandidateOf(id, rows[id])];
      }
    }
    cs := SortBy(found, BySequence);
  }

  // ---- Retention ----

  /** Only a suspended subscriber has retained rows; its subscriber row exists, so recording a
      gap never inserts one. */
  lemma RetainedIsSuspended(h: seq<Op>, t: Table, id: string)
    requires Reached(h, t) && id in t.rows && t.rows[id].status == Retained
    ensures t.rows[id].subscriber in t.subs && t.MetaOf(t.rows[id].subscriber).suspended
  {
    var q := ReachedMirrors(h, t, t.rows[id].subscriber);
    assert Fits(id, t.rows[id], q);
  }

  /** Deletes a retained row and records the gap. */
  function DropRetained(t: Table, s: string, id: string): Table {
    var m := if s in t.subs then Meta(t.subs[s].suspended, true, t.subs[s].dropped + 1) else Meta(true, true, 1);
    t.(rows := t.rows - {id}, subs := t.subs[s := m])
  }

  /** The view `t2` of a transaction that has dropped the rows `gone` of `t`. */
  ghost predicate HasShed(t2: Table, t: Table, s: string, gone: set<string>) {
    t2.seqs == t.seqs && Shed(t2.rows, t2.subs, t, s, gone)
  }

  lemma DropSheds(t2: Table, t: Table, s: string, gone: set<string>, id: string)
    requires HasShed(t2, t, s, gone) && id in t.rows && id !in gone && s in t.subs
    ensures HasShed(DropRetained(t2, s, id), t, s, gone + {id})
  {
  }

  /** What the first `n` listed rows add to those already gone. */
  ghost function With(gone: set<string>, cs: seq<Candidate>, n: nat): set<string>
    requires n <= |cs|
  {
    gone + CandidateIds(cs[..n])
  }

  lemma WithOneMore(gone: set<string>, cs: seq<Candidate>, n: nat)
    requires n < |cs|
    ensures With(gone, cs, 0) == gone
    ensures With(gone, cs, n + 1) == With(gone, cs, n) + {cs[n].id}
  {
  }

  /** Drops the aged rows, oldest first. */
  method DropAged(t: Table, s: string, limits: Limits, now: int, ghost h: seq<Op>) returns (t2: Table)
    requires Reached(h, t)
    ensures HasShed(t2, t, s, AgedOf(t.rows, s, limits, now))
  {
    var isAged := (d: Delivery) => d.subscriber == s && d.status == Retained && Aged(d, limits, now);
    var aged := SelectBySequence(t.rows, isAged);
    t2 := t;
    assert CandidateIds(aged[..0]) == {};
    assert HasShed(t2, t, s, With({}, aged, 0));
    for i := 0 to |aged|
      invariant HasShed(t2, t, s, With({}, aged, i))
    {
      assert aged[i] in aged;
      RetainedIsSuspended(h, t, aged[i].id);
      NotAmongEarlier(aged, t.rows, isAged, i);
      WithOneMore({}, aged, i);
      DropSheds(t2, t, s, With({}, aged, i), aged[i].id);
      t2 := DropRetained(t2, s, aged[i].id);
    }
    assert aged[..|aged|] == aged;
    AgedAreListed(aged, t.rows, isAged, s, limits, now);
  }

  lemma NotAmongEarlier(cs: seq<Candidate>, rows: map<string, Delivery>, wanted: Delivery -> bool, n: nat)
    requires Selected(cs, rows, wanted) && n < |cs|
    ensures cs[n].id !in With({}, cs, n)
  {
  }

  lemma AgedAreListed(aged: seq<Candidate>, rows: map<string, Delivery>, isAged: Delivery -> bool, s: string,
                      limits: Limits, now: int)
    requires Selected(aged, rows, isAged)
    requires forall d :: isAged(d) <==> d.subscriber == s && d.status == Retained && Aged(d, limits, now)
    ensures CandidateIds(aged) == AgedOf(rows, s, limits, now)
  {
    forall id | id in AgedOf(rows, s, limits, now)
      ensures id in CandidateIds(aged)
    {
      assert CandidateOf(id, rows[id]) in aged;
    }
  }

  /** After the aged rows have gone, the retained rows that are left are the keepable ones. */
  lemma LeftIsKeepable(retained: seq<Candidate>, t2: Table, t: Table, isRetained: Delivery -> bool, s: string,
                       limits: Limits, now: int)
    requires HasShed(t2, t, s, AgedOf(t.rows, s, limits, now)) && Distinct(t.rows, s)
    requires Selected(retained, t2.rows, isRetained)
    requires forall d :: isRetained(d) <==> d.subscriber == s && d.status == Retained
    ensures ListsKeepable(retained, t.rows, s, limits, now)
  {
    forall id | id in t.rows && Keepable(t.rows[id], s, limits, now)
      ensures CandidateOf(id, t.rows[id]) in retained
    {
      assert id in t2.rows && t2.rows[id] == t.rows[id];
    }
    forall c | c in retained
      ensures c.id in t.rows && Keepable(t.rows[c.id], s, limits, now) && c == CandidateOf(c.id, t.rows[c.id])
    {
      assert t2.rows[c.id] == t.rows[c.id] && c.id !in AgedOf(t.rows, s, limits, now);
    }
    SortedListsKeepable(retained, retained, t.rows, s, limits, now);
  }

  /** Retention inside a transaction: first by age, then by count, keeping the newest. */
  method ApplyRetention(t: Table, s: string, limits: Limits, now: int, ghost h: seq<Op>) returns (t2: Table)
    requires Reached(h, t)
    ensures t2 == Trimmed(t, s, limits, now)
  {
    ghost var q := ReachedMirrors(h, t, s);
    ghost var aged := AgedOf(t.rows, s, limits, now);
    t2 := DropAged(t, s, limits, now, h);
    var isRetained := (d: Delivery) => d.subscriber == s && d.status == Retained;
    var retained := SelectBySequence(t2.rows, isRetained);
    LeftIsKeepable(retained, t2, t, isRetained, s, limits, now);
    t2 := DropExcess(t2, retained, s, limits, now, t, h);
  }

  method DropExcess(start: Table, sorted: seq<Candidate>, s: string, limits: Limits, now: int, ghost t: Table,
                    ghost h: seq<Op>)
    returns (t2: Table)
    requires Reached(h, t) && HasShed(start, t, s, AgedOf(t.rows, s, limits, now))
    requires ListsKeepable(sorted, t.rows, s, limits, now)
    ensures t2 == Trimmed(t, s, limits, now)
  {
    ghost var aged := AgedOf(t.rows, s, limits, now);
    ghost var k := 0;
    var retained := sorted;
    t2 := start;
    assert CandidateIds(sorted[..0]) == {};
    assert With(aged, sorted, 0) == aged;
    while |retained| > limits.maxCount
      invariant k <= |sorted| && retained == sorted[k..]
      invariant k > 0 ==> |retained| >= limits.maxCount
      invariant HasShed(t2, t, s, With(aged, sorted, k))
      decreases |retained|
    {
      var d := retained[0];
      assert d == sorted[k] && d in sorted;
      NotYetGone(sorted, k, t.rows, s, limits, now);
      RetainedIsSuspended(h, t, d.id);
      WithOneMore(aged, sorted, k);
      DropSheds(t2, t, s, With(aged, sorted, k), d.id);
      retained, k := retained[1..], k + 1;
      t2 := DropRetained(t2, s, d.id);
    }
    LoopDropsExactly(sorted, k, t.rows, s, limits, now);
    ShedAllIsTrimmed(t2.rows, t2.subs, t, s, limits, now);
  }

  // ---- Enqueue ----

  /** The UNIQUE (subscriber_id, sequence) constraint would refuse the row. */
  predicate SequenceTaken(rows: map<string, Delivery>, s: string, n: int) {
    exists id :: id in rows && rows[id].subscriber == s && rows[id].sequence == n
  }

  /** A freshly allocated sequence is never taken. */
  lemma FreshSequence(h: seq<Op>, t: Table, s: string)
    requires Reached(h, t)
    ensures !SequenceTaken(t.rows, s, t.Last(s) + 1)
  {
    var q := ReachedMirrors(h, t, s);
    forall id | id in t.rows && t.rows[id].subscriber == s
      ensures t.rows[id].sequence != t.Last(s) + 1
    {
      assert Fits(id, t.rows[id], q);
    }
  }

  /** One row of the batch: allocate its sequence, look up its subscriber, insert it. */
  method EnqueueRow(t: Table, d: Delivery, now: int, ghost h: seq<Op>) returns (err: Option<Error>, t2: Table,
                    suspended: bool)
    requires Reached(h, t) && forall id :: id in t.rows ==> t.rows[id].createdAt <= now
    ensures err == RowFault(t.rows.Keys, d)
    ensures err == None ==> t2 == Apply(t, Insert(d, now)) && suspended == t.MetaOf(d.subscriber).suspended
    ensures err == None ==> Reached(h + [Insert(d, now)], t2)
    ensures err == None ==> Enqueued(t, t2.rows, t2.seqs, d, now) && t2.subs == t.subs
  {
    t2, suspended := t, false;
    if d.id == "" {
      return Some(MissingID), t2, suspended;
    }
    if d.subscriber == "" {
      return Some(MissingSubscriber), t2, suspended;
    }
    FreshSequence(h, t, d.subscriber);
    var n := if d.subscriber in t.seqs then t.seqs[d.subscriber] + 1 else 1;
    t2 := t2.(seqs := t2.seqs[d.subscriber := n]);
    suspended := d.subscriber in t.subs && t.subs[d.subscriber].suspended;
    var status := if suspended then Retained else Pending;
    if d.id in t.rows || SequenceTaken(t.rows, d.subscriber, n) {
      return Some(DuplicateID), t2, suspended;
    }
    var row := d.(sequence := n, status := status, attempt := 0, nextAttempt := At(now), lastError := "",
    owner := "", generation := 0, claimedAt := Never, createdAt := now);
    t2 := t2.(rows := t2.rows[d.id := row]);
    ReachedNext(h, t, Insert(d, now));
    err := None;
  }

  method EnqueueRows(t: Table, ds: seq<Delivery>, now: int, ghost h: seq<Op>)
    returns (err: Option<Error>, t2: Table, touched: set<string>, stored: nat)
    requires Reached(h, t) && forall id :: id in t.rows ==> t.rows[id].createdAt <= now
    ensures Accepted(t.rows.Keys, ds, stored)
    ensures if stored == |ds| then err == None else err.Some? && err == Fault(t.rows.Keys, ds, stored)
    ensures touched == SuspendedAmong(t, ds, stored)
    ensures err == None ==> Reached(h + Insertions(ds, stored, now), t2)
  {
    t2, touched, stored := t, {}, 0;
    ghost var h2 := h;
    for i := 0 to |ds|
      invariant stored == i && Reached(h2, t2) && t2.subs == t.subs
      invariant forall id :: id in t2.rows ==> t2.rows[id].createdAt <= now
      invariant Storing(t, h, ds, i, now, t2.rows.Keys, touched, h2)
    {
      StoringOneMore(t, h, ds, i, now, t2.rows.Keys, touched, h2);
      var suspended: bool;
      var t3: Table;
      err, t3, suspended := EnqueueRow(t2, ds[i], now, h2);
      if err != None {
        return;
      }
      if suspended {
        touched := touched + {ds[i].subscriber};
      }
      t2, h2 := t3, h2 + [Insert(ds[i], now)];
      stored := stored + 1;
    }
    err := None;
  }

  method RetainEach(t: Table, touched: set<string>, limits: Limits, now: int, ghost h: seq<Op>)
    returns (t2: Table, order: seq<string>)
    requires Reached(h, t)
    ensures Lists(order, touched) && Reached(h + Trims(order, limits, now), t2)
  {
    t2, order := t, [];
    assert h + Trims([], limits, now) == h;
    var todo := touched;
    while todo != {}
      invariant todo <= touched && Lists(order, touched - todo)
      invariant Reached(h + Trims(order, limits, now), t2)
      decreases todo
    {
      var s :| s in todo;
      todo := todo - {s};
      ghost var h2 := h + Trims(order, limits, now);
      ReachedNext(h2, t2, Trim(s, limits, now));
      t2 := ApplyRetention(t2, s, limits, now, h2);
      TrimsOneMore(order, s, limits, now);
      order := order + [s];
      assert h + Trims(order, limits, now) == h2 + [Trim(s, limits, now)];
    }
  }
}
