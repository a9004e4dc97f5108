/** Which resets keep the wire in order: those that take no held row, and no others. For a reset
    that does take one, a continuation without further resets is built that sends the wire back. */
module FleetReset {
  import opened Deliveries
  import opened StoreSpec
  import opened Refinement
  import opened StoreRuns
  import opened Ownership
  import opened OwnershipRuns
  import opened Fleet
  import opened FleetRuns
  import opened FleetPaths
  import opened FleetPosts
  import opened FleetWork
  import opened FleetClaims
  import opened FleetDrains

  /** Continuations under fresh ids only. */
  const NEW_IDS := Care(false, true, None)

  // ---- Something new ----

  lemma FreshId(ids: set<string>) returns (id: string)
    ensures id !in ids && id != ""
  {
    var lengths := set x | x in ids :: |x|;
    var n := Above(lengths);
    id := seq(n + 1, _ => 'a');
    assert id in ids ==> |id| in lengths;
  }

  // ---- What continuations need of a state ----

  /** None of the subscriber's rows is in flight. */
  ghost predicate NoneOut(t: Table, sub: string) {
    forall id :: id in t.rows && t.rows[id].subscriber == sub ==> t.rows[id].status != InFlight
  }

  ghost predicate Ready(f: Fleet, sub: string) {
    && Reached(f.db.history, f.db.table) && GoodOwners(f.db.owners) && ClaimsOpen(f.db)
    && sub != "" && NoneOut(f.db.table, sub)
  }

  /** A worker holds the row with sequence `n` of `sub` and has yet to post it. */
  ghost predicate Pends(f: Fleet, w: nat, i: nat, sub: string, n: int) {
    && w in f.workers && i < |f.workers[w].batch|
    && f.workers[w].batch[i].subscriber == sub && f.workers[w].batch[i].sequence == n
    && (i > 0 || f.workers[w].outcome == None)
  }

  lemma OpenKept(db: Db, op: Op)
    requires ClaimsOpen(db) && Legal(db.table, op)
    requires op.Insert? ==> db.owners == map[] || op.d.partition in db.owners
    ensures ClaimsOpen(Changed(db, op))
  {
    forall id | id in Apply(db.table, op).rows && Waiting(Apply(db.table, op).rows[id]) && !op.Insert?
      ensures id in db.table.rows && Waiting(db.table.rows[id])
        && Apply(db.table, op).rows[id].partition == db.table.rows[id].partition
    {
      WaitingComesFrom(db.table, op, id);
    }
  }

  lemma ReadyAfter(f: Fleet, f2: Fleet, op: Op, sub: string)
    requires Ready(f, sub) && Legal(f.db.table, op) && f2.db == Changed(f.db, op) && NoneOut(f2.db.table, sub)
    requires op.Insert? ==> f.db.owners == map[] || op.d.partition in f.db.owners
    ensures Ready(f2, sub)
  {
    ReachedNext(f.db.history, f.db.table, op);
    OpenKept(f.db, op);
  }

  // ---- Reopening and enqueueing ----

  /** Resumes the subscriber if it is suspended. */
  lemma OpenUp(f0: Fleet, f: Fleet, sub: string, maxAttempts: int) returns (g: Fleet)
    requires Onward(f0, f, maxAttempts, NEW_IDS) && Ready(f, sub)
    ensures Onward(f0, g, maxAttempts, NEW_IDS) && Ready(g, sub) && !g.db.table.MetaOf(sub).suspended
    ensures g.workers == f.workers && g.wire == f.wire
    ensures g.db.table.Last(sub) == f.db.table.Last(sub) && Frontier(f.db.table, sub) <= Frontier(g.db.table, sub)
  {
    g := f;
    if f.db.table.MetaOf(sub).suspended {
      var op := Reopen(sub, 0);
      g := f.(db := Changed(f.db, op));
      OnwardNext(f0, f, External(Change(op)), maxAttempts, NEW_IDS);
      ReadyAfter(f, g, op, sub);
      FrontierRises(f.db.history, f.db.table, op, sub);
    }
  }

  /** Enqueues one more row. */
  lemma AddRow(f0: Fleet, f: Fleet, sub: string, maxAttempts: int) returns (g: Fleet)
    requires Onward(f0, f, maxAttempts, NEW_IDS) && Ready(f, sub) && !f.db.table.MetaOf(sub).suspended
    ensures Onward(f0, g, maxAttempts, NEW_IDS) && Ready(g, sub) && !g.db.table.MetaOf(sub).suspended
    ensures g.workers == f.workers && g.wire == f.wire && g.db.owners == f.db.owners
    ensures g.db.table.Last(sub) == f.db.table.Last(sub) + 1 && Frontier(g.db.table, sub) == Frontier(f.db.table, sub)
  {
    var op := NewRow(f, sub);
    g := f.(db := Changed(f.db, op));
    OnwardNext(f0, f, External(Change(op)), maxAttempts, NEW_IDS);
    OneMoreWaits(f.db.table, op, sub);
    ReadyAfter(f, g, op, sub);
  }

  /** A row that can be enqueued now, under an id that nobody knows. */
  lemma NewRow(f: Fleet, sub: string) returns (op: Op)
    requires sub != ""
    ensures op.Insert? && Legal(f.db.table, op) && op.d.subscriber == sub && !Held(f, op.d.id)
    ensures f.db.owners == map[] || op.d.partition in f.db.owners
  {
    var rows := f.db.table.rows;
    var id := FreshId(rows.Keys + HeldIds(f));
    NotHeld(f, id);
    var times := set x | x in rows :: rows[x].createdAt;
    var now := Above(times);
    assert forall x :: x in rows ==> rows[x].createdAt in times;
    var p := 0;
    if f.db.owners != map[] {
      p := Pick(f.db.owners.Keys);
    }
    op := Insert(Delivery(id, sub, p, "", 0, Pending, 0, Never, "", "", 0, Never, 0), now);
  }

  function HeldIds(f: Fleet): set<string> {
    set w, i | w in f.workers && 0 <= i < |f.workers[w].batch| :: f.workers[w].batch[i].id
  }

  lemma NotHeld(f: Fleet, id: string)
    requires id !in HeldIds(f)
    ensures !Held(f, id)
  {
  }

  lemma WaitsAfterInsert(t: Table, op: Op, sub: string, id: string)
    requires op.Insert? && Legal(t, op) && op.d.subscriber == sub
    ensures id in WaitingRows(Apply(t, op), sub) <==> id in WaitingRows(t, sub) || id == op.d.id
  {
  }

  lemma OneMoreWaits(t: Table, op: Op, sub: string)
    requires op.Insert? && Legal(t, op) && op.d.subscriber == sub
    ensures Frontier(Apply(t, op), sub) == Frontier(t, sub)
  {
    var before, after := WaitingRows(t, sub), WaitingRows(Apply(t, op), sub);
    forall id
      ensures id in after <==> id in before || id == op.d.id
    {
      WaitsAfterInsert(t, op, sub, id);
    }
    assert after == before + {op.d.id};
  }

  // ---- Claiming the head of the line ----

  lemma ClaimedUnder(t: Table, op: Op, id: string)
    requires op.Claim? && op.picks.Keys == {id} && Legal(t, op)
    ensures id in t.rows && id in Apply(t, op).rows
    ensures var d, d2 := t.rows[id], Apply(t, op).rows[id];
      && d2.status == InFlight && d2.id == d.id && d2.owner == op.owner && d2.generation == op.picks[id]
      && SameRow(d2, d)
  {
    assert id in op.picks;
  }

  lemma HeadOf(f: Fleet, sub: string) returns (id: string)
    requires Ready(f, sub) && !f.db.table.MetaOf(sub).suspended && Frontier(f.db.table, sub) <= f.db.table.Last(sub)
    ensures IsFirst(f.db.table, sub, id) && f.db.table.rows[id].status == Pending
    ensures forall now :: Due(f.db.table.rows[id], now) ==> Claimable(f.db.table, id, now)
  {
    var t := f.db.table;
    assert WaitingRows(t, sub) != {};
    var some :| some in WaitingRows(t, sub);
    Modes(f.db.history, t, sub, some);
    assert some in UnfinishedRows(t, sub);
    id := FirstRow(f.db.history, t, sub);
  }

  /** A new worker gets the head of the line into its hands. */
  lemma ClaimHead(f0: Fleet, f: Fleet, sub: string, maxAttempts: int) returns (g: Fleet, v: nat)
    requires Onward(f0, f, maxAttempts, NEW_IDS) && Ready(f, sub) && !f.db.table.MetaOf(sub).suspended
    requires Frontier(f.db.table, sub) <= f.db.table.Last(sub)
    ensures Onward(f0, g, maxAttempts, NEW_IDS) && Reached(g.db.history, g.db.table)
    ensures GoodOwners(g.db.owners) && ClaimsOpen(g.db) && !g.db.table.MetaOf(sub).suspended
    ensures v !in f.workers && v in g.workers && g.workers == f.workers[v := g.workers[v]] && g.wire == f.wire
    ensures |g.workers[v].batch| == 1 && g.workers[v].outcome == None
    ensures var d := g.workers[v].batch[0];
      && Live(g.db.table, d, g.workers[v].token)
      && d.subscriber == sub && d.sequence == Frontier(f.db.table, sub) == Frontier(g.db.table, sub)
    ensures g.db.table.Last(sub) == f.db.table.Last(sub) && (f.db.owners == map[] ==> g.db.owners == map[])
  {
    var id := HeadOf(f, sub);
    var f1, token, generation := FindGrant(f0, f, f.db.table.rows[id].partition, maxAttempts, NEW_IDS);
    OpenStays(f, f1);
    var op;
    g, v, op := ClaimRow(f0, f1, id, token, generation, maxAttempts, NEW_IDS);
    ReachedNext(f1.db.history, f1.db.table, op);
    OpenKept(f1.db, op);
    SameWaitAfterClaim(f1.db.table, op, sub);
    ClaimedUnder(f1.db.table, op, id);
    RowKeepsId(f.db.history, f.db.table, id);
  }

  lemma RowKeepsId(h: seq<Op>, t: Table, id: string)
    requires Reached(h, t) && id in t.rows
    ensures t.rows[id].id == id
  {
    var q := ReachedMirrors(h, t, t.rows[id].subscriber);
    assert Fits(id, t.rows[id], q);
  }

  lemma SameWaitAfterClaim(t: Table, op: Op, sub: string)
    requires op.Claim? && Legal(t, op)
    ensures Frontier(Apply(t, op), sub) == Frontier(t, sub)
  {
    assert WaitingRows(Apply(t, op), sub) == WaitingRows(t, sub);
  }

  // ---- Delivering ----

  /** The worker posts its one row, successfully. */
  lemma PostOne(f0: Fleet, f: Fleet, v: nat, maxAttempts: int) returns (g: Fleet)
    requires Onward(f0, f, maxAttempts, NEW_IDS) && v in f.workers && |f.workers[v].batch| == 1
    requires f.workers[v].outcome == None
    ensures Onward(f0, g, maxAttempts, NEW_IDS) && g.db == f.db
    ensures g.workers == f.workers[v := f.workers[v].(outcome := Some(Success))]
    ensures var d := f.workers[v].batch[0]; g.wire == f.wire + [Post(d.subscriber, d.sequence, true)]
  {
    OnwardNext(f0, f, Send(v, Success), maxAttempts, NEW_IDS);
    g := After(f, Send(v, Success), maxAttempts);
  }

  /** The worker posts its one row and marks it delivered: the front moves on, and nothing is out. */
  lemma DeliversHead(f0: Fleet, f: Fleet, v: nat, sub: string, maxAttempts: int) returns (g: Fleet)
    requires Onward(f0, f, maxAttempts, NEW_IDS) && Reached(f.db.history, f.db.table) && GoodOwners(f.db.owners)
    requires ClaimsOpen(f.db)
    requires v in f.workers && |f.workers[v].batch| == 1 && f.workers[v].outcome == None && sub != ""
    requires Live(f.db.table, f.workers[v].batch[0], f.workers[v].token) && f.workers[v].batch[0].subscriber == sub
    requires !f.db.table.MetaOf(sub).suspended
    ensures Onward(f0, g, maxAttempts, NEW_IDS) && Ready(g, sub) && !g.db.table.MetaOf(sub).suspended
    ensures v in g.workers && g.workers == f.workers[v := g.workers[v]] && f.wire <= g.wire
    ensures Frontier(g.db.table, sub) == Frontier(f.db.table, sub) + 1 && g.db.table.Last(sub) == f.db.table.Last(sub)
  {
    var k, d := f.workers[v], f.workers[v].batch[0];
    var f1 := PostOne(f0, f, v, maxAttempts);
    var step, op := Settle(v, Never, "", Limits(1, 1), 0), Finish(d.id, k.token, d.generation, Delivered, "");
    assert SettleOps(f1.db.table, k.token, d, Success, maxAttempts, Never, "", Limits(1, 1), 0) == [op];
    AllOfOne(f1.db, op);
    OnwardNext(f0, f1, step, maxAttempts, NEW_IDS);
    g := After(f1, step, maxAttempts);
    assert g.db == Changed(f.db, op);
    assert f1.workers[v := g.workers[v]] == f.workers[v := g.workers[v]];
    ReachedNext(f.db.history, f.db.table, op);
    OpenKept(f.db, op);
    var q := ReachedMirrors(f.db.history, f.db.table, sub);
    FrontierStep(f.db.table, op, sub, q);
    InFlightAtFrontier(f.db.history, f.db.table, d.id);
    MarkFrees(f.db.table, op);
  }

  /** A worker posts, and loses the marks of, everything up to its `i`th row. */
  lemma {:induction false} PostsUpTo(f0: Fleet, f: Fleet, w: nat, i: nat, sub: string, n: int, maxAttempts: int)
    returns (g: Fleet)
    requires Onward(f0, f, maxAttempts, NEW_IDS) && Pends(f, w, i, sub, n)
    ensures Onward(f0, g, maxAttempts, NEW_IDS) && |g.wire| > |f.wire| && f.wire <= g.wire
    ensures g.wire[|g.wire| - 1].subscriber == sub && g.wire[|g.wire| - 1].sequence == n
    decreases i
  {
    if i == 0 {
      OnwardNext(f0, f, Send(w, Success), maxAttempts, NEW_IDS);
      g := After(f, Send(w, Success), maxAttempts);
    } else {
      var f1 := f;
      if f.workers[w].outcome == None {
        OnwardNext(f0, f, Send(w, Success), maxAttempts, NEW_IDS);
        f1 := After(f, Send(w, Success), maxAttempts);
      }
      OnwardNext(f0, f1, Lose(w), maxAttempts, NEW_IDS);
      var f2 := After(f1, Lose(w), maxAttempts);
      assert f2.workers[w].batch[i - 1] == f.workers[w].batch[i];
      g := PostsUpTo(f0, f2, w, i - 1, sub, n, maxAttempts);
    }
  }

  lemma NotOrdered(wire: seq<Post>, k: nat, sub: string, n: int)
    requires k < |wire| - 1 && wire[k].subscriber == sub && wire[k].sequence > n
    requires wire[|wire| - 1].subscriber == sub && wire[|wire| - 1].sequence == n
    ensures !WireOrdered(wire)
  {
  }

  // ---- Overtaking ----

  /** While a worker has yet to post a row that it no longer owns, others can finish the row,
      and post a later one, before the worker posts it. */
  lemma Overtakes(f0: Fleet, f: Fleet, w: nat, i: nat, sub: string, n: int, maxAttempts: int) returns (g: Fleet)
    requires Onward(f0, f, maxAttempts, NEW_IDS) && Ready(f, sub) && Pends(f, w, i, sub, n)
    requires n <= Frontier(f.db.table, sub) && n <= f.db.table.Last(sub)
    ensures Onward(f0, g, maxAttempts, NEW_IDS) && !WireOrdered(g.wire)
  {
    var f1 := OpenUp(f0, f, sub, maxAttempts);
    var f2 := AddRow(f0, f1, sub, maxAttempts);
    var f3 := PassesRow(f0, f2, w, i, sub, n, maxAttempts);
    g := PostsLater(f0, f3, w, i, sub, n, maxAttempts);
  }

  /** Once the front is past the row, a later one is posted before it. */
  lemma PostsLater(f0: Fleet, f: Fleet, w: nat, i: nat, sub: string, n: int, maxAttempts: int) returns (g: Fleet)
    requires Onward(f0, f, maxAttempts, NEW_IDS) && Ready(f, sub) && Pends(f, w, i, sub, n)
    requires !f.db.table.MetaOf(sub).suspended && n < Frontier(f.db.table, sub) <= f.db.table.Last(sub)
    ensures Onward(f0, g, maxAttempts, NEW_IDS) && !WireOrdered(g.wire)
  {
    var f1, v := ClaimHead(f0, f, sub, maxAttempts);
    var f2 := PostOne(f0, f1, v, maxAttempts);
    g := PostsUpTo(f0, f2, w, i, sub, n, maxAttempts);
    assert f2.wire[|f1.wire|] == g.wire[|f1.wire|];
    NotOrdered(g.wire, |f1.wire|, sub, n);
  }

  /** Moves the front past the row, with one more row left in line. */
  lemma PassesRow(f0: Fleet, f: Fleet, w: nat, i: nat, sub: string, n: int, maxAttempts: int) returns (g: Fleet)
    requires Onward(f0, f, maxAttempts, NEW_IDS) && Ready(f, sub) && Pends(f, w, i, sub, n)
    requires !f.db.table.MetaOf(sub).suspended
    requires n <= Frontier(f.db.table, sub) <= f.db.table.Last(sub) && n < f.db.table.Last(sub)
    ensures Onward(f0, g, maxAttempts, NEW_IDS) && Ready(g, sub) && Pends(g, w, i, sub, n)
    ensures !g.db.table.MetaOf(sub).suspended && n < Frontier(g.db.table, sub) <= g.db.table.Last(sub)
  {
    g := f;
    if Frontier(f.db.table, sub) == n {
      var f1, v := ClaimHead(f0, f, sub, maxAttempts);
      g := DeliversHead(f0, f1, v, sub, maxAttempts);
    }
  }

  // ---- A reset that takes a held row ----

  predicate HasNames(d: Delivery) {
    d.subscriber != "" && (d.status == InFlight ==> d.owner != "")
  }

  lemma NamesKept(t: Table, op: Op, id: string)
    requires Legal(t, op) && id in Apply(t, op).rows && (id in t.rows ==> HasNames(t.rows[id]))
    ensures HasNames(Apply(t, op).rows[id])
  {
  }

  lemma {:induction false} NamedAlong(h: seq<Op>, ts: seq<Table>, n: nat, id: string)
    requires Passes(h, ts) && n <= |h| && id in ts[n].rows
    ensures HasNames(ts[n].rows[id])
  {
    if n > 0 {
      assert Legal(ts[n - 1], h[n - 1]);
      if id in ts[n - 1].rows {
        NamedAlong(h, ts, n - 1, id);
      }
      NamesKept(ts[n - 1], h[n - 1], id);
    }
  }

  lemma Named(h: seq<Op>, t: Table, id: string)
    requires Reached(h, t) && id in t.rows
    ensures HasNames(t.rows[id])
  {
    var ts :| Passes(h, ts) && ts[|h|] == t;
    NamedAlong(h, ts, |h|, id);
  }

  /** A claim of the row can be made again with the same token and generation: the database knows
      no owners, or the claim still agrees with them. */
  ghost predicate CanReclaim(db: Db, d: Delivery) {
    db.owners == map[] || Agrees(db.owners, d)
  }

  /** What is reset is pending, in the same place in line, and held by whoever held it. */
  lemma ResetFrees(f: Fleet, s: Step, maxAttempts: int, id: string)
    requires Inv(f) && Permits(f, s) && id in ResetBy(f.db, s) && id in f.db.table.rows
    ensures var f2 := After(f, s, maxAttempts);
      && f2.workers == f.workers && f2.wire == f.wire && id in f2.db.table.rows
      && f.db.table.rows[id].status == InFlight
      && f2.db.table.rows[id] == Unstamped(f.db.table.rows[id]).(status := Pending)
      && f2.db.table.seqs == f.db.table.seqs
      && Reached(f2.db.history, f2.db.table) && FrontiersRise(f.db.table, f2.db.table)
      && NothingTakenUp(f.db.table, f2.db.table)
  {
    ExternalStep(f.db, s.tx);
    ExternalTakesNothing(f.db, s.tx);
  }

  /** After the reset none of the subscriber's rows is out. */
  lemma ResetLeavesNoneOut(f: Fleet, s: Step, maxAttempts: int, id: string)
    requires Inv(f) && Permits(f, s) && id in ResetBy(f.db, s) && id in f.db.table.rows
    ensures NoneOut(After(f, s, maxAttempts).db.table, f.db.table.rows[id].subscriber)
  {
    var t, t2, sub := f.db.table, After(f, s, maxAttempts).db.table, f.db.table.rows[id].subscriber;
    ResetFrees(f, s, maxAttempts, id);
    InFlightAtFrontier(f.db.history, t, id);
    forall a | a in t2.rows && t2.rows[a].subscriber == sub
      ensures t2.rows[a].status != InFlight
    {
      if a != id && a in t.rows {
        SameSubscriber(f, s, maxAttempts, a);
      }
    }
  }

  lemma SameSubscriber(f: Fleet, s: Step, maxAttempts: int, a: string)
    requires Permits(f, s) && s.External? && a in f.db.table.rows && a in After(f, s, maxAttempts).db.table.rows
    ensures SameRow(f.db.table.rows[a], After(f, s, maxAttempts).db.table.rows[a])
  {
  }

  /** A reset that takes a row from a worker that has yet to post it, or whose mark somebody with
      the same claim may meet, can send the wire back, without any other reset. */
  lemma ResetGoesBack(f: Fleet, s: Step, maxAttempts: int, w: nat, i: nat, id: string) returns (g: Fleet)
    requires Inv(f) && GoodOwners(f.db.owners) && Numbered(f.db)
    requires Permits(f, s) && HeldBy(f, w, i, id) && id in ResetBy(f.db, s)
    requires i > 0 || f.workers[w].outcome == None || CanReclaim(After(f, s, maxAttempts).db, f.workers[w].batch[i])
    ensures Onward(After(f, s, maxAttempts), g, maxAttempts, NEW_IDS) && !WireOrdered(g.wire)
  {
    var d, f1 := f.workers[w].batch[i], After(f, s, maxAttempts);
    assert Live(f.db.table, d, f.workers[w].token);
    ResetFrees(f, s, maxAttempts, id);
    ResetLeavesNoneOut(f, s, maxAttempts, id);
    InFlightAtFrontier(f.db.history, f.db.table, id);
    SequenceIssued(f.db.history, f.db.table, id);
    Named(f.db.history, f.db.table, id);
    GoodOwnersKept(f.db, s.tx);
    if s.tx.Change? {
      NumbersKept(f.db, s.tx.op);
    } else {
      OwnershipKeepsNumbers(f.db, s.tx);
    }
    OnwardStays(f1, maxAttempts, NEW_IDS);
    assert Frontier(f.db.table, d.subscriber) <= Frontier(f1.db.table, d.subscriber);
    var f2 := OpenClaims(f1, f1, maxAttempts, NEW_IDS);
    if i > 0 || f.workers[w].outcome == None {
      g := Overtakes(f1, f2, w, i, d.subscriber, d.sequence, maxAttempts);
    } else {
      g := SharesClaim(f1, f2, w, d, maxAttempts);
    }
  }

  /** Another worker claims the reset row with the same token and generation; the mark of the first
      then frees the row under the second, which has yet to post it. */
  lemma SharesClaim(f0: Fleet, f: Fleet, w: nat, d: Delivery, maxAttempts: int) returns (g: Fleet)
    requires Onward(f0, f, maxAttempts, NEW_IDS) && Ready(f, d.subscriber)
    requires w in f.workers && f.workers[w].batch != [] && f.workers[w].batch[0] == d
    requires f.workers[w].outcome.Some? && f.workers[w].token == d.owner != "" && d.generation != 0
    requires d.id in f.db.table.rows && SameRow(f.db.table.rows[d.id], d)
    requires f.db.table.rows[d.id].partition == d.partition
    requires f.db.table.rows[d.id].status == Pending && CanReclaim(f.db, d)
    requires d.sequence <= Frontier(f.db.table, d.subscriber)
    ensures Onward(f0, g, maxAttempts, NEW_IDS) && !WireOrdered(g.wire)
  {
    var sub, id := d.subscriber, d.id;
    FrontIsFree(f, sub, id);
    SequenceIssued(f.db.history, f.db.table, id);
    var f1 := f;
    if f.db.owners != map[] {
      f1 := Activate(f0, f, d.partition, maxAttempts, NEW_IDS);
      OpenStays(f, f1);
    }
    var f2, v, op := ClaimRow(f0, f1, id, d.owner, d.generation, maxAttempts, NEW_IDS);
    ReachedNext(f1.db.history, f1.db.table, op);
    OpenKept(f1.db, op);
    SameWaitAfterClaim(f1.db.table, op, sub);
    ClaimedUnder(f1.db.table, op, id);
    g := MarkMeets(f0, f2, w, v, d, maxAttempts);
  }

  /** With nothing of the subscriber out, a pending row that is not behind the front is at the front
      and can be claimed when it is due. */
  lemma FrontIsFree(f: Fleet, sub: string, id: string)
    requires Ready(f, sub) && id in f.db.table.rows && f.db.table.rows[id].subscriber == sub
    requires f.db.table.rows[id].status == Pending && f.db.table.rows[id].sequence <= Frontier(f.db.table, sub)
    ensures Frontier(f.db.table, sub) == f.db.table.rows[id].sequence
    ensures forall now :: Due(f.db.table.rows[id], now) ==> Claimable(f.db.table, id, now)
  {
    var t := f.db.table;
    Window(f.db.history, t, sub);
    assert id in WaitingRows(t, sub) && t.rows[id].sequence in WaitingSequences(t, sub);
    assert id in UnfinishedRows(t, sub);
    var first := FirstRow(f.db.history, t, sub);
    OneRowPerSequence(f.db.history, t, first, id);
  }

  lemma MarkMeets(f0: Fleet, f: Fleet, w: nat, v: nat, d: Delivery, maxAttempts: int) returns (g: Fleet)
    requires Onward(f0, f, maxAttempts, NEW_IDS) && Reached(f.db.history, f.db.table)
    requires GoodOwners(f.db.owners) && ClaimsOpen(f.db) && d.subscriber != ""
    requires w in f.workers && f.workers[w].batch != [] && f.workers[w].batch[0] == d && f.workers[w].outcome.Some?
    requires f.workers[w].token == d.owner && Holds(f.db.table.rows, d.id, d.owner, d.generation)
    requires SameRow(f.db.table.rows[d.id], d)
    requires v != w && v in f.workers && f.workers[v] == Worker(d.owner, [f.db.table.rows[d.id]], None)
    ensures Onward(f0, g, maxAttempts, NEW_IDS) && !WireOrdered(g.wire)
  {
    var sub, o := d.subscriber, f.workers[w].outcome.value;
    var step := Settle(w, Never, "", Limits(1, 1), 0);
    var ops := SettleOps(f.db.table, d.owner, d, o, maxAttempts, Never, "", Limits(1, 1), 0);
    OnwardNext(f0, f, step, maxAttempts, NEW_IDS);
    var f1 := After(f, step, maxAttempts);
    SettleStep(f.db, d.owner, d, o, maxAttempts, Never, "", Limits(1, 1), 0);
    SettleFrees(f.db, d.owner, d, o, maxAttempts, Never, "", Limits(1, 1), 0);
    SettleKeepsOpen(f.db, ops);
    InFlightAtFrontier(f.db.history, f.db.table, d.id);
    SettleLeavesNoneOut(f.db, f1.db, ops, sub, d.id);
    SequenceIssued(f.db.history, f.db.table, d.id);
    assert Frontier(f.db.table, sub) <= Frontier(f1.db.table, sub);
    g := Overtakes(f0, f1, v, 0, sub, d.sequence, maxAttempts);
  }

  /** The changes of a mark. */
  ghost predicate Marks(t: Table, ops: seq<Op>) {
    && 1 <= |ops| <= 2 && Legal(t, ops[0]) && (ops[0].Finish? || ops[0].Retry? || ops[0].Suspend?)
    && (|ops| == 2 ==> ops[1].Trim?)
  }

  lemma SettleKeepsOpen(db: Db, ops: seq<Op>)
    requires ClaimsOpen(db) && Marks(db.table, ops)
    ensures ClaimsOpen(ChangedAll(db, ops)) && ChangedAll(db, ops).table.seqs == db.table.seqs
  {
    AllOfOne(db, ops[0]);
    OpenKept(db, ops[0]);
    if |ops| == 2 {
      assert ops == [ops[0], ops[1]];
      AllOfTwo(db, ops[0], ops[1]);
      OpenKept(Changed(db, ops[0]), ops[1]);
    } else {
      assert ops == [ops[0]];
    }
  }

  lemma PlaceKept(t: Table, op: Op, a: string)
    requires !op.Insert? && a in Apply(t, op).rows
    ensures a in t.rows && SameRow(t.rows[a], Apply(t, op).rows[a])
  {
  }

  /** A mark adds no row and moves none in its line. */
  lemma MarksKeepPlace(db: Db, ops: seq<Op>, a: string)
    requires Marks(db.table, ops) && a in ChangedAll(db, ops).table.rows
    ensures a in db.table.rows && SameRow(db.table.rows[a], ChangedAll(db, ops).table.rows[a])
  {
    AllOfOne(db, ops[0]);
    if |ops| == 2 {
      assert ops == [ops[0], ops[1]];
      AllOfTwo(db, ops[0], ops[1]);
      PlaceKept(Apply(db.table, ops[0]), ops[1], a);
      PlaceKept(db.table, ops[0], a);
    } else {
      assert ops == [ops[0]];
      PlaceKept(db.table, ops[0], a);
    }
  }

  lemma SettleLeavesNoneOut(db: Db, db2: Db, ops: seq<Op>, sub: string, id: string)
    requires Marks(db.table, ops) && db2 == ChangedAll(db, ops) && NothingTakenUp(db.table, db2.table)
    requires id in db2.table.rows ==> db2.table.rows[id].status != InFlight
    requires forall a ::
      a in db.table.rows && db.table.rows[a].status == InFlight && db.table.rows[a].subscriber == sub ==> a == id
    ensures NoneOut(db2.table, sub)
  {
    forall a | a in db2.table.rows && db2.table.rows[a].subscriber == sub
      ensures db2.table.rows[a].status != InFlight
    {
      MarksKeepPlace(db, ops, a);
    }
  }

  // ---- Exactly the gentle resets ----

  /** In a database without owner rows, for every step, and in one whose claims agree with its
      owner rows, for every step but a takeover (FleetSteal.dfy): the step is gentle if and only if
      no continuation without resets sends the wire back. */
  lemma GentleExactly(f: Fleet, s: Step, maxAttempts: int)
    requires Inv(f) && Permits(f, s) && GoodOwners(f.db.owners)
    requires Numbered(f.db) && (f.db.owners == map[] || (StampsAgree(f.db) && !(s.External? && s.tx.Force?)))
    ensures Gentle(f, s) <==>
      forall g :: Onward(After(f, s, maxAttempts), g, maxAttempts, LOOSE) ==> WireOrdered(g.wire)
  {
    var f1 := After(f, s, maxAttempts);
    if Gentle(f, s) {
      StepKeeps(f, s, maxAttempts);
      forall g | Onward(f1, g, maxAttempts, LOOSE)
        ensures WireOrdered(g.wire)
      {
        OnwardKeeps(f1, g, maxAttempts, LOOSE);
      }
    } else {
      var w: nat, i: nat, id :| HeldBy(f, w, i, id) && id in ResetBy(f.db, s);
      assert Live(f.db.table, f.workers[w].batch[i], f.workers[w].token);
      if f.db.owners != map[] {
        assert Agrees(f.db.owners, f.db.table.rows[id]);
      }
      var g := ResetGoesBack(f, s, maxAttempts, w, i, id);
      OnwardLooser(f1, g, maxAttempts, NEW_IDS, LOOSE);
    }
  }
}
