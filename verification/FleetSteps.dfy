/** How one process over its own store (fold.go, worker.go) is a fleet: each of its methods is a
    step, or a few steps, that resets no row, so that order on the wire is kept. */
module FleetSteps {
  import opened Deliveries
  import opened StoreSpec
  import opened Sorting
  import opened Claiming
  import opened PostgresClaims
  import opened Ownership
  import opened Fleet
  import opened FleetRuns
  import opened FleetOnce
  import opened FleetPaths

  /** A process, its store and what it has posted, seen as a fleet without owner rows. */
  function Alone(h: seq<Op>, t: Table, workers: map<nat, Worker>, wire: seq<Post>): Fleet {
    Fleet(Db(h, t, map[]), workers, wire)
  }

  /** Nobody of the process has claimed or posted anything yet. */
  ghost predicate Quiet(f: Fleet) {
    Reached(f.db.history, f.db.table) && f.workers == map[] && f.wire == []
  }

  function Tending(tended: bool): Care {
    Care(tended, false, None)
  }

  /** `f` is where steps that reset no row lead from a quiet start, be the store new or used. If
      `tended`, nothing was in flight at the start, and no mark was lost and no row left behind. */
  ghost predicate Led(f: Fleet, maxAttempts: int, tended: bool) {
    exists start :: Onward(start, f, maxAttempts, Tending(tended)) && Quiet(start) && (tended ==> AllHeld(start))
  }

  lemma LedNext(f: Fleet, s: Step, maxAttempts: int, tended: bool)
    requires Led(f, maxAttempts, tended) && Permits(f, s) && ResetBy(f.db, s) == {} && (tended ==> Attentive(f, s))
    ensures Led(After(f, s, maxAttempts), maxAttempts, tended)
  {
    var start :| Onward(start, f, maxAttempts, Tending(tended)) && Quiet(start) && (tended ==> AllHeld(start));
    OnwardNext(start, f, s, maxAttempts, Tending(tended));
  }

  /** Wherever such steps lead, order is kept and nothing is posted again after a success. */
  lemma LedOnce(f: Fleet, maxAttempts: int, tended: bool)
    requires Led(f, maxAttempts, tended)
    ensures Once(f)
  {
    var start :| Onward(start, f, maxAttempts, Tending(tended)) && Quiet(start) && (tended ==> AllHeld(start));
    OnwardOnce(start, f, maxAttempts, Tending(tended));
  }

  /** A tended process has everything that is in flight in its hands. */
  lemma LedHolds(f: Fleet, maxAttempts: int)
    requires Led(f, maxAttempts, true)
    ensures AllHeld(f)
  {
    var start :| Onward(start, f, maxAttempts, Tending(true)) && Quiet(start) && AllHeld(start);
    OnwardHolds(start, f, maxAttempts, Tending(true));
  }

  lemma LedUntended(f: Fleet, maxAttempts: int, tended: bool)
    requires Led(f, maxAttempts, tended)
    ensures Led(f, maxAttempts, false)
  {
    var start :| Onward(start, f, maxAttempts, Tending(tended)) && Quiet(start) && (tended ==> AllHeld(start));
    OnwardLooser(start, f, maxAttempts, Tending(tended), LOOSE);
  }

  lemma QuietIsLed(f: Fleet, maxAttempts: int, tended: bool)
    requires Quiet(f) && (tended ==> AllHeld(f))
    ensures Led(f, maxAttempts, tended)
  {
    OnwardStays(f, maxAttempts, Tending(tended));
  }

  /** One more change of a store that keeps its own history. */
  lemma StoreStep(h: seq<Op>, t: Table, op: Op, t2: Table)
    requires Reached(h, t) && Reached(h + [op], t2)
    ensures Legal(t, op) && t2 == Apply(t, op)
  {
    var before := ReachedBefore(h, op, t2);
    ReachesOneTable(h, t, before);
  }

  /** Enqueues, retention and reopenings, any number of them. */
  lemma {:induction false} OutsideLeads(h: seq<Op>, t: Table, workers: map<nat, Worker>, wire: seq<Post>,
                                        ops: seq<Op>, t2: Table,
                                        maxAttempts: int, tended: bool)
    requires Led(Alone(h, t, workers, wire), maxAttempts, tended) && Reached(h, t) && Reached(h + ops, t2)
    requires forall op :: op in ops ==> op.Insert? || op.Trim? || op.Reopen?
    ensures Led(Alone(h + ops, t2, workers, wire), maxAttempts, tended)
    decreases |ops|
  {
    if ops == [] {
      assert h + ops == h;
      ReachesOneTable(h, t, t2);
    } else {
      var init, op := ops[..|ops| - 1], ops[|ops| - 1];
      assert h + ops == h + init + [op];
      var before := ReachedBefore(h + init, op, t2);
      OutsideLeads(h, t, workers, wire, init, before, maxAttempts, tended);
      LedNext(Alone(h + init, before, workers, wire), External(Change(op)), maxAttempts, tended);
    }
  }

  /** What a claim of either store hands out: claimable rows of the listed partitions, stamped, of
      different subscribers. */
  ghost predicate ClaimedBatch(t: Table, out: seq<Delivery>, parts: set<int>, owner: string, generation: nat,
                               now: int) {
    && (forall d :: d in out ==>
          && Claimable(t, d.id, now) && t.rows[d.id].partition in parts
          && d == Claimed(t.rows[d.id], owner, generation, now))
    && (forall i, j :: 0 <= i < j < |out| ==> out[i].subscriber != out[j].subscriber)
  }

  lemma MemoryClaims(t: Table, out: seq<Delivery>, parts: set<int>, limit: int, owner: string, generation: nat,
                     now: int)
    requires ExactClaim(t, out, parts, limit, owner, generation, now)
    ensures ClaimedBatch(t, out, parts, owner, generation, now)
  {
    forall i, j | 0 <= i < j < |out|
      ensures out[i].subscriber != out[j].subscriber
    {
      BeforeOrder(out[i].subscriber, out[j].subscriber, "");
    }
  }

  /** The SQL store without owner rows hands out batches of the same kind. */
  lemma SqlClaims(t: Table, out: seq<Delivery>, parts: set<int>, locked: set<string>, limit: int, owner: string,
                  generation: nat, now: int)
    requires ExactBatch(t, out, ByList(parts, generation), locked, limit, owner, now)
    ensures ClaimedBatch(t, out, parts, owner, generation, now)
  {
  }

  /** A claim by an idle worker. */
  lemma ClaimLeads(h: seq<Op>, t: Table, workers: map<nat, Worker>, wire: seq<Post>, w: nat, out: seq<Delivery>,
                   parts: set<int>, generation: nat, now: int, t2: Table, maxAttempts: int, tended: bool)
    requires Led(Alone(h, t, workers, wire), maxAttempts, tended) && Reached(h, t) && w in workers
    requires workers[w].batch == []
    requires ClaimedBatch(t, out, parts, workers[w].token, generation, now)
    requires Reached(h + [Claim(Stamps(out, generation), workers[w].token, now)], t2)
    ensures Led(Alone(h + [Claim(Stamps(out, generation), workers[w].token, now)], t2,
                      workers[w := Worker(workers[w].token, out, None)], wire), maxAttempts, tended)
  {
    var f := Alone(h, t, workers, wire);
    var op := Claim(Stamps(out, generation), workers[w].token, now);
    StoreStep(h, t, op, t2);
    var order := seq(|out|, i requires 0 <= i < |out| => out[i].id);
    ListsOut(t, out, parts, workers[w].token, generation, now, order);
    assert Allowed(f.db, Change(op));
    ReadsOut(t, out, parts, workers[w].token, generation, now, order);
    LedNext(f, Grab(w, order, Stamps(out, generation), now), maxAttempts, tended);
  }

  lemma ListsOut(t: Table, out: seq<Delivery>, parts: set<int>, owner: string, generation: nat, now: int,
                 order: seq<string>)
    requires ClaimedBatch(t, out, parts, owner, generation, now)
    requires |order| == |out| && forall i :: 0 <= i < |out| ==> order[i] == out[i].id
    ensures NoRepeats(order) && forall id :: id in order <==> id in Stamps(out, generation)
  {
    forall i, j | 0 <= i < j < |order|
      ensures order[i] != order[j]
    {
      assert out[i] in out && out[j] in out;
    }
    forall id | id in IdSet(out)
      ensures id in order
    {
      var d :| d in out && d.id == id;
      var i :| 0 <= i < |out| && out[i] == d;
      assert order[i] == id;
    }
    forall id | id in order
      ensures id in IdSet(out)
    {
      var i :| 0 <= i < |order| && order[i] == id;
      assert out[i] in out;
    }
  }

  lemma ReadsOut(t: Table, out: seq<Delivery>, parts: set<int>, owner: string, generation: nat, now: int,
                 order: seq<string>)
    requires ClaimedBatch(t, out, parts, owner, generation, now)
    requires |order| == |out| && forall i :: 0 <= i < |out| ==> order[i] == out[i].id
    ensures var rows := Apply(t, Claim(Stamps(out, generation), owner, now)).rows;
      (forall id :: id in order ==> id in rows) && RowsOf(rows, order) == out
  {
    var rows := Apply(t, Claim(Stamps(out, generation), owner, now)).rows;
    forall i | 0 <= i < |out|
      ensures order[i] in rows && rows[order[i]] == out[i]
    {
      assert out[i] in out && out[i].id in IdSet(out);
    }
  }

  /** A row in a worker's hands is still claimed, exactly as the worker claimed it. */
  lemma HeldIsHeld(f: Fleet, w: nat, maxAttempts: int, tended: bool)
    requires Led(f, maxAttempts, tended) && w in f.workers && f.workers[w].batch != []
    ensures var d := f.workers[w].batch[0];
      Holds(f.db.table.rows, d.id, f.workers[w].token, d.generation) && f.db.table.rows[d.id] == d
  {
    LedOnce(f, maxAttempts, tended);
    assert Live(f.db.table, f.workers[w].batch[0], f.workers[w].token);
  }

  /** The mark of a posted row, by a store that has made exactly these changes. */
  lemma MarkLeads(h: seq<Op>, t: Table, workers: map<nat, Worker>, wire: seq<Post>, w: nat, maxAttempts: int,
                  tended: bool, next: Time, error: string, limits: Limits, now: int, ops: seq<Op>, t2: Table)
    requires Led(Alone(h, t, workers, wire), maxAttempts, tended) && Reached(h, t)
    requires w in workers && workers[w].batch != [] && workers[w].outcome.Some?
    requires ops == SettleOps(t, workers[w].token, workers[w].batch[0], workers[w].outcome.value, maxAttempts, next,
      error, limits, now)
    requires Reached(h + ops, t2)
    ensures Led(Alone(h + ops, t2, workers[w := Popped(workers[w])], wire), maxAttempts, tended)
  {
    var f, k := Alone(h, t, workers, wire), workers[w];
    HeldIsHeld(f, w, maxAttempts, tended);
    if |ops| == 1 {
      assert h + ops == h + [ops[0]];
      StoreStep(h, t, ops[0], t2);
      AllOfOne(f.db, ops[0]);
    } else {
      assert h + ops == (h + [ops[0]]) + [ops[1]];
      var between := ReachedBefore(h + [ops[0]], ops[1], t2);
      StoreStep(h, t, ops[0], between);
      AllOfTwo(f.db, ops[0], ops[1]);
    }
    LedNext(f, Settle(w, next, error, limits, now), maxAttempts, tended);
  }

  lemma SendLeads(f: Fleet, w: nat, outcome: Outcome, maxAttempts: int, tended: bool)
    requires Led(f, maxAttempts, tended) && w in f.workers && f.workers[w].batch != [] && f.workers[w].outcome == None
    ensures var d := f.workers[w].batch[0];
      Led(Fleet(f.db, f.workers[w := f.workers[w].(outcome := Some(outcome))],
                f.wire + [Post(d.subscriber, d.sequence, outcome == Success)]), maxAttempts, tended)
  {
    LedNext(f, Send(w, outcome), maxAttempts, tended);
  }

  lemma SpawnLeads(f: Fleet, w: nat, token: string, maxAttempts: int, tended: bool)
    requires Led(f, maxAttempts, tended) && w !in f.workers
    ensures Led(Fleet(f.db, f.workers[w := Worker(token, [], None)], f.wire), maxAttempts, tended)
  {
    LedNext(f, Spawn(w, token), maxAttempts, tended);
  }

  /** Whoever leaves with rows in hand leaves the process untended. */
  lemma QuitLeads(f: Fleet, w: nat, maxAttempts: int, tended: bool)
    requires Led(f, maxAttempts, tended) && w in f.workers
    ensures Led(Fleet(f.db, f.workers - {w}, f.wire), maxAttempts, tended && f.workers[w].batch == [])
  {
    LedUntended(f, maxAttempts, tended);
    LedNext(f, Quit(w), maxAttempts, tended && f.workers[w].batch == []);
  }
}
