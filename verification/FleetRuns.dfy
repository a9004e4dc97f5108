/** Order on the wire, and bounded work, over every run of the fleet. */
module FleetRuns {
  import opened Deliveries
  import opened StoreSpec
  import opened Refinement
  import opened StoreRuns
  import opened Ownership
  import opened Sorting
  import opened Fleet

  // ---- What one change does to a row in flight, and to the frontier ----

  /** A row in flight stays exactly as it is unless its own claim is marked or it is recovered. */
  lemma InFlightStays(t: Table, op: Op, id: string)
    requires Legal(t, op) && id in t.rows && t.rows[id].status == InFlight
    requires (op.Finish? || op.Retry? || op.Suspend?) ==> op.id != id
    requires op.Recover? ==> id !in op.ids
    ensures id in Apply(t, op).rows && Apply(t, op).rows[id] == t.rows[id]
  {
  }

  lemma FrontierRises(h: seq<Op>, t: Table, op: Op, s: string)
    requires Reached(h, t) && Legal(t, op)
    ensures Frontier(t, s) <= Frontier(Apply(t, op), s)
    ensures (op.Finish? || op.Suspend?) && t.rows[op.id].subscriber == s ==>
      t.rows[op.id].sequence < Frontier(Apply(t, op), s)
  {
    var q := ReachedMirrors(h, t, s);
    FrontierStep(t, op, s, q);
  }

  // ---- Steps of the database under the workers ----

  /** Every row in flight, except the released ones, is in flight as before. */
  ghost predicate KeepsInFlight(t: Table, t2: Table, released: set<string>) {
    forall id :: (id in t.rows && t.rows[id].status == InFlight && id !in released) ==>
      id in t2.rows && t2.rows[id] == t.rows[id]
  }

  ghost predicate FrontiersRise(t: Table, t2: Table) {
    forall s :: Frontier(t, s) <= Frontier(t2, s)
  }

  /** One change, releasing the rows it marks or recovers. */
  lemma ChangeStep(db: Db, op: Op, released: set<string>)
    requires Reached(db.history, db.table) && Legal(db.table, op)
    requires (op.Finish? || op.Retry? || op.Suspend?) ==> op.id in released
    requires op.Recover? ==> op.ids <= released
    ensures Reached(Changed(db, op).history, Changed(db, op).table)
    ensures KeepsInFlight(db.table, Changed(db, op).table, released)
    ensures FrontiersRise(db.table, Changed(db, op).table)
  {
    ReachedNext(db.history, db.table, op);
    forall id | id in db.table.rows && db.table.rows[id].status == InFlight && id !in released
      ensures id in Changed(db, op).table.rows && Changed(db, op).table.rows[id] == db.table.rows[id]
    {
      InFlightStays(db.table, op, id);
    }
    forall s
      ensures Frontier(db.table, s) <= Frontier(Changed(db, op).table, s)
    {
      FrontierRises(db.history, db.table, op, s);
    }
  }

  lemma ExternalStep(db: Db, tx: DbOp)
    requires Reached(db.history, db.table) && Allowed(db, tx) && Outside(tx)
    ensures Reached(Next(db, tx).history, Next(db, tx).table)
    ensures KeepsInFlight(db.table, Next(db, tx).table, ResetBy(db, External(tx)))
    ensures FrontiersRise(db.table, Next(db, tx).table)
  {
    match tx
    case Change(op) => ChangeStep(db, op, ResetBy(db, External(tx)));
    case Force(p, to, expected) =>
      if Decide(db.owners, p, to, expected) == Steal {
        ChangeStep(db, Recover(InFlightIn(db.table.rows, p)), InFlightIn(db.table.rows, p));
      }
    case _ =>
  }

  lemma AllOfOne(db: Db, op: Op)
    ensures ChangedAll(db, [op]) == Changed(db, op)
  {
  }

  lemma AllOfTwo(db: Db, op: Op, op2: Op)
    ensures ChangedAll(db, [op, op2]) == Changed(Changed(db, op), op2)
  {
    AllOfOne(Changed(db, op), op2);
    assert [op, op2][1..] == [op2];
  }

  /** Marking touches no other row in flight, and a finished row falls behind the frontier. */
  lemma SettleStep(db: Db, token: string, d: Delivery, outcome: Outcome, maxAttempts: int,
                   next: Time, error: string, limits: Limits, now: int)
    requires Reached(db.history, db.table)
    ensures var db2 := ChangedAll(db, SettleOps(db.table, token, d, outcome, maxAttempts, next, error, limits, now));
      && Reached(db2.history, db2.table) && db2.owners == db.owners
      && KeepsInFlight(db.table, db2.table, {d.id})
      && FrontiersRise(db.table, db2.table)
      && (outcome == Success && Holds(db.table.rows, d.id, token, d.generation) ==>
            db.table.rows[d.id].sequence < Frontier(db2.table, db.table.rows[d.id].subscriber))
  {
    var ops := SettleOps(db.table, token, d, outcome, maxAttempts, next, error, limits, now);
    if ops != [] {
      AllOfOne(db, ops[0]);
      ChangeStep(db, ops[0], {d.id});
      if |ops| == 2 {
        AllOfTwo(db, ops[0], ops[1]);
        ChangeStep(Changed(db, ops[0]), ops[1], {d.id});
      } else {
        FrontierRises(db.history, db.table, ops[0], db.table.rows[d.id].subscriber);
      }
    }
  }

  // ---- The invariant of gentle runs ----

  /** A worker's row is in flight under the worker's own claim, exactly as it was claimed. */
  ghost predicate Live(t: Table, d: Delivery, token: string) {
    && d.id in t.rows && t.rows[d.id] == d
    && d.status == InFlight && d.owner == token && d.generation != 0
  }

  ghost predicate AllLive(f: Fleet) {
    forall w, i {:trigger f.workers[w].batch[i]} :: w in f.workers && 0 <= i < |f.workers[w].batch| ==>
      Live(f.db.table, f.workers[w].batch[i], f.workers[w].token)
  }

  /** No row is held twice. */
  ghost predicate Apart(f: Fleet) {
    forall w, i, v, j {:trigger f.workers[w].batch[i], f.workers[v].batch[j]} ::
      (w in f.workers && 0 <= i < |f.workers[w].batch| && v in f.workers && 0 <= j < |f.workers[v].batch|
       && f.workers[w].batch[i].id == f.workers[v].batch[j].id) ==> w == v && i == j
  }

  ghost predicate WireBehind(f: Fleet) {
    forall k :: 0 <= k < |f.wire| ==> f.wire[k].sequence <= Frontier(f.db.table, f.wire[k].subscriber)
  }

  ghost predicate WireOrdered(wire: seq<Post>) {
    forall j, k :: 0 <= j < k < |wire| && wire[j].subscriber == wire[k].subscriber ==>
      wire[j].sequence <= wire[k].sequence
  }

  ghost predicate Inv(f: Fleet) {
    Reached(f.db.history, f.db.table) && AllLive(f) && Apart(f) && WireBehind(f) && WireOrdered(f.wire)
  }

  predicate Suffix<T(==)>(a: seq<T>, b: seq<T>) {
    |a| <= |b| && a == b[|b| - |a|..]
  }

  /** The workers of `f2` are workers of `f` that hold the rest of what they held. */
  ghost predicate HoldsLess(f: Fleet, f2: Fleet) {
    forall w :: w in f2.workers && f2.workers[w].batch != [] ==>
      w in f.workers && f.workers[w].token == f2.workers[w].token && Suffix(f2.workers[w].batch, f.workers[w].batch)
  }

  ghost predicate HoldsNone(f: Fleet, released: set<string>) {
    forall w, i {:trigger f.workers[w].batch[i]} :: w in f.workers && 0 <= i < |f.workers[w].batch| ==>
      f.workers[w].batch[i].id !in released
  }

  lemma HoldingKept(f: Fleet, f2: Fleet, released: set<string>)
    requires AllLive(f) && Apart(f) && HoldsLess(f, f2) && HoldsNone(f2, released)
    requires KeepsInFlight(f.db.table, f2.db.table, released)
    ensures AllLive(f2) && Apart(f2)
  {
  }

  lemma WireKept(f: Fleet, f2: Fleet)
    requires WireBehind(f) && f2.wire == f.wire && FrontiersRise(f.db.table, f2.db.table)
    ensures WireBehind(f2)
  {
  }

  // ---- Each step keeps the invariant ----

  lemma GentleHoldsNone(f: Fleet, reset: set<string>)
    requires forall w, i, id :: HeldBy(f, w, i, id) ==> id !in reset
    ensures HoldsNone(f, reset)
  {
    forall w, i | w in f.workers && 0 <= i < |f.workers[w].batch|
      ensures f.workers[w].batch[i].id !in reset
    {
      assert HeldBy(f, w, i, f.workers[w].batch[i].id);
    }
  }

  lemma ExternalKeeps(f: Fleet, s: Step, maxAttempts: int)
    requires Inv(f) && Permits(f, s) && Gentle(f, s) && s.External?
    ensures Inv(After(f, s, maxAttempts))
  {
    var f2 := After(f, s, maxAttempts);
    ExternalStep(f.db, s.tx);
    GentleHoldsNone(f, ResetBy(f.db, s));
    HoldingKept(f, f2, ResetBy(f.db, s));
    WireKept(f, f2);
  }

  lemma PoppedHoldsNone(f: Fleet, w: nat, f2: Fleet)
    requires Apart(f) && w in f.workers && f.workers[w].batch != []
    requires f2.workers == f.workers[w := Popped(f.workers[w])]
    ensures HoldsLess(f, f2) && HoldsNone(f2, {f.workers[w].batch[0].id})
  {
    forall v, i | v in f2.workers && 0 <= i < |f2.workers[v].batch|
      ensures f2.workers[v].batch[i].id != f.workers[w].batch[0].id
    {
      var at := if v == w then i + 1 else i;
      assert f2.workers[v].batch[i] == f.workers[v].batch[at];
    }
  }

  lemma SettleKeeps(f: Fleet, s: Step, maxAttempts: int)
    requires Inv(f) && Permits(f, s) && s.Settle?
    ensures Inv(After(f, s, maxAttempts))
  {
    var f2, k := After(f, s, maxAttempts), f.workers[s.w];
    var d := k.batch[0];
    SettleStep(f.db, k.token, d, k.outcome.value, maxAttempts, s.next, s.error, s.limits, s.now);
    PoppedHoldsNone(f, s.w, f2);
    HoldingKept(f, f2, {d.id});
    WireKept(f, f2);
  }

  /** Steps that change no delivery: a worker starts, stops, posts, or loses a mark. */
  lemma UnchangedKeeps(f: Fleet, f2: Fleet)
    requires AllLive(f) && Apart(f) && HoldsLess(f, f2) && f2.db == f.db
    ensures AllLive(f2) && Apart(f2)
  {
    assert HoldsNone(f2, {});
    HoldingKept(f, f2, {});
  }

  lemma IdleKeeps(f: Fleet, s: Step, maxAttempts: int)
    requires Inv(f) && Permits(f, s) && (s.Spawn? || s.Lose? || s.Quit?)
    ensures Inv(After(f, s, maxAttempts))
  {
    var f2 := After(f, s, maxAttempts);
    UnchangedKeeps(f, f2);
    WireKept(f, f2);
  }

  /** A worker posts the row at the frontier, and nothing beyond it has been posted. */
  lemma SendKeeps(f: Fleet, s: Step, maxAttempts: int)
    requires Inv(f) && Permits(f, s) && s.Send?
    ensures Inv(After(f, s, maxAttempts))
  {
    var f2, d := After(f, s, maxAttempts), f.workers[s.w].batch[0];
    UnchangedKeeps(f, f2);
    assert Live(f.db.table, d, f.workers[s.w].token);
    InFlightAtFrontier(f.db.history, f.db.table, d.id);
    WireExtended(f, f2, Post(d.subscriber, d.sequence, s.outcome == Success));
  }

  lemma WireExtended(f: Fleet, f2: Fleet, post: Post)
    requires WireBehind(f) && WireOrdered(f.wire) && f2.db == f.db && f2.wire == f.wire + [post]
    requires post.sequence == Frontier(f.db.table, post.subscriber)
    ensures WireBehind(f2) && WireOrdered(f2.wire)
  {
  }

  lemma GrabKeeps(f: Fleet, s: Step, maxAttempts: int)
    requires Inv(f) && Permits(f, s) && s.Grab?
    ensures Inv(After(f, s, maxAttempts))
  {
    var f2, k := After(f, s, maxAttempts), f.workers[s.w];
    var op := Claim(s.stamps, k.token, s.now);
    ChangeStep(f.db, op, {});
    WireKept(f, f2);
    forall i | 0 <= i < |f2.workers[s.w].batch|
      ensures Live(f2.db.table, f2.workers[s.w].batch[i], k.token) && f2.workers[s.w].batch[i].id == s.order[i]
      ensures s.order[i] in f.db.table.rows && f.db.table.rows[s.order[i]].status == Pending
    {
      GrabbedIsLive(f, op, s.order[i]);
    }
    GrabKeepsLive(f, f2, s.w);
    GrabKeepsApart(f, f2, s.w, s.order);
  }

  lemma GrabbedIsLive(f: Fleet, op: Op, id: string)
    requires Reached(f.db.history, f.db.table) && op.Claim? && Legal(f.db.table, op) && id in op.picks
    ensures id in Apply(f.db.table, op).rows
    ensures Live(Apply(f.db.table, op), Apply(f.db.table, op).rows[id], op.owner)
    ensures Apply(f.db.table, op).rows[id].id == id && f.db.table.rows[id].status == Pending
  {
    assert Claimable(f.db.table, id, op.now);
    var q := ReachedMirrors(f.db.history, f.db.table, f.db.table.rows[id].subscriber);
    assert Fits(id, f.db.table.rows[id], q);
  }

  /** `f2` is `f` with a new batch for worker `w`. */
  ghost predicate Rebatched(f: Fleet, f2: Fleet, w: nat) {
    && w in f.workers && w in f2.workers && f2.workers.Keys == f.workers.Keys
    && f2.workers[w].token == f.workers[w].token
    && forall v :: v in f.workers && v != w ==> f2.workers[v] == f.workers[v]
  }

  lemma GrabKeepsLive(f: Fleet, f2: Fleet, w: nat)
    requires AllLive(f) && Rebatched(f, f2, w) && KeepsInFlight(f.db.table, f2.db.table, {})
    requires forall i :: 0 <= i < |f2.workers[w].batch| ==>
      Live(f2.db.table, f2.workers[w].batch[i], f2.workers[w].token)
    ensures AllLive(f2)
  {
  }

  /** What is claimed was pending, so nobody held it. */
  lemma GrabKeepsApart(f: Fleet, f2: Fleet, w: nat, order: seq<string>)
    requires AllLive(f) && Apart(f) && Rebatched(f, f2, w) && NoRepeats(order) && |f2.workers[w].batch| == |order|
    requires forall i :: 0 <= i < |order| ==> f2.workers[w].batch[i].id == order[i]
    requires forall i :: 0 <= i < |order| ==> order[i] in f.db.table.rows && f.db.table.rows[order[i]].status == Pending
    ensures Apart(f2)
  {
  }

  lemma StepKeeps(f: Fleet, s: Step, maxAttempts: int)
    requires Inv(f) && Permits(f, s) && Gentle(f, s)
    ensures Inv(After(f, s, maxAttempts))
  {
    match s
    case External(_) => ExternalKeeps(f, s, maxAttempts);
    case Grab(_, _, _, _) => GrabKeeps(f, s, maxAttempts);
    case Send(_, _) => SendKeeps(f, s, maxAttempts);
    case Settle(_, _, _, _, _) => SettleKeeps(f, s, maxAttempts);
    case _ => IdleKeeps(f, s, maxAttempts);
  }

  lemma {:induction false} GentleRunKeeps(steps: seq<Step>, fs: seq<Fleet>, maxAttempts: int, n: nat)
    requires Passage(steps, fs, maxAttempts) && GentleRun(steps, fs) && n <= |steps|
    ensures Inv(fs[n])
  {
    if n == 0 {
      EmptyReached();
    } else {
      GentleRunKeeps(steps, fs, maxAttempts, n - 1);
      assert Permits(fs[n - 1], steps[n - 1]);
      StepKeeps(fs[n - 1], steps[n - 1], maxAttempts);
    }
  }

  /** Wire order: in every run that resets no row still held by a worker, the POSTs of a
      subscriber never go back in sequence, across workers, nodes, resizes and handoffs. */
  lemma WireNeverGoesBack(steps: seq<Step>, fs: seq<Fleet>, maxAttempts: int, n: nat, j: nat, k: nat)
    requires Passage(steps, fs, maxAttempts) && GentleRun(steps, fs) && n <= |steps|
    requires j < k < |fs[n].wire| && fs[n].wire[j].subscriber == fs[n].wire[k].subscriber
    ensures fs[n].wire[j].sequence <= fs[n].wire[k].sequence
  {
    GentleRunKeeps(steps, fs, maxAttempts, n);
  }
}
