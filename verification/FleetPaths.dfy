/** Going on from any state of a fleet without resets, and who holds what meanwhile. */
module FleetPaths {
  import opened Deliveries
  import opened StoreSpec
  import opened Ownership
  import opened OwnershipRuns
  import opened Fleet
  import opened FleetRuns
  import opened FleetOnce

  // ---- Going on ----

  /** No mark is lost, and no worker quits with rows in hand. */
  predicate Attentive(f: Fleet, s: Step) {
    !s.Lose? && (s.Quit? && s.w in f.workers ==> f.workers[s.w].batch == [])
  }

  ghost predicate AttentiveRun(steps: seq<Step>, fs: seq<Fleet>) {
    |fs| == |steps| + 1 && forall i {:trigger steps[i]} :: 0 <= i < |steps| ==> Attentive(fs[i], steps[i])
  }

  /** No row is enqueued under the id of a row that a worker has in its hands. */
  ghost predicate Fresh(f: Fleet, s: Step) {
    s.External? && s.tx.Change? && s.tx.op.Insert? ==> !Held(f, s.tx.op.d.id)
  }

  /** What workers do not decide: how each post ends, how long its retry waits, and what retention
      finds when a subscriber is suspended. */
  datatype World = World(outcome: Fleet -> Outcome, next: Fleet -> Time, limits: Fleet -> Limits, now: Fleet -> int)

  /** The step is one of a worker in that world, or moves the owner rows, where there are any. */
  ghost predicate Working(f: Fleet, s: Step, world: World) {
    match s
    case External(tx) => !tx.Change? && f.db.owners != map[]
    case Send(_, outcome) => outcome == world.outcome(f)
    case Settle(_, next, _, limits, now) => next == world.next(f) && limits == world.limits(f) && now == world.now(f)
    case _ => true
  }

  /** What may be asked of the steps that go on. */
  datatype Care = Care(attentive: bool, newIds: bool, world: Option<World>)

  const LOOSE := Care(false, false, None)

  ghost predicate Careful(f: Fleet, s: Step, care: Care) {
    && (care.attentive ==> Attentive(f, s)) && (care.newIds ==> Fresh(f, s))
    && (care.world.Some? ==> Working(f, s, care.world.value))
  }

  /** Steps that reset nothing and are careful lead from `f` to `g`. */
  ghost predicate Onward(f: Fleet, g: Fleet, maxAttempts: int, care: Care) {
    exists steps, fs :: Path(steps, fs, maxAttempts) && Joins(steps, fs, f, g, care)
  }

  ghost predicate Joins(steps: seq<Step>, fs: seq<Fleet>, f: Fleet, g: Fleet, care: Care) {
    && |fs| == |steps| + 1 && fs[0] == f && fs[|steps|] == g && UnresetRun(steps, fs)
    && forall i {:trigger steps[i]} :: 0 <= i < |steps| ==> Careful(fs[i], steps[i], care)
  }

  lemma OnwardStays(f: Fleet, maxAttempts: int, care: Care)
    ensures Onward(f, f, maxAttempts, care)
  {
    assert Path([], [f], maxAttempts) && Joins([], [f], f, f, care);
  }

  lemma OnwardNext(f: Fleet, g: Fleet, s: Step, maxAttempts: int, care: Care)
    requires Onward(f, g, maxAttempts, care) && Permits(g, s) && ResetBy(g.db, s) == {} && Careful(g, s, care)
    ensures Onward(f, After(g, s, maxAttempts), maxAttempts, care)
  {
    var steps, fs :| Path(steps, fs, maxAttempts) && Joins(steps, fs, f, g, care);
    var steps2, fs2 := steps + [s], fs + [After(g, s, maxAttempts)];
    forall i | 0 <= i < |steps2|
      ensures Goes(steps2, fs2, i, maxAttempts, care)
    {
      if i < |steps| {
        assert steps2[i] == steps[i] && Permits(fs[i], steps[i]);
      }
    }
    AllGo(steps2, fs2, f, After(g, s, maxAttempts), maxAttempts, care);
  }

  lemma OnwardJoins(f: Fleet, g: Fleet, h: Fleet, maxAttempts: int, care: Care)
    requires Onward(f, g, maxAttempts, care) && Onward(g, h, maxAttempts, care)
    ensures Onward(f, h, maxAttempts, care)
  {
    var steps, fs :| Path(steps, fs, maxAttempts) && Joins(steps, fs, f, g, care);
    var more, gs :| Path(more, gs, maxAttempts) && Joins(more, gs, g, h, care);
    var all, hs := steps + more, fs + gs[1..];
    forall i | 0 <= i < |all|
      ensures Goes(all, hs, i, maxAttempts, care)
    {
      if i < |steps| {
        assert Permits(fs[i], steps[i]);
        assert all[i] == steps[i] && hs[i] == fs[i] && hs[i + 1] == fs[i + 1];
      } else {
        var k := i - |steps|;
        assert Permits(gs[k], more[k]);
        assert all[i] == more[k] && hs[i] == gs[k] && hs[i + 1] == gs[k + 1];
      }
    }
    AllGo(all, hs, f, h, maxAttempts, care);
  }

  /** The `i`th step is one that goes on from its state to the next. */
  ghost predicate Goes(steps: seq<Step>, fs: seq<Fleet>, i: nat, maxAttempts: int, care: Care) {
    && i < |steps| && i + 1 < |fs| && Permits(fs[i], steps[i]) && fs[i + 1] == After(fs[i], steps[i], maxAttempts)
    && ResetBy(fs[i].db, steps[i]) == {} && Careful(fs[i], steps[i], care)
  }

  lemma AllGo(steps: seq<Step>, fs: seq<Fleet>, f: Fleet, g: Fleet, maxAttempts: int, care: Care)
    requires |fs| == |steps| + 1 && fs[0] == f && fs[|steps|] == g
    requires forall i :: 0 <= i < |steps| ==> Goes(steps, fs, i, maxAttempts, care)
    ensures Onward(f, g, maxAttempts, care)
  {
    forall i | 0 <= i < |steps|
      ensures Permits(fs[i], steps[i]) && fs[i + 1] == After(fs[i], steps[i], maxAttempts)
      ensures ResetBy(fs[i].db, steps[i]) == {} && Careful(fs[i], steps[i], care)
    {
      assert Goes(steps, fs, i, maxAttempts, care);
    }
    assert Path(steps, fs, maxAttempts) && Joins(steps, fs, f, g, care);
  }

  lemma OnwardLooser(f: Fleet, g: Fleet, maxAttempts: int, care: Care, care2: Care)
    requires Onward(f, g, maxAttempts, care) && (care2.attentive ==> care.attentive) && (care2.newIds ==> care.newIds)
    requires care2.world.Some? ==> care.world == care2.world
    ensures Onward(f, g, maxAttempts, care2)
  {
    var steps, fs :| Path(steps, fs, maxAttempts) && Joins(steps, fs, f, g, care);
    forall i | 0 <= i < |steps|
      ensures Careful(fs[i], steps[i], care2)
    {
      assert Careful(fs[i], steps[i], care);
    }
    assert Joins(steps, fs, f, g, care2);
  }

  lemma {:induction false} PathOnce(steps: seq<Step>, fs: seq<Fleet>, maxAttempts: int, n: nat)
    requires Path(steps, fs, maxAttempts) && UnresetRun(steps, fs) && Once(fs[0]) && n <= |steps|
    ensures Once(fs[n])
  {
    if n > 0 {
      PathOnce(steps, fs, maxAttempts, n - 1);
      assert Permits(fs[n - 1], steps[n - 1]);
      UnresetIsClean(fs[n - 1], steps[n - 1]);
      StepOnce(fs[n - 1], steps[n - 1], maxAttempts);
    }
  }

  lemma OnwardOnce(f: Fleet, g: Fleet, maxAttempts: int, care: Care)
    requires Once(f) && Onward(f, g, maxAttempts, care)
    ensures Once(g)
  {
    var steps, fs :| Path(steps, fs, maxAttempts) && Joins(steps, fs, f, g, care);
    PathOnce(steps, fs, maxAttempts, |steps|);
  }

  lemma {:induction false} PathKeeps(steps: seq<Step>, fs: seq<Fleet>, maxAttempts: int, n: nat)
    requires Path(steps, fs, maxAttempts) && UnresetRun(steps, fs) && Inv(fs[0]) && n <= |steps|
    ensures Inv(fs[n])
  {
    if n > 0 {
      PathKeeps(steps, fs, maxAttempts, n - 1);
      assert Permits(fs[n - 1], steps[n - 1]);
      UnresetIsClean(fs[n - 1], steps[n - 1]);
      StepKeeps(fs[n - 1], steps[n - 1], maxAttempts);
    }
  }

  lemma OnwardKeeps(f: Fleet, g: Fleet, maxAttempts: int, care: Care)
    requires Inv(f) && Onward(f, g, maxAttempts, care)
    ensures Inv(g)
  {
    var steps, fs :| Path(steps, fs, maxAttempts) && Joins(steps, fs, f, g, care);
    PathKeeps(steps, fs, maxAttempts, |steps|);
  }

  // ---- Everything in flight is in somebody's hands ----

  ghost predicate Held(f: Fleet, id: string) {
    exists w: nat, i: nat :: HeldBy(f, w, i, id)
  }

  ghost predicate AllHeld(f: Fleet) {
    forall id :: id in f.db.table.rows && f.db.table.rows[id].status == InFlight ==> Held(f, id)
  }

  /** Every row in flight in `t2` was so in `t`. */
  ghost predicate NothingTakenUp(t: Table, t2: Table) {
    forall id :: id in t2.rows && t2.rows[id].status == InFlight ==> id in t.rows && t.rows[id].status == InFlight
  }

  lemma ExternalTakesNothing(db: Db, tx: DbOp)
    requires Allowed(db, tx) && Outside(tx)
    ensures NothingTakenUp(db.table, Next(db, tx).table)
  {
    forall id | id in Next(db, tx).table.rows && Next(db, tx).table.rows[id].status == InFlight
      ensures id in db.table.rows && db.table.rows[id].status == InFlight
    {
      match tx
      case Change(op) => InFlightComesFrom(db.table, op, id);
      case Force(p, to, expected) =>
        if Decide(db.owners, p, to, expected) == Steal {
          InFlightComesFrom(db.table, Recover(InFlightIn(db.table.rows, p)), id);
        }
      case _ =>
    }
  }

  /** Marking a live row takes it out of flight and takes nothing up. */
  lemma SettleFrees(db: Db, token: string, d: Delivery, outcome: Outcome, maxAttempts: int,
                    next: Time, error: string, limits: Limits, now: int)
    requires Reached(db.history, db.table) && Holds(db.table.rows, d.id, token, d.generation)
    ensures var db2 := ChangedAll(db, SettleOps(db.table, token, d, outcome, maxAttempts, next, error, limits, now));
      NothingTakenUp(db.table, db2.table)
      && (d.id in db2.table.rows ==> db2.table.rows[d.id].status != InFlight)
  {
    var ops := SettleOps(db.table, token, d, outcome, maxAttempts, next, error, limits, now);
    AllOfOne(db, ops[0]);
    MarkFrees(db.table, ops[0]);
    if |ops| == 2 {
      AllOfTwo(db, ops[0], ops[1]);
      TrimTakesNothing(Apply(db.table, ops[0]), ops[1]);
    }
  }

  lemma MarkFrees(t: Table, op: Op)
    requires Legal(t, op) && (op.Finish? || op.Retry? || op.Suspend?)
    ensures NothingTakenUp(t, Apply(t, op)) && op.id in Apply(t, op).rows && Apply(t, op).rows[op.id].status != InFlight
  {
  }

  lemma TrimTakesNothing(t: Table, op: Op)
    requires op.Trim?
    ensures NothingTakenUp(t, Apply(t, op))
    ensures forall id :: id in Apply(t, op).rows ==> id in t.rows && Apply(t, op).rows[id] == t.rows[id]
  {
  }

  /** Who held a row other than the popped one still holds it. */
  lemma StillHeld(f: Fleet, f2: Fleet, id: string)
    requires Held(f, id)
    requires forall v :: v in f.workers && f.workers[v].batch != [] ==>
               && v in f2.workers
               && (f2.workers[v].batch == f.workers[v].batch
                   || (f2.workers[v].batch == f.workers[v].batch[1..] && f.workers[v].batch[0].id != id))
    ensures Held(f2, id)
  {
    var w: nat, i: nat :| HeldBy(f, w, i, id);
    if f2.workers[w].batch == f.workers[w].batch {
      assert HeldBy(f2, w, i, id);
    } else {
      assert i > 0;
      assert f2.workers[w].batch[i - 1] == f.workers[w].batch[i];
      assert HeldBy(f2, w, i - 1, id);
    }
  }

  lemma GrabHolds(f: Fleet, s: Step, maxAttempts: int)
    requires Inv(f) && AllHeld(f) && Permits(f, s) && s.Grab?
    ensures AllHeld(After(f, s, maxAttempts))
  {
    var f2, k := After(f, s, maxAttempts), f.workers[s.w];
    var op := Claim(s.stamps, k.token, s.now);
    forall id | id in f2.db.table.rows && f2.db.table.rows[id].status == InFlight
      ensures Held(f2, id)
    {
      InFlightComesFrom(f.db.table, op, id);
      if id in s.stamps {
        GrabbedIsLive(f, op, id);
        var i: nat :| i < |s.order| && s.order[i] == id;
        assert f2.workers[s.w].batch[i] == f2.db.table.rows[id];
        assert HeldBy(f2, s.w, i, id);
      } else {
        StillHeld(f, f2, id);
      }
    }
  }

  lemma SettleHolds(f: Fleet, s: Step, maxAttempts: int)
    requires Inv(f) && AllHeld(f) && Permits(f, s) && s.Settle?
    ensures AllHeld(After(f, s, maxAttempts))
  {
    var f2, k := After(f, s, maxAttempts), f.workers[s.w];
    var d := k.batch[0];
    assert Live(f.db.table, d, k.token);
    SettleFrees(f.db, k.token, d, k.outcome.value, maxAttempts, s.next, s.error, s.limits, s.now);
    forall id | id in f2.db.table.rows && f2.db.table.rows[id].status == InFlight
      ensures Held(f2, id)
    {
      StillHeld(f, f2, id);
    }
  }

  lemma StepHolds(f: Fleet, s: Step, maxAttempts: int)
    requires Inv(f) && AllHeld(f) && Permits(f, s) && Attentive(f, s)
    ensures AllHeld(After(f, s, maxAttempts))
  {
    if s.Grab? {
      GrabHolds(f, s, maxAttempts);
    } else if s.Settle? {
      SettleHolds(f, s, maxAttempts);
    } else {
      if s.External? {
        ExternalTakesNothing(f.db, s.tx);
      }
      NothingNewHolds(f, After(f, s, maxAttempts));
    }
  }

  lemma NothingNewHolds(f: Fleet, f2: Fleet)
    requires AllHeld(f) && NothingTakenUp(f.db.table, f2.db.table)
    requires forall v :: v in f.workers && f.workers[v].batch != [] ==>
      v in f2.workers && f2.workers[v].batch == f.workers[v].batch
    ensures AllHeld(f2)
  {
    forall id | id in f2.db.table.rows && f2.db.table.rows[id].status == InFlight
      ensures Held(f2, id)
    {
      StillHeld(f, f2, id);
    }
  }

  lemma {:induction false} PathHolds(steps: seq<Step>, fs: seq<Fleet>, maxAttempts: int, n: nat)
    requires Path(steps, fs, maxAttempts) && UnresetRun(steps, fs) && AttentiveRun(steps, fs)
    requires Inv(fs[0]) && AllHeld(fs[0]) && n <= |steps|
    ensures AllHeld(fs[n])
  {
    if n > 0 {
      PathHolds(steps, fs, maxAttempts, n - 1);
      PathKeeps(steps, fs, maxAttempts, n - 1);
      var s := steps[n - 1];
      assert Permits(fs[n - 1], s) && Attentive(fs[n - 1], s);
      StepHolds(fs[n - 1], s, maxAttempts);
    }
  }

  lemma OnwardHolds(f: Fleet, g: Fleet, maxAttempts: int, care: Care)
    requires Inv(f) && AllHeld(f) && Onward(f, g, maxAttempts, care) && care.attentive
    ensures AllHeld(g)
  {
    var steps, fs :| Path(steps, fs, maxAttempts) && Joins(steps, fs, f, g, care);
    forall i | 0 <= i < |steps|
      ensures Attentive(fs[i], steps[i])
    {
      assert Careful(fs[i], steps[i], care);
    }
    PathHolds(steps, fs, maxAttempts, |steps|);
  }
}
