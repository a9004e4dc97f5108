/** A fleet can always drain: from every state in which everything in flight is in somebody's hands,
    whatever the posts come to and however long retries wait, steps that reset nothing, lose no mark
    and leave nothing behind lead to a state with nothing unfinished, within the budgets. */
module FleetEmpties {
  import opened Deliveries
  import opened StoreSpec
  import opened Ownership
  import opened OwnershipRuns
  import opened Fleet
  import opened FleetRuns
  import opened FleetOnce
  import opened FleetPaths
  import opened FleetPosts
  import opened FleetWork
  import opened FleetClaims
  import opened FleetDrains

  /** Steps of workers in a world, none of whom loses a mark or leaves anything behind. */
  function Serving(world: World): Care {
    Care(true, false, Some(world))
  }

  /** What draining starts from. The limit is on attempts made so far. */
  ghost predicate Servable(f: Fleet, limit: nat) {
    && Inv(f) && AllHeld(f) && WithinLimit(f.db.table, limit)
    && GoodOwners(f.db.owners) && Numbered(f.db)
  }

  // ---- Serving keeps a fleet servable ----

  lemma MarksKeepNumbers(db: Db, ops: seq<Op>)
    requires Numbered(db) && |ops| <= 2 && (ops != [] ==> Legal(db.table, ops[0]) && !ops[0].Insert?)
    requires |ops| == 2 ==> ops[1].Trim?
    ensures Numbered(ChangedAll(db, ops)) && ChangedAll(db, ops).owners == db.owners
  {
    if |ops| == 1 {
      assert ops == [ops[0]];
      AllOfOne(db, ops[0]);
      NumbersKept(db, ops[0]);
    } else if |ops| == 2 {
      assert ops == [ops[0], ops[1]];
      AllOfTwo(db, ops[0], ops[1]);
      NumbersKept(db, ops[0]);
      NumbersKept(Changed(db, ops[0]), ops[1]);
    }
  }

  lemma OwnersStayGood(f: Fleet, s: Step, maxAttempts: int, world: World)
    requires GoodOwners(f.db.owners) && Numbered(f.db) && Permits(f, s) && Working(f, s, world)
    ensures GoodOwners(After(f, s, maxAttempts).db.owners) && Numbered(After(f, s, maxAttempts).db)
  {
    match s
    case External(tx) =>
      GoodOwnersKept(f.db, tx);
      OwnershipKeepsNumbers(f.db, tx);
    case Grab(w, _, stamps, now) => NumbersKept(f.db, Claim(stamps, f.workers[w].token, now));
    case Settle(w, next, error, limits, now) =>
      var k := f.workers[w];
      MarksKeepNumbers(f.db, SettleOps(f.db.table, k.token, k.batch[0], k.outcome.value, maxAttempts, next, error,
                                       limits, now));
    case _ =>
  }

  lemma StepServable(f: Fleet, s: Step, maxAttempts: int, limit: nat, world: World)
    requires Servable(f, limit) && 1 <= limit && maxAttempts <= limit
    requires Permits(f, s) && ResetBy(f.db, s) == {} && Careful(f, s, Serving(world))
    ensures Servable(After(f, s, maxAttempts), limit)
  {
    UnresetIsClean(f, s);
    StepKeeps(f, s, maxAttempts);
    StepHolds(f, s, maxAttempts);
    StepWithinLimit(f, s, maxAttempts, limit);
    OwnersStayGood(f, s, maxAttempts, world);
  }

  lemma {:induction false} PathServable(steps: seq<Step>, fs: seq<Fleet>, maxAttempts: int, limit: nat, world: World,
                                        n: nat)
    requires Path(steps, fs, maxAttempts) && UnresetRun(steps, fs) && n <= |steps|
    requires forall i {:trigger steps[i]} :: 0 <= i < |steps| ==> Careful(fs[i], steps[i], Serving(world))
    requires Servable(fs[0], limit) && 1 <= limit && maxAttempts <= limit
    ensures Servable(fs[n], limit)
  {
    if n > 0 {
      PathServable(steps, fs, maxAttempts, limit, world, n - 1);
      assert Permits(fs[n - 1], steps[n - 1]);
      StepServable(fs[n - 1], steps[n - 1], maxAttempts, limit, world);
    }
  }

  lemma ServingIsCalm(steps: seq<Step>, fs: seq<Fleet>, f: Fleet, g: Fleet, world: World)
    requires Joins(steps, fs, f, g, Serving(world))
    ensures forall k {:trigger steps[k]} :: 0 <= k < |steps| ==> Calm(fs[k], steps[k])
  {
    forall k | 0 <= k < |steps|
      ensures Calm(fs[k], steps[k])
    {
      assert Careful(fs[k], steps[k], Serving(world));
    }
  }

  /** Serving keeps a fleet servable and raises nobody's budget. */
  lemma OnwardServable(f: Fleet, g: Fleet, maxAttempts: int, limit: nat, world: World, sub: string)
    requires Servable(f, limit) && 1 <= limit && maxAttempts <= limit && Onward(f, g, maxAttempts, Serving(world))
    ensures Servable(g, limit)
    ensures 0 <= Budget(g.db.table, sub, limit) <= Budget(f.db.table, sub, limit)
    ensures Budget(g.db.table, sub, limit) == 0 <==> UnfinishedRows(g.db.table, sub) == {}
  {
    var steps, fs :| Path(steps, fs, maxAttempts) && Joins(steps, fs, f, g, Serving(world));
    PathServable(steps, fs, maxAttempts, limit, world, |steps|);
    ServingIsCalm(steps, fs, f, g, world);
    WorkIsBounded(steps, fs, maxAttempts, limit, 0, |steps|, sub);
    BudgetRange(g.db.history, g.db.table, limit, sub);
  }

  // ---- One row further ----

  /** The worker posts its first row, unless it has already, and marks it. */
  lemma PostAndMark(f: Fleet, w: nat, maxAttempts: int, limit: nat, world: World, sub: string) returns (g: Fleet)
    requires Servable(f, limit) && 1 <= limit && maxAttempts <= limit && w in f.workers && f.workers[w].batch != []
    ensures Onward(f, g, maxAttempts, Serving(world)) && Servable(g, limit)
    ensures w in g.workers && g.workers[w].batch == f.workers[w].batch[1..]
    ensures Budget(g.db.table, sub, limit) + (if f.workers[w].batch[0].subscriber == sub then 1 else 0)
            <= Budget(f.db.table, sub, limit)
  {
    OnwardStays(f, maxAttempts, Serving(world));
    var f1 := f;
    if f.workers[w].outcome == None {
      var send := Send(w, world.outcome(f));
      StepServable(f, send, maxAttempts, limit, world);
      OnwardNext(f, f, send, maxAttempts, Serving(world));
      f1 := After(f, send, maxAttempts);
    }
    var mark := Settle(w, world.next(f1), "", world.limits(f1), world.now(f1));
    StepServable(f1, mark, maxAttempts, limit, world);
    StepUsesBudget(f1, mark, sub, maxAttempts, limit);
    OnwardNext(f, f1, mark, maxAttempts, Serving(world));
    g := After(f1, mark, maxAttempts);
  }

  /** The worker posts and marks everything up to its `i`th row. */
  lemma {:induction false} WorksThrough(f: Fleet, w: nat, i: nat, maxAttempts: int, limit: nat, world: World,
                                        sub: string) returns (g: Fleet)
    requires Servable(f, limit) && 1 <= limit && maxAttempts <= limit
    requires w in f.workers && i < |f.workers[w].batch| && f.workers[w].batch[i].subscriber == sub
    ensures Onward(f, g, maxAttempts, Serving(world)) && Servable(g, limit)
    ensures Budget(g.db.table, sub, limit) < Budget(f.db.table, sub, limit)
    decreases i
  {
    g := PostAndMark(f, w, maxAttempts, limit, world, sub);
    if i > 0 {
      var f1 := g;
      g := WorksThrough(f1, w, i - 1, maxAttempts, limit, world, sub);
      OnwardJoins(f, f1, g, maxAttempts, Serving(world));
    }
  }

  /** A worker of the partition's owner takes the first row in line. */
  lemma TakesFirst(f: Fleet, id: string, maxAttempts: int, limit: nat, world: World, sub: string) returns (g: Fleet)
    requires Servable(f, limit) && 1 <= limit && maxAttempts <= limit
    requires IsFirst(f.db.table, sub, id)
    requires forall now :: Due(f.db.table.rows[id], now) ==> Claimable(f.db.table, id, now)
    ensures Onward(f, g, maxAttempts, Serving(world)) && Servable(g, limit)
    ensures Budget(g.db.table, sub, limit) < Budget(f.db.table, sub, limit)
  {
    OnwardStays(f, maxAttempts, Serving(world));
    var f1 := OpenClaims(f, f, maxAttempts, Serving(world));
    var f2, token, generation := FindGrant(f, f1, f.db.table.rows[id].partition, maxAttempts, Serving(world));
    OpenStays(f1, f2);
    var v, op;
    g, v, op := ClaimRow(f, f2, id, token, generation, maxAttempts, Serving(world));
    assert Works(f.db.table, op, sub);
    ChangeUsesBudget(f.db.history, f.db.table, op, sub, limit);
    OnwardServable(f, g, maxAttempts, limit, world, sub);
  }

  /** As long as a subscriber has something unfinished, somebody can use up some of its budget. */
  lemma OneFurther(f: Fleet, maxAttempts: int, limit: nat, world: World, sub: string) returns (g: Fleet)
    requires Servable(f, limit) && 1 <= limit && maxAttempts <= limit && UnfinishedRows(f.db.table, sub) != {}
    ensures Onward(f, g, maxAttempts, Serving(world)) && Servable(g, limit)
    ensures Budget(g.db.table, sub, limit) < Budget(f.db.table, sub, limit)
  {
    var id := FirstRow(f.db.history, f.db.table, sub);
    if f.db.table.rows[id].status == InFlight {
      var w: nat, i: nat :| HeldBy(f, w, i, id);
      assert Live(f.db.table, f.workers[w].batch[i], f.workers[w].token);
      g := WorksThrough(f, w, i, maxAttempts, limit, world, sub);
    } else {
      g := TakesFirst(f, id, maxAttempts, limit, world, sub);
    }
  }

  // ---- To the end ----

  lemma {:induction false} Finishes(f: Fleet, maxAttempts: int, limit: nat, world: World,
                                    sub: string) returns (g: Fleet)
    requires Servable(f, limit) && 1 <= limit && maxAttempts <= limit
    ensures Onward(f, g, maxAttempts, Serving(world)) && Servable(g, limit) && UnfinishedRows(g.db.table, sub) == {}
    decreases Budget(f.db.table, sub, limit)
  {
    OnwardStays(f, maxAttempts, Serving(world));
    OnwardServable(f, f, maxAttempts, limit, world, sub);
    g := f;
    if UnfinishedRows(f.db.table, sub) != {} {
      var f1 := OneFurther(f, maxAttempts, limit, world, sub);
      g := Finishes(f1, maxAttempts, limit, world, sub);
      OnwardJoins(f, f1, g, maxAttempts, Serving(world));
    }
  }

  lemma {:induction false} FinishesAll(f: Fleet, maxAttempts: int, limit: nat, world: World,
                                       subs: set<string>) returns (g: Fleet)
    requires Servable(f, limit) && 1 <= limit && maxAttempts <= limit
    ensures Onward(f, g, maxAttempts, Serving(world)) && Servable(g, limit)
    ensures forall sub :: sub in subs ==> UnfinishedRows(g.db.table, sub) == {}
    decreases |subs|
  {
    OnwardStays(f, maxAttempts, Serving(world));
    g := f;
    if subs != {} {
      var sub :| sub in subs;
      var f1 := Finishes(f, maxAttempts, limit, world, sub);
      g := FinishesAll(f1, maxAttempts, limit, world, subs - {sub});
      OnwardJoins(f, f1, g, maxAttempts, Serving(world));
      OnwardStays(f1, maxAttempts, Serving(world));
      OnwardServable(f1, f1, maxAttempts, limit, world, sub);
      OnwardServable(f1, g, maxAttempts, limit, world, sub);
    }
  }

  /** The path drains the fleet: every subscriber's rows come to an end, and no subscriber has more
      claims and marks on the way than its budget allows. */
  ghost predicate Drains(steps: seq<Step>, fs: seq<Fleet>, limit: nat)
    requires |fs| == |steps| + 1
  {
    forall sub ::
      && UnfinishedRows(fs[|steps|].db.table, sub) == {}
      && Worked(steps, fs, 0, |steps|, sub) <= Budget(fs[0].db.table, sub, limit)
  }

  /** Draining: from every servable state, whatever the posts come to and however long retries wait,
      steps that reset nothing, lose no mark, leave nothing behind and enqueue nothing lead to a
      state in which nothing at all is unfinished, within every subscriber's budget. */
  lemma EverythingDrains(f: Fleet, maxAttempts: int, limit: nat, world: World)
    returns (steps: seq<Step>, fs: seq<Fleet>)
    requires Servable(f, limit) && 1 <= limit && maxAttempts <= limit
    ensures Path(steps, fs, maxAttempts) && fs[0] == f && UnresetRun(steps, fs) && Drains(steps, fs, limit)
    ensures forall i :: 0 <= i < |steps| ==> Attentive(fs[i], steps[i]) && Working(fs[i], steps[i], world)
  {
    var subs := set id | id in f.db.table.rows :: f.db.table.rows[id].subscriber;
    var g := FinishesAll(f, maxAttempts, limit, world, subs);
    steps, fs :| Path(steps, fs, maxAttempts) && Joins(steps, fs, f, g, Serving(world));
    ServingIsCalm(steps, fs, f, g, world);
    forall i | 0 <= i < |steps|
      ensures Attentive(fs[i], steps[i]) && Working(fs[i], steps[i], world)
    {
      assert Careful(fs[i], steps[i], Serving(world));
    }
    OnwardStays(f, maxAttempts, Serving(world));
    forall sub
      ensures UnfinishedRows(g.db.table, sub) == {}
      ensures Worked(steps, fs, 0, |steps|, sub) <= Budget(f.db.table, sub, limit)
    {
      if sub !in subs {
        assert UnfinishedRows(f.db.table, sub) == {};
      }
      OnwardServable(f, f, maxAttempts, limit, world, sub);
      OnwardServable(f, g, maxAttempts, limit, world, sub);
      WorkIsBounded(steps, fs, maxAttempts, limit, 0, |steps|, sub);
    }
  }

  // ---- Runs ----

  lemma {:induction false} RunKeepsOwnersGood(steps: seq<Step>, fs: seq<Fleet>, maxAttempts: int, k: nat)
    requires Passage(steps, fs, maxAttempts) && k <= |steps|
    ensures GoodOwners(fs[k].db.owners)
  {
    if k > 0 {
      RunKeepsOwnersGood(steps, fs, maxAttempts, k - 1);
      var f, s := fs[k - 1], steps[k - 1];
      assert Permits(f, s);
      if s.External? {
        GoodOwnersKept(f.db, s.tx);
      } else if s.Settle? {
        var w := f.workers[s.w];
        OwnersUntouched(f.db, SettleOps(f.db.table, w.token, w.batch[0], w.outcome.value, maxAttempts, s.next, s.error,
                                        s.limits, s.now));
      }
    }
  }

  lemma {:induction false} OwnersUntouched(db: Db, ops: seq<Op>)
    ensures ChangedAll(db, ops).owners == db.owners
    decreases |ops|
  {
    if ops != [] {
      OwnersUntouched(Changed(db, ops[0]), ops[1..]);
    }
  }

  /** So every run in which no held row is reset, no mark is lost and no worker leaves with rows in
      hand can be drained at any point, with maxAttempts plus the most resets of a row as limit. */
  lemma RunsDrain(run: seq<Step>, states: seq<Fleet>, maxAttempts: int, k: nat, resets: nat, world: World)
    returns (steps: seq<Step>, fs: seq<Fleet>)
    requires Passage(run, states, maxAttempts) && GentleRun(run, states) && AttentiveRun(run, states) && k <= |run|
    requires maxAttempts >= 1 && Numbered(states[k].db)
    requires forall sub, n :: ResetsOf(run, states, k, sub, n) <= resets
    ensures Path(steps, fs, maxAttempts) && fs[0] == states[k] && UnresetRun(steps, fs)
    ensures Drains(steps, fs, maxAttempts + resets)
    ensures forall i :: 0 <= i < |steps| ==> Attentive(fs[i], steps[i]) && Working(fs[i], steps[i], world)
  {
    GentleRunKeeps(run, states, maxAttempts, k);
    AttentiveRunHolds(run, states, maxAttempts, k);
    LimitRises(run, states, maxAttempts, k, resets);
    RunKeepsOwnersGood(run, states, maxAttempts, k);
    steps, fs := EverythingDrains(states[k], maxAttempts, maxAttempts + resets, world);
  }
}
