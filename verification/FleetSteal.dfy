/** Exactly which forced takeovers keep the wire in order: a takeover fences the marks of rows that
    have been posted already, so only rows that their workers have yet to post matter. */
module FleetSteal {
  import opened Deliveries
  import opened StoreSpec
  import opened Ownership
  import opened OwnershipRuns
  import opened Fleet
  import opened FleetRuns
  import opened FleetPaths
  import opened FleetClaims
  import opened FleetReset

  // ---- Workers whose first row is spent ----

  /** The claim on the row belongs to an earlier generation of its partition. */
  ghost predicate Fenced(db: Db, d: Delivery) {
    && d.partition in db.owners && d.generation < db.owners[d.partition].generation
    && (d.id in db.table.rows ==> db.table.rows[d.id].partition == d.partition)
  }

  /** What keeps a fenced claim from being held. */
  ghost predicate Guarded(db: Db) {
    GoodOwners(db.owners) && StampsAgreeOnceHandedOver(db)
  }

  lemma FencedIsNotHeld(db: Db, d: Delivery, token: string)
    requires Guarded(db) && Fenced(db, d)
    ensures !Holds(db.table.rows, d.id, token, d.generation)
  {
    if d.generation != 0 && d.id in db.table.rows && db.table.rows[d.id].status == InFlight {
      assert HandedOver(db.owners, d.partition);
      assert Agrees(db.owners, db.table.rows[d.id]);
    }
  }

  lemma GuardKept(db: Db, tx: DbOp)
    requires Guarded(db) && Allowed(db, tx)
    ensures Guarded(Next(db, tx))
  {
    GoodOwnersKept(db, tx);
    StampsKept(db, tx);
  }

  lemma FenceKept(db: Db, tx: DbOp, d: Delivery)
    requires Guarded(db) && Fenced(db, d) && Allowed(db, tx)
    requires tx.Change? && tx.op.Insert? ==> tx.op.d.id != d.id
    ensures Fenced(Next(db, tx), d)
  {
    EpochStep(db, tx, d.partition);
    if d.id in Next(db, tx).table.rows {
      SamePartition(db, tx, d.id);
    }
  }

  lemma SamePartition(db: Db, tx: DbOp, id: string)
    requires Allowed(db, tx) && id in Next(db, tx).table.rows && !(tx.Change? && tx.op.Insert? && tx.op.d.id == id)
    ensures id in db.table.rows && Next(db, tx).table.rows[id].partition == db.table.rows[id].partition
  {
  }

  /** The workers `spent` have posted the first row in hand, and its claim is fenced. */
  ghost predicate Spent(f: Fleet, spent: set<nat>) {
    forall w :: w in spent ==>
      && w in f.workers && f.workers[w].batch != [] && f.workers[w].outcome.Some?
      && Fenced(f.db, f.workers[w].batch[0])
  }

  /** The fleet as if those workers had lost their marks. */
  function Without(f: Fleet, spent: set<nat>): Fleet {
    f.(workers := map w | w in f.workers ::
         if w in spent && f.workers[w].batch != [] then Popped(f.workers[w]) else f.workers[w])
  }

  /** But for its spent workers the fleet is in order. */
  ghost predicate OrderedBut(f: Fleet, spent: set<nat>) {
    Guarded(f.db) && Spent(f, spent) && Inv(Without(f, spent))
  }

  // ---- Going on ----

  /** The marks of a spent worker do nothing. */
  lemma SpentMarksNothing(f: Fleet, spent: set<nat>, s: Step, maxAttempts: int)
    requires OrderedBut(f, spent) && Permits(f, s) && (s.Settle? || s.Lose?) && s.w in spent
    ensures OrderedBut(After(f, s, maxAttempts), spent - {s.w})
  {
    var k, f2 := f.workers[s.w], After(f, s, maxAttempts);
    FencedIsNotHeld(f.db, k.batch[0], k.token);
    assert f2 == f.(workers := f.workers[s.w := Popped(k)]);
    assert Without(f2, spent - {s.w}).workers == Without(f, spent).workers;
    assert Without(f2, spent - {s.w}) == Without(f, spent);
  }

  lemma SpentQuits(f: Fleet, spent: set<nat>, s: Step, maxAttempts: int)
    requires OrderedBut(f, spent) && Permits(f, s) && s.Quit? && s.w in spent
    ensures OrderedBut(After(f, s, maxAttempts), spent - {s.w})
  {
    var f2 := After(f, s, maxAttempts);
    StepKeeps(Without(f, spent), s, maxAttempts);
    assert Without(f2, spent - {s.w}).workers == After(Without(f, spent), s, maxAttempts).workers;
  }

  /** Every other step is also one of the fleet without the spent rows. */
  lemma OthersGoOn(f: Fleet, spent: set<nat>, s: Step, maxAttempts: int)
    requires OrderedBut(f, spent) && Permits(f, s) && ResetBy(f.db, s) == {} && Fresh(f, s)
    requires !((s.Settle? || s.Lose? || s.Quit?) && s.w in spent)
    ensures OrderedBut(After(f, s, maxAttempts), spent)
  {
    var f0, f2 := Without(f, spent), After(f, s, maxAttempts);
    WithoutPermits(f, spent, s);
    StepKeeps(f0, s, maxAttempts);
    WithoutSteps(f, spent, s, maxAttempts);
    OthersKeepSpent(f, spent, s, maxAttempts);
  }

  lemma WithoutPermits(f: Fleet, spent: set<nat>, s: Step)
    requires Spent(f, spent) && Permits(f, s) && !((s.Settle? || s.Lose? || s.Quit?) && s.w in spent)
    ensures Permits(Without(f, spent), s)
  {
  }

  /** A worker that is not spent changes in the one fleet as in the other. */
  lemma WithoutUpdate(f: Fleet, f2: Fleet, spent: set<nat>, w: nat, k: Worker)
    requires w !in spent && f2.workers == f.workers[w := k]
    ensures Without(f2, spent).workers == Without(f, spent).workers[w := k]
  {
  }

  lemma WithoutSteps(f: Fleet, spent: set<nat>, s: Step, maxAttempts: int)
    requires Spent(f, spent) && Permits(f, s) && !((s.Settle? || s.Lose? || s.Quit?) && s.w in spent)
    ensures Permits(Without(f, spent), s)
    ensures Without(After(f, s, maxAttempts), spent) == After(Without(f, spent), s, maxAttempts)
  {
    WithoutPermits(f, spent, s);
    var f2 := After(f, s, maxAttempts);
    if s.External? {
      assert Without(f2, spent).workers == Without(f, spent).workers;
    } else if s.Quit? {
      assert Without(f2, spent).workers == Without(f, spent).workers - {s.w};
    } else {
      WithoutUpdate(f, f2, spent, s.w, f2.workers[s.w]);
    }
  }

  lemma OthersKeepSpent(f: Fleet, spent: set<nat>, s: Step, maxAttempts: int)
    requires OrderedBut(f, spent) && Permits(f, s) && Fresh(f, s)
    requires !((s.Settle? || s.Lose? || s.Quit?) && s.w in spent)
    ensures Guarded(After(f, s, maxAttempts).db) && Spent(After(f, s, maxAttempts), spent)
  {
    var f2 := After(f, s, maxAttempts);
    match s
    case External(tx) =>
      GuardKept(f.db, tx);
      forall w | w in spent
        ensures Fenced(f2.db, f.workers[w].batch[0])
      {
        assert HeldBy(f, w, 0, f.workers[w].batch[0].id);
        FenceKept(f.db, tx, f.workers[w].batch[0]);
      }
    case Grab(w, order, stamps, now) =>
      var tx := Change(Claim(stamps, f.workers[w].token, now));
      GuardKept(f.db, tx);
      forall v | v in spent
        ensures Fenced(f2.db, f.workers[v].batch[0])
      {
        FenceKept(f.db, tx, f.workers[v].batch[0]);
      }
    case Settle(w, next, error, limits, now) =>
      var k := f.workers[w];
      var ops := SettleOps(f.db.table, k.token, k.batch[0], k.outcome.value, maxAttempts, next, error, limits, now);
      MarksKeepGuard(f.db, ops);
      forall v | v in spent
        ensures Fenced(f2.db, f.workers[v].batch[0])
      {
        MarksKeepFence(f.db, ops, f.workers[v].batch[0]);
      }
    case _ =>
  }

  /** No changes, or those of a mark. */
  ghost predicate SomeMarks(t: Table, ops: seq<Op>) {
    ops == [] || Marks(t, ops)
  }

  lemma MarksKeepGuard(db: Db, ops: seq<Op>)
    requires Guarded(db) && SomeMarks(db.table, ops)
    ensures Guarded(ChangedAll(db, ops))
  {
    if |ops| == 1 {
      assert ops == [ops[0]];
      AllOfOne(db, ops[0]);
      GuardKept(db, Change(ops[0]));
    } else if |ops| == 2 {
      assert ops == [ops[0], ops[1]];
      AllOfTwo(db, ops[0], ops[1]);
      GuardKept(db, Change(ops[0]));
      GuardKept(Changed(db, ops[0]), Change(ops[1]));
    }
  }

  lemma MarksKeepFence(db: Db, ops: seq<Op>, d: Delivery)
    requires Guarded(db) && SomeMarks(db.table, ops) && Fenced(db, d)
    ensures Fenced(ChangedAll(db, ops), d)
  {
    if |ops| == 1 {
      assert ops == [ops[0]];
      AllOfOne(db, ops[0]);
      FenceKept(db, Change(ops[0]), d);
    } else if |ops| == 2 {
      assert ops == [ops[0], ops[1]];
      AllOfTwo(db, ops[0], ops[1]);
      GuardKept(db, Change(ops[0]));
      FenceKept(db, Change(ops[0]), d);
      FenceKept(Changed(db, ops[0]), Change(ops[1]), d);
    }
  }

  /** But for some spent workers the fleet is in order. */
  ghost predicate NearlyInOrder(f: Fleet) {
    exists spent :: OrderedBut(f, spent)
  }

  lemma StepStaysOrdered(f: Fleet, s: Step, maxAttempts: int)
    requires NearlyInOrder(f) && Permits(f, s) && ResetBy(f.db, s) == {} && Fresh(f, s)
    ensures NearlyInOrder(After(f, s, maxAttempts))
  {
    var spent :| OrderedBut(f, spent);
    if (s.Settle? || s.Lose?) && s.w in spent {
      SpentMarksNothing(f, spent, s, maxAttempts);
    } else if s.Quit? && s.w in spent {
      SpentQuits(f, spent, s, maxAttempts);
    } else {
      OthersGoOn(f, spent, s, maxAttempts);
    }
  }

  lemma {:induction false} PathStaysOrdered(steps: seq<Step>, fs: seq<Fleet>, maxAttempts: int, n: nat)
    requires Path(steps, fs, maxAttempts) && UnresetRun(steps, fs) && n <= |steps| && NearlyInOrder(fs[0])
    requires forall i {:trigger steps[i]} :: 0 <= i < |steps| ==> Fresh(fs[i], steps[i])
    ensures NearlyInOrder(fs[n])
  {
    if n > 0 {
      PathStaysOrdered(steps, fs, maxAttempts, n - 1);
      var s := steps[n - 1];
      assert Permits(fs[n - 1], s) && Fresh(fs[n - 1], s);
      StepStaysOrdered(fs[n - 1], s, maxAttempts);
    }
  }

  lemma OnwardStaysOrdered(f: Fleet, g: Fleet, maxAttempts: int)
    requires NearlyInOrder(f) && Onward(f, g, maxAttempts, NEW_IDS)
    ensures WireOrdered(g.wire)
  {
    var steps, fs :| Path(steps, fs, maxAttempts) && Joins(steps, fs, f, g, NEW_IDS);
    forall i | 0 <= i < |steps|
      ensures Fresh(fs[i], steps[i])
    {
      assert Careful(fs[i], steps[i], NEW_IDS);
    }
    PathStaysOrdered(steps, fs, maxAttempts, |steps|);
    var spent :| OrderedBut(g, spent);
  }

  // ---- The takeover ----

  /** Every held row that the step resets has been posted by its worker, who waits to mark it. */
  ghost predicate OnlyPosted(f: Fleet, s: Step) {
    forall w, i, id :: HeldBy(f, w, i, id) && id in ResetBy(f.db, s) ==> i == 0 && f.workers[w].outcome.Some?
  }

  /** The workers that hold a row that the step resets. */
  ghost function Robbed(f: Fleet, s: Step): set<nat> {
    set w | w in f.workers && f.workers[w].batch != [] && f.workers[w].batch[0].id in ResetBy(f.db, s)
  }

  /** The takeover is gentle once the posted rows are out of the workers' hands. */
  lemma GentleWithout(f: Fleet, s: Step)
    requires OnlyPosted(f, s)
    ensures Gentle(Without(f, Robbed(f, s)), s)
  {
    var f0 := Without(f, Robbed(f, s));
    forall w: nat, i: nat, id | HeldBy(f0, w, i, id)
      ensures id !in ResetBy(f0.db, s)
    {
      var at := if w in Robbed(f, s) then i + 1 else i;
      assert f0.workers[w].batch[i] == f.workers[w].batch[at];
      assert HeldBy(f, w, at, id);
    }
  }

  lemma WithoutInOrder(f: Fleet, spent: set<nat>)
    requires Inv(f)
    ensures Inv(Without(f, spent))
  {
    var f0 := Without(f, spent);
    UnchangedKeeps(f, f0);
    WireKept(f, f0);
  }

  lemma RobbedAreSpent(f: Fleet, s: Step, maxAttempts: int)
    requires Inv(f) && Permits(f, s) && s.External? && s.tx.Force? && OnlyPosted(f, s)
    requires GoodOwners(f.db.owners) && StampsAgree(f.db)
    ensures Spent(After(f, s, maxAttempts), Robbed(f, s))
  {
    var f2 := After(f, s, maxAttempts);
    forall w | w in Robbed(f, s)
      ensures f.workers[w].outcome.Some? && Fenced(f2.db, f.workers[w].batch[0])
    {
      var d := f.workers[w].batch[0];
      assert Live(f.db.table, d, f.workers[w].token);
      assert HeldBy(f, w, 0, d.id);
      assert Agrees(f.db.owners, f.db.table.rows[d.id]);
      ResetFrees(f, s, maxAttempts, d.id);
    }
  }

  /** In a database whose claims agree with its owner rows, a takeover keeps the wire in order,
      whatever follows without resets and under fresh ids, if and only if every held row that it
      resets has been posted already. */
  lemma TakeoverExactly(f: Fleet, s: Step, maxAttempts: int)
    requires Inv(f) && Permits(f, s) && s.External? && s.tx.Force?
    requires GoodOwners(f.db.owners) && StampsAgree(f.db) && f.db.owners != map[] && Numbered(f.db)
    ensures OnlyPosted(f, s) <==>
      forall g :: Onward(After(f, s, maxAttempts), g, maxAttempts, NEW_IDS) ==> WireOrdered(g.wire)
  {
    var f1 := After(f, s, maxAttempts);
    if OnlyPosted(f, s) {
      TakeoverLeavesOrder(f, s, maxAttempts);
      forall g | Onward(f1, g, maxAttempts, NEW_IDS)
        ensures WireOrdered(g.wire)
      {
        OnwardStaysOrdered(f1, g, maxAttempts);
      }
    } else {
      var w: nat, i: nat, id :|
        HeldBy(f, w, i, id) && id in ResetBy(f.db, s) && !(i == 0 && f.workers[w].outcome.Some?);
      var g := ResetGoesBack(f, s, maxAttempts, w, i, id);
      assert Onward(f1, g, maxAttempts, NEW_IDS);
    }
  }

  lemma TakeoverLeavesOrder(f: Fleet, s: Step, maxAttempts: int)
    requires Inv(f) && Permits(f, s) && s.External? && s.tx.Force? && OnlyPosted(f, s)
    requires GoodOwners(f.db.owners) && StampsAgree(f.db) && f.db.owners != map[]
    ensures OrderedBut(After(f, s, maxAttempts), Robbed(f, s))
  {
    var f1, f0 := After(f, s, maxAttempts), Without(f, Robbed(f, s));
    GoodOwnersKept(f.db, s.tx);
    StampsKept(f.db, s.tx);
    RobbedAreSpent(f, s, maxAttempts);
    WithoutInOrder(f, Robbed(f, s));
    GentleWithout(f, s);
    StepKeeps(f0, s, maxAttempts);
    assert Without(f1, Robbed(f, s)) == After(f0, s, maxAttempts);
  }
}
