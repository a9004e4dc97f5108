/** A fleet that loses nothing never gets stuck: what is unfinished is in somebody's hands or can
    be claimed. With bounded work (FleetWork.dfy) it drains. */
module FleetDrains {
  import opened Deliveries
  import opened StoreSpec
  import opened Queues
  import opened Refinement
  import opened StoreRuns
  import opened Tokens
  import opened Ownership
  import opened OwnershipRuns
  import opened Fleet
  import opened FleetRuns
  import opened FleetPaths
  import opened FleetWork
  import opened FleetClaims

  /** The first unfinished row of a subscriber is in flight, or it can be claimed whenever it is due. */
  lemma FirstRow(h: seq<Op>, t: Table, s: string) returns (id: string)
    requires Reached(h, t) && UnfinishedRows(t, s) != {}
    ensures IsFirst(t, s, id)
    ensures t.rows[id].status == InFlight || forall now :: Due(t.rows[id], now) ==> Claimable(t, id, now)
  {
    var q := ReachedMirrors(h, t, s);
    FrontIsFrontier(t, s, q);
    var some :| some in UnfinishedRows(t, s);
    assert Fits(some, t.rows[some], q);
    id := q.line[0];
    assert Fits(id, t.rows[id], q);
    HeadComesFirst(t, s, q);
  }

  lemma HeadComesFirst(t: Table, s: string, q: Queue)
    requires Mirrors(t, s, q) && q.line != []
    ensures q.line[0] in t.rows && HeadOfLine(t.rows, q.line[0])
  {
    var id := q.line[0];
    assert Fits(id, t.rows[id], q);
    forall j | j in t.rows && t.rows[j].subscriber == s && Unfinished(t.rows[j])
      ensures t.rows[id].sequence <= t.rows[j].sequence
    {
      assert Fits(j, t.rows[j], q);
    }
  }

  lemma {:induction false} AttentiveRunHolds(steps: seq<Step>, fs: seq<Fleet>, maxAttempts: int, k: nat)
    requires Passage(steps, fs, maxAttempts) && GentleRun(steps, fs) && AttentiveRun(steps, fs) && k <= |steps|
    ensures AllHeld(fs[k])
  {
    if k > 0 {
      AttentiveRunHolds(steps, fs, maxAttempts, k - 1);
      GentleRunKeeps(steps, fs, maxAttempts, k - 1);
      var s := steps[k - 1];
      assert Permits(fs[k - 1], s) && Attentive(fs[k - 1], s);
      StepHolds(fs[k - 1], s, maxAttempts);
    }
  }

  /** A worker with rows in hand can always go on: post the first, or mark it. */
  ghost predicate CanAct(f: Fleet, w: nat) {
    && w in f.workers && f.workers[w].batch != []
    && ((forall outcome :: Permits(f, Send(w, outcome)))
        || (forall next, error, limits, now :: Permits(f, Settle(w, next, error, limits, now))))
  }

  /** In every run in which no held row is reset, no mark is lost and no worker quits with rows in
      hand, the first unfinished row of every subscriber that has one is held by a worker that can
      go on, or can be claimed at every time from its next attempt on. */
  lemma NeverStuck(steps: seq<Step>, fs: seq<Fleet>, maxAttempts: int, k: nat, sub: string) returns (id: string)
    requires Passage(steps, fs, maxAttempts) && GentleRun(steps, fs) && AttentiveRun(steps, fs) && k <= |steps|
    requires UnfinishedRows(fs[k].db.table, sub) != {}
    ensures IsFirst(fs[k].db.table, sub, id)
    ensures (exists w: nat, i: nat :: HeldBy(fs[k], w, i, id) && CanAct(fs[k], w))
      || (forall now :: Due(fs[k].db.table.rows[id], now) ==> Claimable(fs[k].db.table, id, now))
  {
    var f := fs[k];
    GentleRunKeeps(steps, fs, maxAttempts, k);
    AttentiveRunHolds(steps, fs, maxAttempts, k);
    id := FirstRow(f.db.history, f.db.table, sub);
    if f.db.table.rows[id].status == InFlight {
      var w: nat, i: nat :| HeldBy(f, w, i, id);
      assert CanAct(f, w);
    }
  }

  /** Somebody may make that claim: anybody where there are no owner rows, and otherwise a worker of
      the partition's owner, unless the partition is being handed over. */
  lemma SomebodyMayClaim(db: Db, id: string, now: int) returns (token: string, generation: nat)
    requires GoodOwners(db.owners) && Claimable(db.table, id, now)
    requires db.owners == map[] || (MetadataComplete(db) && db.owners[db.table.rows[id].partition].state == Active)
    ensures Grants(db, db.table.rows[id].partition, token, generation)
    ensures Allowed(db, Change(Claim(map[id := generation], token, now)))
  {
    token, generation := OwnerID(0), 1;
    if db.owners != map[] {
      token, generation := OwnersToken(db.owners, db.table.rows[id].partition);
    }
    GrantAllows(db, Claim(map[id := generation], token, now), id);
  }

  /** The same run, seen from an idle worker: the first unfinished row of a subscriber is held by
      somebody who can go on, or, as soon as it is due, this worker may take it with any generation
      that the owner rows grant to its token, provided that no unfinished row lacks an owner. */
  lemma IdleWorkerMayGrab(steps: seq<Step>, fs: seq<Fleet>, maxAttempts: int, k: nat, sub: string, w: nat, now: int)
    returns (id: string)
    requires Passage(steps, fs, maxAttempts) && GentleRun(steps, fs) && AttentiveRun(steps, fs) && k <= |steps|
    requires UnfinishedRows(fs[k].db.table, sub) != {} && (fs[k].db.owners == map[] || MetadataComplete(fs[k].db))
    requires w in fs[k].workers && fs[k].workers[w].batch == []
    ensures IsFirst(fs[k].db.table, sub, id)
    ensures (exists v: nat, i: nat :: HeldBy(fs[k], v, i, id) && CanAct(fs[k], v))
      || (Due(fs[k].db.table.rows[id], now) ==>
            forall generation ::
              Grants(fs[k].db, fs[k].db.table.rows[id].partition, fs[k].workers[w].token, generation) ==>
              Permits(fs[k], Grab(w, [id], map[id := generation], now)))
  {
    var f := fs[k];
    id := NeverStuck(steps, fs, maxAttempts, k, sub);
    if Claimable(f.db.table, id, now) {
      forall generation | Grants(f.db, f.db.table.rows[id].partition, f.workers[w].token, generation)
        ensures Permits(f, Grab(w, [id], map[id := generation], now))
      {
        GrantAllows(f.db, Claim(map[id := generation], f.workers[w].token, now), id);
      }
    }
  }

  /** So when every worker is idle and nothing can be claimed, all that is left of a subscriber
      waits for its next attempt; when that is due for all, nothing is left. */
  lemma IdleMeansDrained(steps: seq<Step>, fs: seq<Fleet>, maxAttempts: int, k: nat, sub: string, now: int)
    requires Passage(steps, fs, maxAttempts) && GentleRun(steps, fs) && AttentiveRun(steps, fs) && k <= |steps|
    requires forall w :: w in fs[k].workers ==> fs[k].workers[w].batch == []
    requires forall id :: !Claimable(fs[k].db.table, id, now)
    ensures UnfinishedRows(fs[k].db.table, sub) == {}
      || exists id :: IsFirst(fs[k].db.table, sub, id) && !Due(fs[k].db.table.rows[id], now)
  {
    if UnfinishedRows(fs[k].db.table, sub) != {} {
      var id := NeverStuck(steps, fs, maxAttempts, k, sub);
      assert !Claimable(fs[k].db.table, id, now);
    }
  }

  /** And the work comes to an end: as long as the subscriber has anything left to do, fewer steps
      have worked on it than its budget allowed, with nothing enqueued, resumed or reset meanwhile. */
  lemma WorkComesToAnEnd(steps: seq<Step>, fs: seq<Fleet>, maxAttempts: int, limit: nat, i: nat, j: nat, sub: string)
    requires Path(steps, fs, maxAttempts) && i <= j <= |steps| && Inv(fs[i])
    requires WithinLimit(fs[i].db.table, limit) && 1 <= limit && maxAttempts <= limit
    requires forall k {:trigger steps[k]} :: i <= k < j ==> Calm(fs[k], steps[k])
    ensures UnfinishedRows(fs[j].db.table, sub) != {} ==>
      Worked(steps, fs, i, j, sub) < Budget(fs[i].db.table, sub, limit)
  {
    WorkIsBounded(steps, fs, maxAttempts, limit, i, j, sub);
    BudgetRange(fs[j].db.history, fs[j].db.table, limit, sub);
  }
}
