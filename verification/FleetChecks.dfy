/** What a caller can check before a recovery or a takeover: which of them leave the wire in order
    whatever follows, in terms of the cutoff and the partition that the caller passes. */
module FleetChecks {
  import opened StoreSpec
  import opened Ownership
  import opened OwnershipRuns
  import opened Fleet
  import opened FleetRuns
  import opened FleetPaths
  import opened FleetClaims
  import opened FleetReset
  import M = MemoryStore
  import P = PostgresStore

  function Recovery(ids: set<string>): Step {
    External(Change(Recover(ids)))
  }

  /** Every row in the hands of a worker was claimed after the cutoff. */
  ghost predicate HeldAfter(f: Fleet, cutoff: int) {
    forall w, i {:trigger f.workers[w].batch[i]} :: w in f.workers && 0 <= i < |f.workers[w].batch| ==>
      !(f.workers[w].batch[i].claimedAt.At? && f.workers[w].batch[i].claimedAt.ns <= cutoff)
  }

  /** No row of the partition is in the hands of a worker. */
  ghost predicate HeldElsewhere(f: Fleet, p: int) {
    forall w, i {:trigger f.workers[w].batch[i]} :: w in f.workers && 0 <= i < |f.workers[w].batch| ==>
      f.workers[w].batch[i].partition != p
  }

  /** A step is gentle when it resets nothing in anybody's hands. */
  lemma GentleByHands(f: Fleet, s: Step)
    ensures Gentle(f, s) <==>
      forall w, i {:trigger f.workers[w].batch[i]} :: w in f.workers && 0 <= i < |f.workers[w].batch| ==>
        f.workers[w].batch[i].id !in ResetBy(f.db, s)
  {
    if Gentle(f, s) {
      forall w, i | w in f.workers && 0 <= i < |f.workers[w].batch|
        ensures f.workers[w].batch[i].id !in ResetBy(f.db, s)
      {
        assert HeldBy(f, w, i, f.workers[w].batch[i].id);
      }
    }
  }

  /** In memory, recovery resets what was claimed at the cutoff or before. */
  lemma MemoryRecoveryIsGentle(f: Fleet, cutoff: int)
    requires AllLive(f)
    ensures Permits(f, Recovery(M.StaleIds(f.db.table.rows, cutoff)))
    ensures Gentle(f, Recovery(M.StaleIds(f.db.table.rows, cutoff))) <==> HeldAfter(f, cutoff)
  {
    var s := Recovery(M.StaleIds(f.db.table.rows, cutoff));
    GentleByHands(f, s);
    forall w, i | w in f.workers && 0 <= i < |f.workers[w].batch|
      ensures var d := f.workers[w].batch[i];
        d.id in ResetBy(f.db, s) <==> d.claimedAt.At? && d.claimedAt.ns <= cutoff
    {
      assert Live(f.db.table, f.workers[w].batch[i], f.workers[w].token);
    }
  }

  /** In SQL, what was claimed at the cutoff itself stays. */
  lemma SqlRecoveryIsGentle(f: Fleet, cutoff: int)
    requires AllLive(f)
    ensures Permits(f, Recovery(P.ExpiredIds(f.db.table.rows, cutoff)))
    ensures Gentle(f, Recovery(P.ExpiredIds(f.db.table.rows, cutoff))) <==> HeldAfter(f, cutoff - 1)
  {
    var s := Recovery(P.ExpiredIds(f.db.table.rows, cutoff));
    GentleByHands(f, s);
    forall w, i | w in f.workers && 0 <= i < |f.workers[w].batch|
      ensures var d := f.workers[w].batch[i];
        d.id in ResetBy(f.db, s) <==> d.claimedAt.At? && d.claimedAt.ns <= cutoff - 1
    {
      assert Live(f.db.table, f.workers[w].batch[i], f.workers[w].token);
    }
  }

  /** A takeover that steals resets whatever is in flight in its partition. */
  lemma StealIsGentle(f: Fleet, p: int, to: string, expected: nat)
    requires AllLive(f) && Decide(f.db.owners, p, to, expected) == Steal
    ensures Gentle(f, External(Force(p, to, expected))) <==> HeldElsewhere(f, p)
  {
    var s := External(Force(p, to, expected));
    GentleByHands(f, s);
    forall w, i | w in f.workers && 0 <= i < |f.workers[w].batch|
      ensures f.workers[w].batch[i].id in ResetBy(f.db, s) <==> f.workers[w].batch[i].partition == p
    {
      assert Live(f.db.table, f.workers[w].batch[i], f.workers[w].token);
    }
  }

  /** Recovery keeps the wire in order, whatever follows without resets, if and only if every row
      in anybody's hands was claimed after its cutoff: in memory, and in SQL, without owner rows or
      with claims that agree with them. */
  lemma RecoveryExactly(f: Fleet, cutoff: int, maxAttempts: int, memory: bool)
    requires Inv(f) && GoodOwners(f.db.owners)
    requires Numbered(f.db) && (f.db.owners == map[] || StampsAgree(f.db))
    ensures var rows := f.db.table.rows;
      var s := Recovery(if memory then M.StaleIds(rows, cutoff) else P.ExpiredIds(rows, cutoff));
      Permits(f, s)
      && (HeldAfter(f, if memory then cutoff else cutoff - 1) <==>
            forall g :: Onward(After(f, s, maxAttempts), g, maxAttempts, LOOSE) ==> WireOrdered(g.wire))
  {
    MemoryRecoveryIsGentle(f, cutoff);
    SqlRecoveryIsGentle(f, cutoff);
    var rows := f.db.table.rows;
    GentleExactly(f, Recovery(if memory then M.StaleIds(rows, cutoff) else P.ExpiredIds(rows, cutoff)), maxAttempts);
  }

  /** Such runs exist: for every subscriber one leads, without resets, to a row in somebody's hands,
      and after its recovery on to a wire that goes back. */
  lemma ResetReorders(sub: string, maxAttempts: int) returns (f: Fleet, s: Step, g: Fleet)
    requires sub != ""
    ensures Onward(IDLE, f, maxAttempts, NEW_IDS) && Permits(f, s) && s.External? && s.tx.Change? && s.tx.op.Recover?
    ensures Onward(After(f, s, maxAttempts), g, maxAttempts, NEW_IDS) && !WireOrdered(g.wire)
  {
    EmptyReached();
    OnwardStays(IDLE, maxAttempts, NEW_IDS);
    var f1 := AddRow(IDLE, IDLE, sub, maxAttempts);
    var v;
    f, v := ClaimHead(IDLE, f1, sub, maxAttempts);
    OnwardKeeps(IDLE, f, maxAttempts, NEW_IDS);
    var id := f.workers[v].batch[0].id;
    s := Recovery({id});
    assert HeldBy(f, v, 0, id);
    g := ResetGoesBack(f, s, maxAttempts, v, 0, id);
  }
}
