/** Without resets nothing is posted again once it has been posted successfully. */
module FleetOnce {
  import opened Deliveries
  import opened StoreSpec
  import opened StoreRuns
  import opened Fleet
  import opened FleetRuns

  /** Nobody will post row `id` again: who still holds it has posted it, successfully. */
  ghost predicate Answered(f: Fleet, id: string) {
    forall w: nat, i: nat :: HeldBy(f, w, i, id) ==> i == 0 && f.workers[w].outcome == Some(Success)
  }

  /** The row of a post, still in flight because its mark is to come or was lost. */
  ghost predicate Lingers(t: Table, post: Post, id: string) {
    id in t.rows && t.rows[id].status == InFlight
    && t.rows[id].subscriber == post.subscriber && t.rows[id].sequence == post.sequence
  }

  /** A successful post is over: its row has ended, or lingers without ever being posted again. */
  ghost predicate Over(f: Fleet, post: Post) {
    post.sequence < Frontier(f.db.table, post.subscriber)
    || exists id :: Lingers(f.db.table, post, id) && Answered(f, id)
  }

  ghost predicate SuccessesOver(f: Fleet) {
    forall k :: 0 <= k < |f.wire| && f.wire[k].success ==> Over(f, f.wire[k])
  }

  ghost predicate NothingAfterSuccess(wire: seq<Post>) {
    forall j, k :: 0 <= j < k < |wire| && wire[j].subscriber == wire[k].subscriber && wire[j].success
      ==> wire[j].sequence < wire[k].sequence
  }

  ghost predicate Once(f: Fleet) {
    Inv(f) && SuccessesOver(f) && NothingAfterSuccess(f.wire)
  }

  /** What keeps a successful post over: frontiers rise, its row stays in flight, and nobody takes it up. */
  lemma OverKept(f: Fleet, f2: Fleet, released: set<string>)
    requires SuccessesOver(f) && f2.wire == f.wire
    requires FrontiersRise(f.db.table, f2.db.table) && KeepsInFlight(f.db.table, f2.db.table, released)
    requires forall id :: id in f.db.table.rows && f.db.table.rows[id].status == InFlight && Answered(f, id) ==>
      Answered(f2, id)
    requires forall k, id :: 0 <= k < |f.wire| && id in released && f.wire[k].success
               && Lingers(f.db.table, f.wire[k], id) && Answered(f, id)
               ==> f.wire[k].sequence < Frontier(f2.db.table, f.wire[k].subscriber)
    ensures SuccessesOver(f2)
  {
  }

  /** Batches only shrink from the front, and the shrunk ones await no mark. */
  lemma AnsweredWhenPopped(f: Fleet, f2: Fleet, id: string)
    requires Answered(f, id)
    requires forall v :: v in f2.workers ==>
      && v in f.workers
      && (f2.workers[v] == f.workers[v] || (f.workers[v].batch != [] && f2.workers[v].batch == f.workers[v].batch[1..]))
    ensures Answered(f2, id)
  {
    forall w: nat, i: nat | HeldBy(f2, w, i, id)
      ensures i == 0 && f2.workers[w].outcome == Some(Success)
    {
      if f2.workers[w] == f.workers[w] {
        assert HeldBy(f, w, i, id);
      } else {
        assert f2.workers[w].batch[i] == f.workers[w].batch[i + 1];
        assert HeldBy(f, w, i + 1, id);
      }
    }
  }

  lemma ExternalOnce(f: Fleet, s: Step, maxAttempts: int)
    requires Once(f) && Permits(f, s) && s.External? && Clean(f, s)
    ensures Once(After(f, s, maxAttempts))
  {
    var f2 := After(f, s, maxAttempts);
    StepKeeps(f, s, maxAttempts);
    ExternalStep(f.db, s.tx);
    forall id | Answered(f, id)
      ensures Answered(f2, id)
    {
      AnsweredWhenPopped(f, f2, id);
    }
    forall k, id | 0 <= k < |f.wire| && id in ResetBy(f.db, s) && f.wire[k].success
      ensures !Lingers(f.db.table, f.wire[k], id)
    {
      assert !Delivers(f, k, id);
    }
    OverKept(f, f2, ResetBy(f.db, s));
  }

  lemma IdleOnce(f: Fleet, s: Step, maxAttempts: int)
    requires Once(f) && Permits(f, s) && (s.Spawn? || s.Lose? || s.Quit?)
    ensures Once(After(f, s, maxAttempts))
  {
    var f2 := After(f, s, maxAttempts);
    StepKeeps(f, s, maxAttempts);
    forall id | Answered(f, id)
      ensures Answered(f2, id)
    {
      if s.Spawn? {
        SpawnAnswers(f, f2, s.w, id);
      } else {
        AnsweredWhenPopped(f, f2, id);
      }
    }
    OverKept(f, f2, {});
  }

  lemma SpawnAnswers(f: Fleet, f2: Fleet, w: nat, id: string)
    requires Answered(f, id) && w in f2.workers && f2.workers[w].batch == []
    requires forall v :: v in f2.workers && v != w ==> v in f.workers && f2.workers[v] == f.workers[v]
    ensures Answered(f2, id)
  {
    forall v: nat, i: nat | HeldBy(f2, v, i, id)
      ensures i == 0 && f2.workers[v].outcome == Some(Success)
    {
      assert HeldBy(f, v, i, id);
    }
  }

  lemma GrabOnce(f: Fleet, s: Step, maxAttempts: int)
    requires Once(f) && Permits(f, s) && s.Grab?
    ensures Once(After(f, s, maxAttempts))
  {
    var f2, k := After(f, s, maxAttempts), f.workers[s.w];
    var op := Claim(s.stamps, k.token, s.now);
    StepKeeps(f, s, maxAttempts);
    ChangeStep(f.db, op, {});
    forall i | 0 <= i < |s.order|
      ensures f2.workers[s.w].batch[i].id == s.order[i]
      ensures s.order[i] in f.db.table.rows && f.db.table.rows[s.order[i]].status == Pending
    {
      GrabbedIsLive(f, op, s.order[i]);
    }
    forall id | id in f.db.table.rows && f.db.table.rows[id].status == InFlight && Answered(f, id)
      ensures Answered(f2, id)
    {
      GrabAnswers(f, f2, s.w, s.order, id);
    }
    OverKept(f, f2, {});
  }

  lemma GrabAnswers(f: Fleet, f2: Fleet, w: nat, order: seq<string>, id: string)
    requires Answered(f, id) && Rebatched(f, f2, w) && |f2.workers[w].batch| == |order| && id !in order
    requires forall i :: 0 <= i < |order| ==> f2.workers[w].batch[i].id == order[i]
    ensures Answered(f2, id)
  {
    forall v: nat, i: nat | HeldBy(f2, v, i, id)
      ensures i == 0 && f2.workers[v].outcome == Some(Success)
    {
      if v != w {
        assert HeldBy(f, v, i, id);
      }
    }
  }

  lemma SettleOnce(f: Fleet, s: Step, maxAttempts: int)
    requires Once(f) && Permits(f, s) && s.Settle?
    ensures Once(After(f, s, maxAttempts))
  {
    var f2, k := After(f, s, maxAttempts), f.workers[s.w];
    var d := k.batch[0];
    StepKeeps(f, s, maxAttempts);
    SettleStep(f.db, k.token, d, k.outcome.value, maxAttempts, s.next, s.error, s.limits, s.now);
    assert Live(f.db.table, d, k.token);
    forall id | Answered(f, id)
      ensures Answered(f2, id)
      ensures id == d.id ==> k.outcome == Some(Success)
    {
      AnsweredWhenPopped(f, f2, id);
      assert id == d.id ==> HeldBy(f, s.w, 0, id);
    }
    OverKept(f, f2, {d.id});
  }

  lemma SendOnce(f: Fleet, s: Step, maxAttempts: int)
    requires Once(f) && Permits(f, s) && s.Send?
    ensures Once(After(f, s, maxAttempts))
  {
    var f2, d := After(f, s, maxAttempts), f.workers[s.w].batch[0];
    StepKeeps(f, s, maxAttempts);
    assert Live(f.db.table, d, f.workers[s.w].token);
    InFlightAtFrontier(f.db.history, f.db.table, d.id);
    assert HeldBy(f, s.w, 0, d.id) && !Answered(f, d.id);
    forall k | 0 <= k < |f.wire| && f.wire[k].success
      ensures Over(f2, f.wire[k])
      ensures f.wire[k].subscriber == d.subscriber ==> f.wire[k].sequence < d.sequence
    {
      StaysOver(f, f2, s.w, f.wire[k], d);
    }
    if s.outcome == Success {
      SentIsAnswered(f, f2, s.w, d);
      assert Lingers(f2.db.table, f2.wire[|f.wire|], d.id);
    }
  }

  lemma StaysOver(f: Fleet, f2: Fleet, w: nat, post: Post, d: Delivery)
    requires Over(f, post) && f2.db == f.db && Rebatched(f, f2, w) && f2.workers[w].batch == f.workers[w].batch
    requires f.workers[w].batch != [] && f.workers[w].outcome == None
    requires d.sequence == Frontier(f.db.table, d.subscriber) && !Answered(f, d.id)
    requires forall b :: b in f.db.table.rows ==>
      f.db.table.rows[b].status == InFlight && f.db.table.rows[b].subscriber == d.subscriber ==> b == d.id
    ensures Over(f2, post) && (post.subscriber == d.subscriber ==> post.sequence < d.sequence)
  {
    if post.sequence >= Frontier(f.db.table, post.subscriber) {
      var id :| Lingers(f.db.table, post, id) && Answered(f, id);
      forall v: nat, i: nat | HeldBy(f2, v, i, id)
        ensures i == 0 && f2.workers[v].outcome == Some(Success)
      {
        assert HeldBy(f, v, i, id);
      }
      assert Lingers(f2.db.table, post, id) && Answered(f2, id);
    }
  }

  lemma SentIsAnswered(f: Fleet, f2: Fleet, w: nat, d: Delivery)
    requires Apart(f) && Rebatched(f, f2, w) && f2.workers[w].batch == f.workers[w].batch
    requires f.workers[w].batch != [] && d == f.workers[w].batch[0] && f2.workers[w].outcome == Some(Success)
    ensures Answered(f2, d.id)
  {
  }

  lemma UnresetIsClean(f: Fleet, s: Step)
    requires ResetBy(f.db, s) == {}
    ensures Clean(f, s)
  {
  }

  lemma StepOnce(f: Fleet, s: Step, maxAttempts: int)
    requires Once(f) && Permits(f, s) && Clean(f, s)
    ensures Once(After(f, s, maxAttempts))
  {
    match s
    case External(_) => ExternalOnce(f, s, maxAttempts);
    case Grab(_, _, _, _) => GrabOnce(f, s, maxAttempts);
    case Send(_, _) => SendOnce(f, s, maxAttempts);
    case Settle(_, _, _, _, _) => SettleOnce(f, s, maxAttempts);
    case _ => IdleOnce(f, s, maxAttempts);
  }

  lemma {:induction false} CleanRunKeeps(steps: seq<Step>, fs: seq<Fleet>, maxAttempts: int, n: nat)
    requires Passage(steps, fs, maxAttempts) && CleanRun(steps, fs) && n <= |steps|
    ensures Once(fs[n])
  {
    if n == 0 {
      EmptyReached();
    } else {
      CleanRunKeeps(steps, fs, maxAttempts, n - 1);
      var f, s := fs[n - 1], steps[n - 1];
      assert Permits(f, s) && Clean(f, s);
      StepOnce(f, s, maxAttempts);
    }
  }

  /** In every run that resets only rows which nobody holds and which have not been posted
      successfully, after a successful POST everything later posted to the subscriber has a higher
      sequence; so successful POSTs strictly increase, also when marks fail, or workers die and the
      rows that they had not posted are recovered. */
  lemma SuccessIsFinal(steps: seq<Step>, fs: seq<Fleet>, maxAttempts: int, n: nat, j: nat, k: nat)
    requires Passage(steps, fs, maxAttempts) && CleanRun(steps, fs) && n <= |steps|
    requires j < k < |fs[n].wire| && fs[n].wire[j].subscriber == fs[n].wire[k].subscriber && fs[n].wire[j].success
    ensures fs[n].wire[j].sequence < fs[n].wire[k].sequence
  {
    CleanRunKeeps(steps, fs, maxAttempts, n);
  }
}
