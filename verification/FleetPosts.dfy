/** How often a delivery is attempted, in the store's counter and on the wire. */
module FleetPosts {
  import opened Deliveries
  import opened StoreSpec
  import opened StoreRuns
  import opened Ownership
  import opened Fleet
  import opened FleetRuns

  // ---- The counter ----

  /** A row has been tried at most `cap` times, and may be tried again if it still waits for it. */
  predicate Within(d: Delivery, cap: int) {
    0 <= d.attempt <= cap && (d.status == Pending || d.status == Retained ==> d.attempt < cap)
  }

  lemma ChangeWithin(t: Table, op: Op, id: string, cap: int)
    requires Legal(t, op) && cap >= 1 && id in Apply(t, op).rows && (op.Retry? ==> 0 <= op.attempt < cap)
    requires id in t.rows ==> Within(t.rows[id], cap)
    ensures Within(Apply(t, op).rows[id], cap + if op.Recover? && id in op.ids then 1 else 0)
    ensures id in t.rows ==> SameRow(t.rows[id], Apply(t, op).rows[id])
  {
  }

  predicate SameRow(d: Delivery, d2: Delivery) {
    d.subscriber == d2.subscriber && d.sequence == d2.sequence
  }

  lemma SettleWithin(f: Fleet, s: Step, maxAttempts: int, id: string, cap: int)
    requires Inv(f) && Permits(f, s) && s.Settle? && maxAttempts <= cap && cap >= 1
    requires id in After(f, s, maxAttempts).db.table.rows
    requires forall b :: b in f.db.table.rows ==> 0 <= f.db.table.rows[b].attempt
    requires id in f.db.table.rows ==> Within(f.db.table.rows[id], cap)
    ensures Within(After(f, s, maxAttempts).db.table.rows[id], cap)
    ensures id in f.db.table.rows && SameRow(f.db.table.rows[id], After(f, s, maxAttempts).db.table.rows[id])
  {
    var t, k := f.db.table, f.workers[s.w];
    assert Live(t, k.batch[0], k.token);
    var ops := SettleOps(t, k.token, k.batch[0], k.outcome.value, maxAttempts, s.next, s.error, s.limits, s.now);
    AllOfOne(f.db, ops[0]);
    if |ops| == 2 {
      AllOfTwo(f.db, ops[0], ops[1]);
      SuspensionWithin(t, ops[0], ops[1], id, cap);
    } else {
      ChangeWithin(t, ops[0], id, cap);
    }
  }

  lemma SuspensionWithin(t: Table, op: Op, op2: Op, id: string, cap: int)
    requires op.Suspend? && op2.Trim? && Legal(t, op) && cap >= 1 && id in Apply(Apply(t, op), op2).rows
    requires id in t.rows ==> Within(t.rows[id], cap)
    ensures id in t.rows && Within(Apply(Apply(t, op), op2).rows[id], cap)
    ensures SameRow(t.rows[id], Apply(Apply(t, op), op2).rows[id])
  {
    ChangeWithin(t, op, id, cap);
    ChangeWithin(Apply(t, op), op2, id, cap);
  }

  lemma ForceWithin(db: Db, tx: DbOp, id: string, cap: int)
    requires tx.Force? && cap >= 1 && id in Next(db, tx).table.rows
    requires id in db.table.rows ==> Within(db.table.rows[id], cap)
    ensures Within(Next(db, tx).table.rows[id], cap + if id in ResetBy(db, External(tx)) then 1 else 0)
    ensures id in db.table.rows && SameRow(db.table.rows[id], Next(db, tx).table.rows[id])
  {
    if Decide(db.owners, tx.partition, tx.to, tx.expected) == Steal {
      ChangeWithin(db.table, Recover(InFlightIn(db.table.rows, tx.partition)), id, cap);
    }
  }

  lemma ExternalWithin(f: Fleet, s: Step, maxAttempts: int, id: string, cap: int)
    requires Permits(f, s) && s.External? && cap >= 1
    requires id in After(f, s, maxAttempts).db.table.rows
    requires id in f.db.table.rows ==> Within(f.db.table.rows[id], cap)
    ensures Within(After(f, s, maxAttempts).db.table.rows[id], cap + if id in ResetBy(f.db, s) then 1 else 0)
    ensures id in f.db.table.rows ==> SameRow(f.db.table.rows[id], After(f, s, maxAttempts).db.table.rows[id])
  {
    match s.tx
    case Change(op) => ChangeWithin(f.db.table, op, id, cap);
    case Force(_, _, _) => ForceWithin(f.db, s.tx, id, cap);
    case _ =>
  }

  lemma StepWithin(f: Fleet, s: Step, maxAttempts: int, id: string, cap: int)
    requires Inv(f) && Permits(f, s) && maxAttempts <= cap && cap >= 1
    requires id in After(f, s, maxAttempts).db.table.rows
    requires forall b :: b in f.db.table.rows ==> 0 <= f.db.table.rows[b].attempt
    requires id in f.db.table.rows ==> Within(f.db.table.rows[id], cap)
    ensures Within(After(f, s, maxAttempts).db.table.rows[id], cap + if id in ResetBy(f.db, s) then 1 else 0)
    ensures id in f.db.table.rows ==> SameRow(f.db.table.rows[id], After(f, s, maxAttempts).db.table.rows[id])
  {
    match s
    case External(tx) => ExternalWithin(f, s, maxAttempts, id, cap);
    case Grab(w, _, stamps, now) => ChangeWithin(f.db.table, Claim(stamps, f.workers[w].token, now), id, cap);
    case Settle(_, _, _, _, _) => SettleWithin(f, s, maxAttempts, id, cap);
    case _ =>
  }

  // ---- Resets of a row ----

  /** The step takes the row with sequence `n` of `sub` away from its claim. */
  ghost predicate ResetsRow(f: Fleet, s: Step, sub: string, n: int) {
    exists id :: id in ResetBy(f.db, s) && id in f.db.table.rows
      && f.db.table.rows[id].subscriber == sub && f.db.table.rows[id].sequence == n
  }

  /** How many of the first `k` steps reset that row. */
  ghost function ResetsOf(steps: seq<Step>, fs: seq<Fleet>, k: nat, sub: string, n: int): nat
    requires |fs| == |steps| + 1 && k <= |steps|
  {
    if k == 0 then 0 else
    ResetsOf(steps, fs, k - 1, sub, n) + if ResetsRow(fs[k - 1], steps[k - 1], sub, n) then 1 else 0
  }

  lemma {:induction false} NeverReset(steps: seq<Step>, fs: seq<Fleet>, k: nat, sub: string, n: int)
    requires UnresetRun(steps, fs) && k <= |steps|
    ensures ResetsOf(steps, fs, k, sub, n) == 0
  {
    if k > 0 {
      NeverReset(steps, fs, k - 1, sub, n);
      assert steps[k - 1] == steps[k - 1];
    }
  }

  /** In every run that resets no held row, the counter of a row is at most maxAttempts plus the
      number of times that the row was reset. */
  lemma {:induction false} AttemptsBounded(steps: seq<Step>, fs: seq<Fleet>, maxAttempts: int, k: nat, id: string)
    requires Passage(steps, fs, maxAttempts) && GentleRun(steps, fs) && k <= |steps| && maxAttempts >= 1
    requires id in fs[k].db.table.rows
    ensures var d := fs[k].db.table.rows[id];
      Within(d, maxAttempts + ResetsOf(steps, fs, k, d.subscriber, d.sequence))
  {
    if k > 0 {
      var f, s := fs[k - 1], steps[k - 1];
      forall b | b in f.db.table.rows
        ensures var row := f.db.table.rows[b];
          Within(row, maxAttempts + ResetsOf(steps, fs, k - 1, row.subscriber, row.sequence))
      {
        AttemptsBounded(steps, fs, maxAttempts, k - 1, b);
      }
      GentleRunKeeps(steps, fs, maxAttempts, k - 1);
      assert Permits(f, s);
      var d := if id in f.db.table.rows then f.db.table.rows[id] else fs[k].db.table.rows[id];
      var cap := maxAttempts + ResetsOf(steps, fs, k - 1, d.subscriber, d.sequence);
      StepWithin(f, s, maxAttempts, id, cap);
      assert id in ResetBy(f.db, s) ==> ResetsRow(f, s, d.subscriber, d.sequence);
    }
  }

  // ---- The wire ----

  /** Posts of the row with sequence `n` of `sub`. */
  function Posts(wire: seq<Post>, sub: string, n: int): nat {
    if wire == [] then 0 else
    var last := wire[|wire| - 1];
    Posts(wire[..|wire| - 1], sub, n) + if last.subscriber == sub && last.sequence == n then 1 else 0
  }

  lemma OnePostMore(wire: seq<Post>, post: Post, sub: string, n: int)
    ensures Posts(wire + [post], sub, n) == Posts(wire, sub, n) +
      if post.subscriber == sub && post.sequence == n then 1 else 0
  {
    assert (wire + [post])[..|wire|] == wire;
  }

  lemma {:induction false} NotPosted(wire: seq<Post>, sub: string, n: int)
    requires forall k :: 0 <= k < |wire| && wire[k].subscriber == sub ==> wire[k].sequence != n
    ensures Posts(wire, sub, n) == 0
  {
    if wire != [] {
      NotPosted(wire[..|wire| - 1], sub, n);
    }
  }

  /** Somebody holds the row and has not posted it since claiming it. */
  ghost predicate Unposted(f: Fleet, id: string) {
    exists w: nat, i: nat :: HeldBy(f, w, i, id) && (i > 0 || f.workers[w].outcome == None)
  }

  /** Every post of a waiting row has used up an attempt, and who holds it unposted has another. */
  ghost predicate Paid(f: Fleet, id: string) {
    id in f.db.table.rows && Waiting(f.db.table.rows[id]) ==>
      var d := f.db.table.rows[id];
      Posts(f.wire, d.subscriber, d.sequence) + (if Unposted(f, id) then 1 else 0) <= d.attempt
  }

  ghost predicate AllPaid(f: Fleet) {
    && (forall id :: Paid(f, id))
    && (forall k :: 0 <= k < |f.wire| ==> f.wire[k].sequence <= f.db.table.Last(f.wire[k].subscriber))
  }

  /** A waiting row that was there before, with at least the attempts it had. */
  ghost predicate StaysPaid(f: Fleet, f2: Fleet, id: string) {
    id in f2.db.table.rows && Waiting(f2.db.table.rows[id]) ==>
      && id in f.db.table.rows && Waiting(f.db.table.rows[id])
      && SameRow(f.db.table.rows[id], f2.db.table.rows[id])
      && f.db.table.rows[id].attempt <= f2.db.table.rows[id].attempt
  }

  lemma PaidKept(f: Fleet, f2: Fleet, id: string)
    requires Paid(f, id) && StaysPaid(f, f2, id) && f2.wire == f.wire && (Unposted(f2, id) ==> Unposted(f, id))
    ensures Paid(f2, id)
  {
  }

  /** Batches that only shrink from the front leave no row unposted that was not. */
  lemma UnpostedWhenPopped(f: Fleet, f2: Fleet, id: string)
    requires forall v :: v in f2.workers && f2.workers[v].batch != [] ==>
      && v in f.workers
      && (f2.workers[v] == f.workers[v] || (f.workers[v].batch != [] && f2.workers[v] == Popped(f.workers[v])))
    ensures Unposted(f2, id) ==> Unposted(f, id)
  {
    if Unposted(f2, id) {
      var w: nat, i: nat :| HeldBy(f2, w, i, id) && (i > 0 || f2.workers[w].outcome == None);
      if f2.workers[w] == f.workers[w] {
        assert HeldBy(f, w, i, id);
      } else {
        assert f2.workers[w].batch[i] == f.workers[w].batch[i + 1];
        assert HeldBy(f, w, i + 1, id);
      }
    }
  }

  /** A change that claims nothing keeps every waiting row's attempts; a retry must not lower them. */
  lemma ChangeStaysPaid(t: Table, op: Op, id: string)
    requires Legal(t, op) && !op.Insert? && (op.Retry? ==> op.attempt == t.rows[op.id].attempt)
    requires id in Apply(t, op).rows && Waiting(Apply(t, op).rows[id])
    ensures id in t.rows && Waiting(t.rows[id]) && SameRow(t.rows[id], Apply(t, op).rows[id])
    ensures t.rows[id].attempt <= Apply(t, op).rows[id].attempt
  {
  }

  lemma UnknownIsUnheld(f: Fleet, id: string)
    requires AllLive(f) && id !in f.db.table.rows
    ensures forall w: nat, i: nat :: !HeldBy(f, w, i, id)
  {
    forall w: nat, i: nat
      ensures !HeldBy(f, w, i, id)
    {
      if w in f.workers && i < |f.workers[w].batch| {
        assert Live(f.db.table, f.workers[w].batch[i], f.workers[w].token);
      }
    }
  }

  lemma InsertPaid(f: Fleet, f2: Fleet, op: Op, id: string)
    requires Inv(f) && AllPaid(f) && op.Insert? && Legal(f.db.table, op)
    requires f2.db.table == Apply(f.db.table, op) && f2.wire == f.wire && f2.workers == f.workers
    ensures Paid(f2, id)
  {
    if id == op.d.id {
      var n := f.db.table.Last(op.d.subscriber) + 1;
      NotPosted(f.wire, op.d.subscriber, n);
      UnknownIsUnheld(f, id);
      assert forall w: nat, i: nat :: HeldBy(f2, w, i, id) ==> HeldBy(f, w, i, id);
    } else {
      UnpostedWhenPopped(f, f2, id);
      assert Paid(f, id);
    }
  }

  lemma ExternalPaid(f: Fleet, s: Step, maxAttempts: int)
    requires Inv(f) && AllPaid(f) && Permits(f, s) && s.External?
    ensures AllPaid(After(f, s, maxAttempts))
  {
    var f2 := After(f, s, maxAttempts);
    forall id
      ensures Paid(f2, id)
    {
      if s.tx.Change? && s.tx.op.Insert? {
        InsertPaid(f, f2, s.tx.op, id);
      } else {
        ExternalStaysPaid(f, s, maxAttempts, id);
        UnpostedWhenPopped(f, f2, id);
        PaidKept(f, f2, id);
      }
    }
    ExternalLast(f, s, maxAttempts);
  }

  lemma ExternalLast(f: Fleet, s: Step, maxAttempts: int)
    requires Permits(f, s) && s.External?
    ensures forall sub :: f.db.table.Last(sub) <= After(f, s, maxAttempts).db.table.Last(sub)
  {
  }

  lemma ExternalStaysPaid(f: Fleet, s: Step, maxAttempts: int, id: string)
    requires Permits(f, s) && s.External? && !(s.tx.Change? && s.tx.op.Insert?)
    ensures StaysPaid(f, After(f, s, maxAttempts), id)
  {
    var f2 := After(f, s, maxAttempts);
    if id in f2.db.table.rows && Waiting(f2.db.table.rows[id]) {
      if s.tx.Change? {
        ChangeStaysPaid(f.db.table, s.tx.op, id);
      } else if s.tx.Force? && Decide(f.db.owners, s.tx.partition, s.tx.to, s.tx.expected) == Steal {
        ChangeStaysPaid(f.db.table, Recover(InFlightIn(f.db.table.rows, s.tx.partition)), id);
      }
    }
  }

  /** A claim buys the attempt that the next post uses. */
  lemma GrabPaid(f: Fleet, s: Step, maxAttempts: int)
    requires Inv(f) && AllPaid(f) && Permits(f, s) && s.Grab?
    ensures AllPaid(After(f, s, maxAttempts))
  {
    var f2, k := After(f, s, maxAttempts), f.workers[s.w];
    var op := Claim(s.stamps, k.token, s.now);
    forall id
      ensures Paid(f2, id)
    {
      if id in f2.db.table.rows && Waiting(f2.db.table.rows[id]) {
        ChangeStaysPaid(f.db.table, op, id);
        assert Paid(f, id);
        if id !in s.stamps {
          NotGrabbed(f, f2, s, id, maxAttempts);
        }
      }
    }
  }

  lemma NotGrabbed(f: Fleet, f2: Fleet, s: Step, id: string, maxAttempts: int)
    requires Inv(f) && Permits(f, s) && s.Grab? && id !in s.stamps && f2 == After(f, s, maxAttempts)
    ensures Unposted(f2, id) ==> Unposted(f, id)
  {
    if Unposted(f2, id) {
      var w: nat, i: nat :| HeldBy(f2, w, i, id) && (i > 0 || f2.workers[w].outcome == None);
      if w == s.w {
        var op := Claim(s.stamps, f.workers[s.w].token, s.now);
        assert s.order[i] in s.order;
        GrabbedIsLive(f, op, s.order[i]);
        assert false;
      } else {
        assert HeldBy(f, w, i, id);
      }
    }
  }

  /** A post uses the attempt that its claim has bought. */
  lemma SendPaid(f: Fleet, s: Step, maxAttempts: int)
    requires Inv(f) && AllPaid(f) && Permits(f, s) && s.Send?
    ensures AllPaid(After(f, s, maxAttempts))
  {
    var f2, d := After(f, s, maxAttempts), f.workers[s.w].batch[0];
    assert Live(f.db.table, d, f.workers[s.w].token);
    assert HeldBy(f, s.w, 0, d.id) && Unposted(f, d.id);
    InFlightAtFrontier(f.db.history, f.db.table, d.id);
    forall id
      ensures Paid(f2, id)
    {
      assert Paid(f, id);
      if id in f.db.table.rows {
        var row := f.db.table.rows[id];
        OnePostMore(f.wire, Post(d.subscriber, d.sequence, s.outcome == Success), row.subscriber, row.sequence);
        SentUnposted(f, f2, s.w, id);
        OneRowPerSequence(f.db.history, f.db.table, id, d.id);
      }
    }
    SequenceIssued(f.db.history, f.db.table, d.id);
  }

  lemma SentUnposted(f: Fleet, f2: Fleet, w: nat, id: string)
    requires Apart(f) && Rebatched(f, f2, w) && f.workers[w].batch != [] && f2.workers[w].batch == f.workers[w].batch
    requires f2.workers[w].outcome.Some?
    ensures Unposted(f2, id) ==> Unposted(f, id)
    ensures id == f.workers[w].batch[0].id ==> !Unposted(f2, id)
  {
    forall v: nat, i: nat
      ensures HeldBy(f2, v, i, id) && (i > 0 || f2.workers[v].outcome == None) ==>
        HeldBy(f, v, i, id) && (i > 0 || f.workers[v].outcome == None) && id != f.workers[w].batch[0].id
    {
      if HeldBy(f2, v, i, id) {
        assert HeldBy(f, v, i, id);
        assert id == f.workers[w].batch[0].id ==> f.workers[v].batch[i].id == f.workers[w].batch[0].id;
      }
    }
  }

  /** A mark and a pop leave every row at least its attempts. */
  lemma SettlePaid(f: Fleet, s: Step, maxAttempts: int)
    requires Inv(f) && AllPaid(f) && Permits(f, s) && s.Settle?
    ensures AllPaid(After(f, s, maxAttempts))
  {
    var f2 := After(f, s, maxAttempts);
    forall id
      ensures Paid(f2, id)
    {
      assert Paid(f, id);
      SettleStaysPaid(f, s, maxAttempts, id);
      UnpostedWhenPopped(f, f2, id);
      PaidKept(f, f2, id);
    }
    SettleStaysPaid(f, s, maxAttempts, "");
  }

  lemma SettleStaysPaid(f: Fleet, s: Step, maxAttempts: int, id: string)
    requires Inv(f) && Permits(f, s) && s.Settle?
    ensures StaysPaid(f, After(f, s, maxAttempts), id)
    ensures After(f, s, maxAttempts).db.table.seqs == f.db.table.seqs
  {
    var t, k := f.db.table, f.workers[s.w];
    assert Live(t, k.batch[0], k.token);
    var ops := SettleOps(t, k.token, k.batch[0], k.outcome.value, maxAttempts, s.next, s.error, s.limits, s.now);
    AllOfOne(f.db, ops[0]);
    var f2 := After(f, s, maxAttempts);
    if |ops| == 2 {
      AllOfTwo(f.db, ops[0], ops[1]);
      if id in f2.db.table.rows && Waiting(f2.db.table.rows[id]) {
        ChangeStaysPaid(Apply(t, ops[0]), ops[1], id);
        ChangeStaysPaid(t, ops[0], id);
      }
    } else if id in f2.db.table.rows && Waiting(f2.db.table.rows[id]) {
      ChangeStaysPaid(t, ops[0], id);
    }
  }

  lemma StepPaid(f: Fleet, s: Step, maxAttempts: int)
    requires Inv(f) && AllPaid(f) && Permits(f, s)
    ensures AllPaid(After(f, s, maxAttempts))
  {
    if s.External? {
      ExternalPaid(f, s, maxAttempts);
    } else if s.Grab? {
      GrabPaid(f, s, maxAttempts);
    } else if s.Send? {
      SendPaid(f, s, maxAttempts);
    } else if s.Settle? {
      SettlePaid(f, s, maxAttempts);
    } else {
      var f2 := After(f, s, maxAttempts);
      forall id
        ensures Paid(f2, id)
      {
        assert Paid(f, id);
        UnpostedWhenPopped(f, f2, id);
        PaidKept(f, f2, id);
      }
    }
  }

  lemma {:induction false} GentleRunPays(steps: seq<Step>, fs: seq<Fleet>, maxAttempts: int, k: nat)
    requires Passage(steps, fs, maxAttempts) && GentleRun(steps, fs) && k <= |steps|
    ensures AllPaid(fs[k])
  {
    if k > 0 {
      GentleRunPays(steps, fs, maxAttempts, k - 1);
      GentleRunKeeps(steps, fs, maxAttempts, k - 1);
      assert Permits(fs[k - 1], steps[k - 1]);
      StepPaid(fs[k - 1], steps[k - 1], maxAttempts);
    }
  }

  /** In every run that resets no held row, a delivery is posted at most maxAttempts times, and
      once more for each time that it was reset. */
  lemma {:induction false} PostsBounded(steps: seq<Step>, fs: seq<Fleet>, maxAttempts: int, k: nat, sub: string, n: int)
    requires Passage(steps, fs, maxAttempts) && GentleRun(steps, fs) && k <= |steps| && maxAttempts >= 1
    ensures Posts(fs[k].wire, sub, n) <= maxAttempts + ResetsOf(steps, fs, k, sub, n)
  {
    if k > 0 {
      PostsBounded(steps, fs, maxAttempts, k - 1, sub, n);
      GentleRunKeeps(steps, fs, maxAttempts, k - 1);
      GentleRunPays(steps, fs, maxAttempts, k);
      var f, s := fs[k - 1], steps[k - 1];
      assert Permits(f, s);
      if s.Send? {
        var d := f.workers[s.w].batch[0];
        assert Live(f.db.table, d, f.workers[s.w].token);
        AttemptsBounded(steps, fs, maxAttempts, k, d.id);
        OnePostMore(f.wire, Post(d.subscriber, d.sequence, s.outcome == Success), sub, n);
        assert Paid(fs[k], d.id);
      }
    }
  }
}
