/** What a delivery that has been posted comes to, and what follows from it on the wire: nothing is
    posted again that has failed for good, and nothing at all to its subscriber until it is resumed. */
module FleetEnds {
  import opened Deliveries
  import opened StoreSpec
  import opened StoreRuns
  import opened Retention
  import opened Ownership
  import opened Fleet
  import opened FleetRuns

  /** The row has ended, and nothing else has changed. */
  predicate EndsOnly(rows: map<string, Delivery>, rows2: map<string, Delivery>, id: string, status: Status,
                     error: string) {
    id in rows && rows2 == rows[
      id := rows[id].(status := status, lastError := error, owner := "", generation := 0, claimedAt := Never)]
  }

  /** The row is pending again until its next attempt, and nothing else has changed. */
  predicate WaitsAgain(rows: map<string, Delivery>, rows2: map<string, Delivery>, id: string, attempt: int, next: Time,
                       error: string) {
    id in rows && rows2 == rows[
      id := rows[id].(status := Pending, attempt := attempt, nextAttempt := next, lastError := error, owner := "",
                      generation := 0, claimedAt := Never)]
  }

  /** What a delivery that has been posted comes to, read off the maps: delivered; or dead-lettered
      with its subscriber suspended, at once when the failure is permanent and otherwise when its
      attempts are used up; or pending again. */
  ghost predicate EndsBy(outcome: Outcome, d: Delivery, maxAttempts: int, rows: map<string, Delivery>,
                         subs: map<string, Meta>, rows2: map<string, Delivery>, subs2: map<string, Meta>, next: Time,
                         error: string, limits: Limits, now: int) {
    match outcome
    case Success => EndsOnly(rows, rows2, d.id, Delivered, "") && subs2 == subs
    case Permanent => Exhausted(rows, subs, rows2, subs2, d.id, error, limits, now)
    case Retryable =>
      if d.attempt < maxAttempts then WaitsAgain(rows, rows2, d.id, d.attempt, next, error) && subs2 == subs
      else Exhausted(rows, subs, rows2, subs2, d.id, error, limits, now)
  }

  /** The mark of a row in hand, made under the claim with which it was taken. */
  lemma SettleEndsBy(f: Fleet, s: Step, maxAttempts: int)
    requires AllLive(f) && Permits(f, s) && s.Settle?
    ensures var k, t, t2 := f.workers[s.w], f.db.table, After(f, s, maxAttempts).db.table;
      EndsBy(k.outcome.value, k.batch[0], maxAttempts, t.rows, t.subs, t2.rows, t2.subs, s.next, s.error, s.limits,
             s.now)
  {
    var k, t := f.workers[s.w], f.db.table;
    var d := k.batch[0];
    assert Live(t, d, k.token);
    var ops := SettleOps(t, k.token, d, k.outcome.value, maxAttempts, s.next, s.error, s.limits, s.now);
    AllOfOne(f.db, ops[0]);
    if |ops| == 2 {
      AllOfTwo(f.db, ops[0], ops[1]);
      SuspendExhausts(t, After(f, s, maxAttempts).db.table, d.id, k.token, d.generation, s.error, s.limits, s.now);
    }
  }

  // ---- For good ----

  /** The step marks a delivery that has failed for good: permanently, or with its last attempt. */
  ghost predicate FailsForGood(f: Fleet, s: Step, maxAttempts: int, sub: string, n: int) {
    && s.Settle? && s.w in f.workers && f.workers[s.w].batch != [] && f.workers[s.w].outcome.Some?
    && var k := f.workers[s.w];
    && k.batch[0].subscriber == sub && k.batch[0].sequence == n
    && (k.outcome.value == Permanent || (k.outcome.value == Retryable && k.batch[0].attempt >= maxAttempts))
  }

  ghost predicate Silenced(f: Fleet, sub: string, n: int) {
    sub in f.db.table.subs && f.db.table.subs[sub].suspended && n < Frontier(f.db.table, sub)
  }

  lemma FailureOps(f: Fleet, s: Step, maxAttempts: int, sub: string, n: int, d: Delivery, op: Op, op2: Op)
    requires Inv(f) && Permits(f, s) && FailsForGood(f, s, maxAttempts, sub, n) && d == f.workers[s.w].batch[0]
    requires op == Suspend(d.id, f.workers[s.w].token, d.generation, s.error) && op2 == Trim(sub, s.limits, s.now)
    ensures d.id in f.db.table.rows && f.db.table.rows[d.id] == d && Legal(f.db.table, op)
    ensures After(f, s, maxAttempts).db.table == Apply(Apply(f.db.table, op), op2)
  {
    assert Live(f.db.table, d, f.workers[s.w].token);
    AllOfTwo(f.db, op, op2);
  }

  /** The suspension passes the row, and retention leaves the mode and the frontier. */
  lemma SuspendSilences(h: seq<Op>, t: Table, op: Op, t2: Table, op2: Op, t3: Table, sub: string)
    requires Reached(h, t) && Legal(t, op) && op.Suspend? && t.rows[op.id].subscriber == sub
    requires t2 == Apply(t, op) && op2.Trim? && op2.subscriber == sub && t3 == Apply(t2, op2)
    ensures sub in t3.subs && t3.subs[sub].suspended && t.rows[op.id].sequence < Frontier(t3, sub)
  {
    FrontierRises(h, t, op, sub);
    ReachedNext(h, t, op);
    FrontierRises(h + [op], t2, op2, sub);
  }

  lemma FailureSilences(f: Fleet, s: Step, maxAttempts: int, sub: string, n: int)
    requires Inv(f) && Permits(f, s) && FailsForGood(f, s, maxAttempts, sub, n)
    ensures Silenced(After(f, s, maxAttempts), sub, n)
  {
    var k, t := f.workers[s.w], f.db.table;
    var d := k.batch[0];
    var op, op2 := Suspend(d.id, k.token, d.generation, s.error), Trim(sub, s.limits, s.now);
    FailureOps(f, s, maxAttempts, sub, n, d, op, op2);
    SuspendSilences(f.db.history, t, op, Apply(t, op), op2, After(f, s, maxAttempts).db.table, sub);
  }

  // ---- From then on ----

  lemma StepFrontiers(f: Fleet, s: Step, maxAttempts: int)
    requires Inv(f) && Permits(f, s)
    ensures FrontiersRise(f.db.table, After(f, s, maxAttempts).db.table)
  {
    match s
    case External(tx) => ExternalStep(f.db, tx);
    case Grab(w, _, stamps, now) => ChangeStep(f.db, Claim(stamps, f.workers[w].token, now), {});
    case Settle(w, next, error, limits, now) =>
      var k := f.workers[w];
      SettleStep(f.db, k.token, k.batch[0], k.outcome.value, maxAttempts, next, error, limits, now);
    case _ =>
  }

  /** The step resumes the subscriber. */
  predicate Resumes(s: Step, sub: string) {
    s.External? && s.tx.Change? && s.tx.op.Reopen? && s.tx.op.subscriber == sub
  }

  predicate IsClosed(t: Table, sub: string) {
    sub in t.subs && t.subs[sub].suspended
  }

  lemma ClosedStays(t: Table, op: Op, sub: string)
    requires IsClosed(t, sub) && Legal(t, op) && !(op.Reopen? && op.subscriber == sub)
    ensures IsClosed(Apply(t, op), sub)
  {
  }

  lemma StepClosed(f: Fleet, s: Step, maxAttempts: int, sub: string)
    requires Inv(f) && Permits(f, s) && IsClosed(f.db.table, sub) && !Resumes(s, sub)
    ensures IsClosed(After(f, s, maxAttempts).db.table, sub)
  {
    match s
    case External(Change(op)) => ClosedStays(f.db.table, op, sub);
    case External(Force(p, to, expected)) =>
      if Decide(f.db.owners, p, to, expected) == Steal {
        ClosedStays(f.db.table, Recover(InFlightIn(f.db.table.rows, p)), sub);
      }
    case Grab(w, _, stamps, now) => ClosedStays(f.db.table, Claim(stamps, f.workers[w].token, now), sub);
    case Settle(w, next, error, limits, now) =>
      var k := f.workers[w];
      assert Live(f.db.table, k.batch[0], k.token);
      var ops := SettleOps(f.db.table, k.token, k.batch[0], k.outcome.value, maxAttempts, next, error, limits, now);
      AllOfOne(f.db, ops[0]);
      ClosedStays(f.db.table, ops[0], sub);
      if |ops| == 2 {
        AllOfTwo(f.db, ops[0], ops[1]);
        ClosedStays(Apply(f.db.table, ops[0]), ops[1], sub);
      }
    case _ =>
  }

  /** Nobody holds a row of a suspended subscriber to post. */
  lemma NothingToPost(f: Fleet, s: Step, sub: string)
    requires Inv(f) && Permits(f, s) && s.Send? && IsClosed(f.db.table, sub)
    ensures f.workers[s.w].batch[0].subscriber != sub
  {
    var d := f.workers[s.w].batch[0];
    assert Live(f.db.table, d, f.workers[s.w].token);
    if d.subscriber == sub {
      Modes(f.db.history, f.db.table, sub, d.id);
    }
  }

  /** Failed for good: after a permanent failure, or one on the last attempt, has been marked, the
      delivery is never posted again, nor anything before it, in any run that resets no held row;
      and nothing at all is posted to its subscriber until that is resumed. */
  lemma {:induction false} FailureIsFinal(steps: seq<Step>, fs: seq<Fleet>, maxAttempts: int, i: nat, j: nat, k: nat,
                                          sub: string, n: int)
    requires Passage(steps, fs, maxAttempts) && GentleRun(steps, fs) && i < j <= |steps|
    requires FailsForGood(fs[i], steps[i], maxAttempts, sub, n)
    requires |fs[i + 1].wire| <= k < |fs[j].wire| && fs[j].wire[k].subscriber == sub
    ensures n < fs[j].wire[k].sequence
    ensures exists m :: i < m < j && Resumes(steps[m], sub)
  {
    FinalUntil(steps, fs, maxAttempts, i, j, sub, n);
    PostsAfter(steps, fs, maxAttempts, i, j, k, sub, n);
  }

  lemma {:induction false} FinalUntil(steps: seq<Step>, fs: seq<Fleet>, maxAttempts: int, i: nat, j: nat, sub: string,
                                      n: int)
    requires Passage(steps, fs, maxAttempts) && GentleRun(steps, fs) && i < j <= |steps|
    requires FailsForGood(fs[i], steps[i], maxAttempts, sub, n)
    ensures n < Frontier(fs[j].db.table, sub)
    ensures IsClosed(fs[j].db.table, sub) || exists m :: i < m < j && Resumes(steps[m], sub)
    decreases j
  {
    var f, s := fs[j - 1], steps[j - 1];
    GentleRunKeeps(steps, fs, maxAttempts, j - 1);
    assert Permits(f, s);
    if j == i + 1 {
      FailureSilences(f, s, maxAttempts, sub, n);
    } else {
      FinalUntil(steps, fs, maxAttempts, i, j - 1, sub, n);
      StepFrontiers(f, s, maxAttempts);
      assert Frontier(f.db.table, sub) <= Frontier(fs[j].db.table, sub);
      if IsClosed(f.db.table, sub) && !Resumes(s, sub) {
        StepClosed(f, s, maxAttempts, sub);
      }
    }
  }

  lemma {:induction false} PostsAfter(steps: seq<Step>, fs: seq<Fleet>, maxAttempts: int, i: nat, j: nat, k: nat,
                                      sub: string, n: int)
    requires Passage(steps, fs, maxAttempts) && GentleRun(steps, fs) && i < j <= |steps|
    requires FailsForGood(fs[i], steps[i], maxAttempts, sub, n)
    requires |fs[i + 1].wire| <= k < |fs[j].wire| && fs[j].wire[k].subscriber == sub
    ensures n < fs[j].wire[k].sequence && exists m :: i < m < j && Resumes(steps[m], sub)
    decreases j
  {
    var f, s := fs[j - 1], steps[j - 1];
    assert j > i + 1;
    GentleRunKeeps(steps, fs, maxAttempts, j - 1);
    assert Permits(f, s);
    FinalUntil(steps, fs, maxAttempts, i, j - 1, sub, n);
    if k < |f.wire| {
      PostsAfter(steps, fs, maxAttempts, i, j - 1, k, sub, n);
    } else {
      var d := f.workers[s.w].batch[0];
      assert Live(f.db.table, d, f.workers[s.w].token);
      InFlightAtFrontier(f.db.history, f.db.table, d.id);
      if IsClosed(f.db.table, sub) {
        NothingToPost(f, s, sub);
      }
    }
  }
}
