/** Work is bounded: every claim and every mark uses up part of a subscriber's budget. */
module FleetWork {
  import opened Deliveries
  import opened StoreSpec
  import opened Queues
  import opened Refinement
  import opened StoreRuns
  import opened Ownership
  import opened Fleet
  import opened FleetRuns
  import opened FleetPosts

  // ---- The budget ----

  function UnfinishedRows(t: Table, s: string): set<string> {
    set id | id in t.rows && t.rows[id].subscriber == s && Unfinished(t.rows[id])
  }

  function InFlightRows(t: Table, s: string): set<string> {
    set id | id in t.rows && t.rows[id].subscriber == s && t.rows[id].status == InFlight
  }

  ghost predicate IsFirst(t: Table, s: string, id: string) {
    id in UnfinishedRows(t, s) && t.rows[id].sequence == Frontier(t, s)
  }

  /** Attempts already made on the first unfinished row of `s`. */
  ghost function FirstAttempt(t: Table, s: string): int {
    if id :| IsFirst(t, s, id) then t.rows[id].attempt else 0
  }

  /** Steps that are left for `s`: a claim and a mark per remaining attempt of every unfinished
      row, where only the first row can have been tried. */
  ghost function Budget(t: Table, s: string, maxAttempts: nat): int {
    2 * maxAttempts * |UnfinishedRows(t, s)| - 2 * FirstAttempt(t, s) + |InFlightRows(t, s)|
  }

  function QueueBudget(q: Queue, maxAttempts: nat): int {
    if q.suspended then 0
    else 2 * maxAttempts * |q.line| - 2 * q.tries + if q.holder.Some? then 1 else 0
  }

  lemma BudgetIsQueued(t: Table, s: string, q: Queue, maxAttempts: nat)
    requires Mirrors(t, s, q)
    ensures Budget(t, s, maxAttempts) == QueueBudget(q, maxAttempts)
    ensures |UnfinishedRows(t, s)| == if q.suspended then 0 else |q.line|
  {
    LineIsWaiting(t, s, q);
    FrontIsFrontier(t, s, q);
    forall id | id in StoredRows(t, s)
      ensures Fits(id, t.rows[id], q)
    {
    }
    if q.suspended || q.line == [] {
      assert UnfinishedRows(t, s) == {};
      assert InFlightRows(t, s) == {};
    } else {
      assert UnfinishedRows(t, s) == WaitingRows(t, s);
      var head := q.line[0];
      assert IsFirst(t, s, head);
      assert forall id :: IsFirst(t, s, id) ==> id == head;
      assert InFlightRows(t, s) == if q.holder.Some? then {head} else {};
    }
  }

  // ---- Attempts stay within the limit ----

  ghost predicate WithinLimit(t: Table, limit: int) {
    forall id :: id in t.rows ==> Within(t.rows[id], limit)
  }

  /** The limit is maxAttempts as long as nothing has been reset, and rises with the resets. */
  lemma LimitRises(steps: seq<Step>, fs: seq<Fleet>, maxAttempts: int, k: nat, resets: nat)
    requires Passage(steps, fs, maxAttempts) && GentleRun(steps, fs) && k <= |steps| && maxAttempts >= 1
    requires forall sub, n :: ResetsOf(steps, fs, k, sub, n) <= resets
    ensures WithinLimit(fs[k].db.table, maxAttempts + resets)
  {
    forall id | id in fs[k].db.table.rows
      ensures Within(fs[k].db.table.rows[id], maxAttempts + resets)
    {
      AttemptsBounded(steps, fs, maxAttempts, k, id);
      var d := fs[k].db.table.rows[id];
      assert ResetsOf(steps, fs, k, d.subscriber, d.sequence) <= resets;
    }
  }

  lemma StepWithinLimit(f: Fleet, s: Step, maxAttempts: int, limit: nat)
    requires Inv(f) && WithinLimit(f.db.table, limit) && 1 <= limit && maxAttempts <= limit
    requires Permits(f, s) && ResetBy(f.db, s) == {}
    ensures WithinLimit(After(f, s, maxAttempts).db.table, limit)
  {
    forall id | id in After(f, s, maxAttempts).db.table.rows
      ensures Within(After(f, s, maxAttempts).db.table.rows[id], limit)
    {
      StepWithin(f, s, maxAttempts, id, limit);
    }
  }

  // ---- One step ----

  /** A change that adds no work: nothing new, nothing reopened, nothing reset. */
  ghost predicate NoNewWork(op: Op) {
    !op.Insert? && !op.Reopen? && (op.Recover? ==> op.ids == {})
  }

  /** The change claims or marks a row of `s`. */
  ghost predicate Works(t: Table, op: Op, s: string) {
    match op
    case Claim(picks, _, _) => exists id :: id in picks && id in t.rows && t.rows[id].subscriber == s
    case Finish(id, _, _, _, _) => id in t.rows && t.rows[id].subscriber == s
    case Retry(id, _, _, _, _, _) => id in t.rows && t.rows[id].subscriber == s
    case Suspend(id, _, _, _) => id in t.rows && t.rows[id].subscriber == s
    case _ => false
  }

  lemma ChangeUsesBudget(h: seq<Op>, t: Table, op: Op, s: string, maxAttempts: nat)
    requires Reached(h, t) && Legal(t, op) && WithinLimit(t, maxAttempts) && NoNewWork(op)
    requires op.Retry? ==> op.attempt == t.rows[op.id].attempt
    ensures Budget(Apply(t, op), s, maxAttempts) + (if Works(t, op, s) then 1 else 0) <= Budget(t, s, maxAttempts)
  {
    var q := ReachedMirrors(h, t, s);
    var m := MoveOf(t, op, s, q);
    Simulates(t, op, s, q);
    BudgetIsQueued(t, s, q, maxAttempts);
    BudgetIsQueued(Apply(t, op), s, q.After(m), maxAttempts);
    HeadWithinLimit(t, s, q, maxAttempts);
    WorkMoves(t, op, s, q);
    MoveUsesBudget(q, m, maxAttempts);
  }

  lemma HeadWithinLimit(t: Table, s: string, q: Queue, maxAttempts: nat)
    requires Mirrors(t, s, q) && WithinLimit(t, maxAttempts)
    ensures 0 <= q.tries <= maxAttempts
    ensures q.line != [] && q.holder == None ==> q.tries < maxAttempts
  {
    if q.line != [] {
      assert Fits(q.line[0], t.rows[q.line[0]], q);
    }
  }

  /** Working on `s` moves its queue, and a retry puts the head back with the tries it has had. */
  lemma WorkMoves(t: Table, op: Op, s: string, q: Queue)
    requires Mirrors(t, s, q) && Legal(t, op) && NoNewWork(op)
    requires op.Retry? ==> op.attempt == t.rows[op.id].attempt
    ensures var m := MoveOf(t, op, s, q);
      && q.Allows(m)
      && (m.Stay? || m.Take? || m.Pop? || m.Close? || m.Cut? || m == PutBack(q.tries))
      && (Works(t, op, s) ==> m.Take? || m.Pop? || m.Close? || m.PutBack?)
  {
    Simulates(t, op, s, q);
    match op
    case Claim(picks, _, now) =>
      if id :| id in picks && id in t.rows && t.rows[id].subscriber == s {
        ClaimableIsHead(t, s, q, id, now);
      }
    case Finish(id, _, _, _, _) =>
      if t.rows[id].subscriber == s { InFlightIsHead(t.rows, s, q, id); }
    case Suspend(id, _, _, _) =>
      if t.rows[id].subscriber == s { InFlightIsHead(t.rows, s, q, id); }
    case Retry(id, _, _, _, _, _) =>
      if t.rows[id].subscriber == s {
        InFlightIsHead(t.rows, s, q, id);
        assert Fits(id, t.rows[id], q);
      }
    case _ =>
  }

  lemma MoveUsesBudget(q: Queue, m: Move, maxAttempts: nat)
    requires q.Sound() && q.Allows(m) && q.tries <= maxAttempts
    requires m.Stay? || m.Take? || m.Pop? || m.Close? || m.Cut? || m == PutBack(q.tries)
    ensures QueueBudget(q.After(m), maxAttempts) +
      (if m.Take? || m.Pop? || m.Close? || m.PutBack? then 1 else 0) <= QueueBudget(q, maxAttempts)
  {
  }

  // ---- Runs ----

  /** Nothing is enqueued, reopened or reset. */
  ghost predicate Calm(f: Fleet, s: Step) {
    ResetBy(f.db, s) == {} && (s.External? && s.tx.Change? ==> NoNewWork(s.tx.op))
  }

  /** The step claims rows of `sub`, or marks one with a claim that is still good. */
  ghost predicate WorksOn(f: Fleet, s: Step, sub: string) {
    match s
    case Grab(_, order, _, _) => exists id ::
      id in order && id in f.db.table.rows && f.db.table.rows[id].subscriber == sub
    case Settle(w, _, _, _, _) =>
      w in f.workers && f.workers[w].batch != [] && f.workers[w].batch[0].subscriber == sub
    case _ => false
  }

  lemma StepUsesBudget(f: Fleet, s: Step, sub: string, maxAttempts: int, limit: nat)
    requires Inv(f) && WithinLimit(f.db.table, limit) && 1 <= limit && maxAttempts <= limit && Permits(f, s)
    requires Calm(f, s)
    ensures Budget(After(f, s, maxAttempts).db.table, sub, limit) + (if WorksOn(f, s, sub) then 1 else 0)
            <= Budget(f.db.table, sub, limit)
  {
    match s
    case External(tx) =>
      if tx.Change? {
        ChangeUsesBudget(f.db.history, f.db.table, tx.op, sub, limit);
      } else if tx.Force? && Decide(f.db.owners, tx.partition, tx.to, tx.expected) == Steal {
        ChangeUsesBudget(f.db.history, f.db.table, Recover({}), sub, limit);
      }
    case Grab(w, order, stamps, now) =>
      ChangeUsesBudget(f.db.history, f.db.table, Claim(stamps, f.workers[w].token, now), sub, limit);
    case Settle(_, _, _, _, _) => SettleUsesBudget(f, s, sub, maxAttempts, limit);
    case _ =>
  }

  lemma SettleUsesBudget(f: Fleet, s: Step, sub: string, maxAttempts: int, limit: nat)
    requires Inv(f) && WithinLimit(f.db.table, limit) && 1 <= limit && maxAttempts <= limit && Permits(f, s)
    requires s.Settle?
    ensures Budget(After(f, s, maxAttempts).db.table, sub, limit) + (if WorksOn(f, s, sub) then 1 else 0)
            <= Budget(f.db.table, sub, limit)
  {
    var k := f.workers[s.w];
    var d := k.batch[0];
    assert Live(f.db.table, d, k.token);
    var ops := SettleOps(f.db.table, k.token, d, k.outcome.value, maxAttempts, s.next, s.error, s.limits, s.now);
    AllOfOne(f.db, ops[0]);
    ChangeUsesBudget(f.db.history, f.db.table, ops[0], sub, limit);
    if |ops| == 2 {
      AllOfTwo(f.db, ops[0], ops[1]);
      MarkWithinLimit(f.db.table, ops[0], limit);
      ReachedNext(f.db.history, f.db.table, ops[0]);
      ChangeUsesBudget(f.db.history + [ops[0]], Apply(f.db.table, ops[0]), ops[1], sub, limit);
    }
  }

  lemma MarkWithinLimit(t: Table, op: Op, limit: nat)
    requires WithinLimit(t, limit) && limit >= 1 && Legal(t, op) && op.Suspend?
    ensures WithinLimit(Apply(t, op), limit)
  {
    forall id | id in Apply(t, op).rows
      ensures Within(Apply(t, op).rows[id], limit)
    {
      ChangeWithin(t, op, id, limit);
    }
  }

  /** How many of the steps from `i` to `j` work on `sub`. */
  ghost function Worked(steps: seq<Step>, fs: seq<Fleet>, i: nat, j: nat, sub: string): nat
    requires |fs| == |steps| + 1 && i <= j <= |steps|
    decreases j
  {
    if i == j then 0 else Worked(steps, fs, i, j - 1, sub) + if WorksOn(fs[j - 1], steps[j - 1], sub) then 1 else 0
  }

  /** Bounded work: while nothing is enqueued, resumed or reset, the claims and marks of a
      subscriber, however interleaved over workers and nodes, are paid for by its budget. What came
      before only has to leave every row within a limit of attempts. */
  lemma {:induction false} WorkIsBounded(steps: seq<Step>, fs: seq<Fleet>, maxAttempts: int, limit: nat, i: nat,
                                         j: nat, sub: string)
    requires Path(steps, fs, maxAttempts) && i <= j <= |steps| && Inv(fs[i])
    requires WithinLimit(fs[i].db.table, limit) && 1 <= limit && maxAttempts <= limit
    requires forall k {:trigger steps[k]} :: i <= k < j ==> Calm(fs[k], steps[k])
    ensures Inv(fs[j]) && WithinLimit(fs[j].db.table, limit)
    ensures Worked(steps, fs, i, j, sub) + Budget(fs[j].db.table, sub, limit) <= Budget(fs[i].db.table, sub, limit)
    decreases j
  {
    if i < j {
      WorkIsBounded(steps, fs, maxAttempts, limit, i, j - 1, sub);
      var s := steps[j - 1];
      assert Permits(fs[j - 1], s) && Calm(fs[j - 1], s);
      StepUsesBudget(fs[j - 1], s, sub, maxAttempts, limit);
      StepWithinLimit(fs[j - 1], s, maxAttempts, limit);
      StepKeeps(fs[j - 1], s, maxAttempts);
    }
  }

  lemma AtLeastOnce(m: nat, n: nat)
    requires n >= 1
    ensures m * n >= m
  {
  }

  lemma QueueBudgetRange(q: Queue, maxAttempts: nat)
    requires q.Sound() && 0 <= q.tries <= maxAttempts && (q.line != [] && q.holder == None ==> q.tries < maxAttempts)
    ensures var n := if q.suspended then 0 else |q.line|;
      && 0 <= QueueBudget(q, maxAttempts) <= 2 * maxAttempts * n + 1
      && (QueueBudget(q, maxAttempts) == 0 <==> n == 0)
  {
    if !q.suspended {
      if q.line == [] {
        assert 2 * maxAttempts * |q.line| == 0;
      } else {
        AtLeastOnce(2 * maxAttempts, |q.line|);
      }
    }
  }

  /** The budget is never negative, at most a claim and a mark for every attempt of every
      unfinished row and one mark besides, and used up exactly when nothing is left to do. */
  lemma BudgetRange(h: seq<Op>, t: Table, maxAttempts: nat, s: string)
    requires Reached(h, t) && WithinLimit(t, maxAttempts)
    ensures 0 <= Budget(t, s, maxAttempts) <= 2 * maxAttempts * |UnfinishedRows(t, s)| + 1
    ensures Budget(t, s, maxAttempts) == 0 <==> UnfinishedRows(t, s) == {}
  {
    var q := ReachedMirrors(h, t, s);
    BudgetIsQueued(t, s, q, maxAttempts);
    HeadWithinLimit(t, s, q, maxAttempts);
    QueueBudgetRange(q, maxAttempts);
  }
}
