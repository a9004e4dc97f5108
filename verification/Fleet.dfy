/** Workers of any number of processes over one store (worker.go, fold.go): a worker claims a
    batch, holds it, posts its rows one by one and marks each with the stamp of its claim, while
    enqueues, resizes, handoffs, takeovers, recoveries and crashes happen in between.

    A claim may carry any generation and any partition list, so every history of `Resize` is among
    the runs; whether a database is legacy or distributed only limits which claims are allowed. */
module Fleet {
  import opened Deliveries
  import opened StoreSpec
  import opened Ownership
  import opened Sorting

  /** What a POST came to (deliver.go), seen by the worker. */
  datatype Outcome = Success | Permanent | Retryable

  /** One worker goroutine: its claim token, the claimed rows it has not marked yet, and the
      outcome of the POST of the first of them once it is known. */
  datatype Worker = Worker(token: string, batch: seq<Delivery>, outcome: Option<Outcome>)

  /** One POST as a subscriber sees it. */
  datatype Post = Post(subscriber: string, sequence: int, success: bool)

  datatype Fleet = Fleet(db: Db, workers: map<nat, Worker>, wire: seq<Post>)

  datatype Step =
    | External(tx: DbOp)
    | Spawn(w: nat, token: string)
    | Grab(w: nat, order: seq<string>, stamps: map<string, nat>, now: int)
    | Send(w: nat, outcome: Outcome)
    | Settle(w: nat, next: Time, error: string, limits: Limits, now: int)
    | Lose(w: nat)
    | Quit(w: nat)

  const IDLE := Fleet(Db([], EMPTY, map[]), map[], [])

  /** The changes that a worker makes after a POST: none when its claim is stale; otherwise the
      row is finished, or exhausted with its subscriber suspended, or put back for a retry. */
  function SettleOps(t: Table, token: string, d: Delivery, outcome: Outcome, maxAttempts: int,
                     next: Time, error: string, limits: Limits, now: int): seq<Op> {
    if !Holds(t.rows, d.id, token, d.generation) then []
    else if outcome == Success then [Finish(d.id, token, d.generation, Delivered, "")]
    else if outcome == Permanent || d.attempt >= maxAttempts then
      [Suspend(d.id, token, d.generation, error), Trim(t.rows[d.id].subscriber, limits, now)]
    else [Retry(d.id, token, d.generation, d.attempt, next, error)]
  }

  function ChangedAll(db: Db, ops: seq<Op>): Db
    decreases |ops|
  {
    if ops == [] then db else ChangedAll(Changed(db, ops[0]), ops[1..])
  }

  /** Stores and operators do everything but claim and mark. */
  ghost predicate Outside(tx: DbOp) {
    tx.Change? ==> tx.op.Insert? || tx.op.Trim? || tx.op.Reopen? || tx.op.Recover?
  }

  ghost predicate Permits(f: Fleet, s: Step) {
    match s
    case External(tx) => Allowed(f.db, tx) && Outside(tx)
    case Spawn(w, _) => w !in f.workers
    case Grab(w, order, stamps, now) =>
      && w in f.workers && f.workers[w].batch == []
      && NoRepeats(order) && (forall id :: id in order <==> id in stamps)
      && Allowed(f.db, Change(Claim(stamps, f.workers[w].token, now)))
    case Send(w, _) => w in f.workers && f.workers[w].batch != [] && f.workers[w].outcome == None
    case Settle(w, _, _, _, _) => w in f.workers && f.workers[w].batch != [] && f.workers[w].outcome.Some?
    case Lose(w) => w in f.workers && f.workers[w].batch != [] && f.workers[w].outcome.Some?
    case Quit(w) => w in f.workers
  }

  function RowsOf(rows: map<string, Delivery>, order: seq<string>): seq<Delivery>
    requires forall id :: id in order ==> id in rows
  {
    seq(|order|, i requires 0 <= i < |order| => rows[order[i]])
  }

  function Popped(k: Worker): Worker
    requires k.batch != []
  {
    Worker(k.token, k.batch[1..], None)
  }

  function After(f: Fleet, s: Step, maxAttempts: int): Fleet
    requires Permits(f, s)
  {
    match s
    case External(tx) => f.(db := Next(f.db, tx))
    case Spawn(w, token) => f.(workers := f.workers[w := Worker(token, [], None)])
    case Grab(w, order, stamps, now) =>
      var k := f.workers[w];
      var db := Changed(f.db, Claim(stamps, k.token, now));
      f.(db := db, workers := f.workers[w := Worker(k.token, RowsOf(db.table.rows, order), None)])
    case Send(w, outcome) =>
      var k := f.workers[w];
      f.(workers := f.workers[w := k.(outcome := Some(outcome))],
         wire := f.wire + [Post(k.batch[0].subscriber, k.batch[0].sequence, outcome == Success)])
    case Settle(w, next, error, limits, now) =>
      var k := f.workers[w];
      var ops := SettleOps(f.db.table, k.token, k.batch[0], k.outcome.value, maxAttempts, next, error, limits, now);
      f.(db := ChangedAll(f.db, ops), workers := f.workers[w := Popped(k)])
    case Lose(w) => f.(workers := f.workers[w := Popped(f.workers[w])])
    case Quit(w) => f.(workers := f.workers - {w})
  }

  // ---- Runs ----

  /** The states that steps pass through. */
  ghost predicate Path(steps: seq<Step>, fs: seq<Fleet>, maxAttempts: int) {
    && |fs| == |steps| + 1
    && forall i {:trigger Permits(fs[i], steps[i])} :: 0 <= i < |steps| ==>
         Permits(fs[i], steps[i]) && fs[i + 1] == After(fs[i], steps[i], maxAttempts)
  }

  /** A run from the idle fleet. */
  ghost predicate Passage(steps: seq<Step>, fs: seq<Fleet>, maxAttempts: int) {
    Path(steps, fs, maxAttempts) && fs[0] == IDLE
  }

  /** Rows that workers have claimed and not yet marked. */
  ghost predicate HeldBy(f: Fleet, w: nat, i: nat, id: string) {
    w in f.workers && i < |f.workers[w].batch| && f.workers[w].batch[i].id == id
  }

  /** The in-flight rows that a step takes away from their claims: stale ones that are recovered,
      or all of a partition that is stolen. */
  function ResetBy(db: Db, s: Step): set<string> {
    match s
    case External(Change(Recover(ids))) => ids
    case External(Force(p, to, expected)) =>
      if Decide(db.owners, p, to, expected) == Steal then InFlightIn(db.table.rows, p) else {}
    case _ => {}
  }

  /** The step resets no row that a worker still holds. */
  ghost predicate Gentle(f: Fleet, s: Step) {
    forall w, i, id :: HeldBy(f, w, i, id) ==> id !in ResetBy(f.db, s)
  }

  /** Besides, no row that has been posted successfully is reset, to be posted again. */
  ghost predicate Clean(f: Fleet, s: Step) {
    Gentle(f, s) && forall id, k :: 0 <= k < |f.wire| && Delivers(f, k, id) ==> id !in ResetBy(f.db, s)
  }

  /** The `k`th post was a success of row `id`. */
  ghost predicate Delivers(f: Fleet, k: nat, id: string)
    requires k < |f.wire|
  {
    f.wire[k].success && id in f.db.table.rows
    && f.db.table.rows[id].subscriber == f.wire[k].subscriber && f.db.table.rows[id].sequence == f.wire[k].sequence
  }

  ghost predicate CleanRun(steps: seq<Step>, fs: seq<Fleet>) {
    |fs| == |steps| + 1 && forall i {:trigger steps[i]} :: 0 <= i < |steps| ==> Clean(fs[i], steps[i])
  }

  ghost predicate GentleRun(steps: seq<Step>, fs: seq<Fleet>) {
    |fs| == |steps| + 1 && forall i {:trigger steps[i]} :: 0 <= i < |steps| ==> Gentle(fs[i], steps[i])
  }

  /** No row is reset at all. */
  ghost predicate UnresetRun(steps: seq<Step>, fs: seq<Fleet>) {
    |fs| == |steps| + 1 && forall i {:trigger steps[i]} :: 0 <= i < |steps| ==> ResetBy(fs[i].db, steps[i]) == {}
  }
}
