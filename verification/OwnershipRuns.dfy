/** What ownership guarantees over whole runs: epochs, fencing, agreement of stamps. */
module OwnershipRuns {
  import opened Deliveries
  import opened StoreSpec
  import opened Tokens
  import opened Ownership

  /** The states that a run of transactions passes through. */
  ghost predicate Run(txs: seq<DbOp>, dbs: seq<Db>) {
    && |dbs| == |txs| + 1
    && forall i {:trigger Allowed(dbs[i], txs[i])} :: 0 <= i < |txs| ==>
         Allowed(dbs[i], txs[i]) && dbs[i + 1] == Next(dbs[i], txs[i])
  }

  const START := Db([], EMPTY, map[])

  // ---- Well-formed owner rows ----

  /** What the table's CHECK constraints and the operations keep of an owner row. */
  ghost predicate GoodRow(o: OwnerRow) {
    && NodeName(o.node) && 1 <= o.generation <= INT64_MAX
    && (o.state == Active ==> o.next == None)
    && (o.state == Draining ==> o.next.Some? && NodeName(o.next.value) && o.next.value != o.node)
  }

  ghost predicate GoodOwners(owners: Owners) {
    forall p :: p in owners ==> GoodRow(owners[p])
  }

  lemma GoodOwnersKept(db: Db, tx: DbOp)
    requires GoodOwners(db.owners)
    ensures GoodOwners(Next(db, tx).owners)
  {
  }

  // ---- Epochs ----

  /** One transaction moves an epoch by at most one, and exactly when the owner changes. */
  lemma EpochStep(db: Db, tx: DbOp, p: int)
    requires GoodOwners(db.owners) && p in db.owners
    ensures p in Next(db, tx).owners
    ensures var o, o2 := db.owners[p], Next(db, tx).owners[p];
      o2.generation == o.generation + if o2.node == o.node then 0 else 1
  {
  }

  lemma {:induction false} RunStaysGood(txs: seq<DbOp>, dbs: seq<Db>, n: nat)
    requires Run(txs, dbs) && GoodOwners(dbs[0].owners) && n <= |txs|
    ensures GoodOwners(dbs[n].owners)
  {
    if n > 0 {
      RunStaysGood(txs, dbs, n - 1);
      assert Allowed(dbs[n - 1], txs[n - 1]);
      GoodOwnersKept(dbs[n - 1], txs[n - 1]);
    }
  }

  /** One owner per epoch: over any run the generation of a partition never falls, and while it
      stays the same so does the owner; no generation belongs to two nodes. */
  lemma {:induction false} OneOwnerPerEpoch(txs: seq<DbOp>, dbs: seq<Db>, i: nat, j: nat, p: int)
    requires Run(txs, dbs) && GoodOwners(dbs[0].owners) && i <= j <= |txs| && p in dbs[i].owners
    ensures p in dbs[j].owners
    ensures dbs[i].owners[p].generation <= dbs[j].owners[p].generation
    ensures dbs[i].owners[p].generation == dbs[j].owners[p].generation ==>
      dbs[i].owners[p].node == dbs[j].owners[p].node
    decreases j
  {
    if i < j {
      OneOwnerPerEpoch(txs, dbs, i, j - 1, p);
      RunStaysGood(txs, dbs, j - 1);
      assert Allowed(dbs[j - 1], txs[j - 1]);
      EpochStep(dbs[j - 1], txs[j - 1], p);
    }
  }

  /** At most one completion or steal leaves each generation. */
  lemma OneHandoffPerEpoch(txs: seq<DbOp>, dbs: seq<Db>, i: nat, j: nat, p: int)
    requires Run(txs, dbs) && GoodOwners(dbs[0].owners) && i < j < |txs| && p in dbs[i].owners
    requires p in dbs[i + 1].owners && dbs[i + 1].owners[p].node != dbs[i].owners[p].node
    requires p in dbs[j].owners && p in dbs[j + 1].owners && dbs[j + 1].owners[p].node != dbs[j].owners[p].node
    ensures dbs[i].owners[p].generation < dbs[j].owners[p].generation
  {
    RunStaysGood(txs, dbs, i);
    assert Allowed(dbs[i], txs[i]);
    EpochStep(dbs[i], txs[i], p);
    OneOwnerPerEpoch(txs, dbs, i + 1, j, p);
  }

  /** Repeating a takeover that succeeded is a no-op as long as no other ownership transaction on
      the partition comes between, however many claims and marks do. */
  lemma {:induction false} ForceIsIdempotent(txs: seq<DbOp>, dbs: seq<Db>, i: nat, j: nat)
    requires Run(txs, dbs) && GoodOwners(dbs[0].owners) && i < j <= |txs| && txs[i].Force?
    requires !Decide(dbs[i].owners, txs[i].partition, txs[i].to, txs[i].expected).Refuse?
    requires forall k :: i < k < j ==> txs[k].Change? || txs[k].Ensure? || txs[k].partition != txs[i].partition
    ensures Decide(dbs[j].owners, txs[i].partition, txs[i].to, txs[i].expected) == Keep
    ensures Next(dbs[j], txs[i]) == dbs[j]
    decreases j
  {
    var p := txs[i].partition;
    RunStaysGood(txs, dbs, j - 1);
    assert Allowed(dbs[j - 1], txs[j - 1]);
    if i + 1 < j {
      ForceIsIdempotent(txs, dbs, i, j - 1);
      assert p in dbs[j].owners && dbs[j].owners[p] == dbs[j - 1].owners[p];
    }
  }

  // ---- Stamps ----

  /** The claim on an in-flight row agrees with the owner row of its partition. */
  ghost predicate Agrees(owners: Owners, d: Delivery) {
    d.partition in owners && d.generation == owners[d.partition].generation
    && ParseDistributedOwner(d.owner) == Some(owners[d.partition].node)
  }

  /** Claims agree everywhere. */
  ghost predicate StampsAgree(db: Db) {
    forall id {:trigger Agrees(db.owners, db.table.rows[id])} ::
      (id in db.table.rows && db.table.rows[id].status == InFlight) ==> Agrees(db.owners, db.table.rows[id])
  }

  /** The partition has changed hands since it was seeded. */
  ghost predicate HandedOver(owners: Owners, p: int) {
    p in owners && owners[p].generation > 1
  }

  /** Claims agree in every partition that has been handed over; before that, claims made before
      the seeding may still be in flight. */
  ghost predicate StampsAgreeOnceHandedOver(db: Db) {
    forall id {:trigger Agrees(db.owners, db.table.rows[id])} ::
      (id in db.table.rows && db.table.rows[id].status == InFlight
        && HandedOver(db.owners, db.table.rows[id].partition))
      ==> Agrees(db.owners, db.table.rows[id])
  }

  /** A change of the tables leaves in flight only rows that were so, untouched, or that it claimed. */
  lemma InFlightComesFrom(t: Table, op: Op, id: string)
    requires Legal(t, op) && id in Apply(t, op).rows && Apply(t, op).rows[id].status == InFlight
    ensures id in t.rows
    ensures Apply(t, op).rows[id] ==
      if op.Claim? && id in op.picks then Claimed(t.rows[id], op.owner, op.picks[id], op.now) else t.rows[id]
  {
  }

  /** The row whose claim has to agree: any, when `strict`; otherwise one in a partition that has
      been handed over. */
  ghost predicate Bound(owners: Owners, d: Delivery, strict: bool) {
    d.status == InFlight && (strict || HandedOver(owners, d.partition))
  }

  lemma AgreementKept(db: Db, tx: DbOp, id: string, strict: bool)
    requires GoodOwners(db.owners) && Allowed(db, tx) && (strict ==> db.owners != map[])
    requires id in db.table.rows && Bound(db.owners, db.table.rows[id], strict) ==> Agrees(db.owners, db.table.rows[id])
    requires id in Next(db, tx).table.rows && Bound(Next(db, tx).owners, Next(db, tx).table.rows[id], strict)
    ensures Agrees(Next(db, tx).owners, Next(db, tx).table.rows[id])
  {
    match tx
    case Change(op) => InFlightComesFrom(db.table, op, id);
    case Complete(p) =>
      assert db.table.rows[id].partition == p ==> id in InFlightIn(db.table.rows, p);
    case Force(p, to, expected) =>
      if Decide(db.owners, p, to, expected) == Steal {
        InFlightComesFrom(db.table, Recover(InFlightIn(db.table.rows, p)), id);
      }
    case _ =>
  }

  lemma StampsKept(db: Db, tx: DbOp)
    requires GoodOwners(db.owners) && Allowed(db, tx)
    ensures StampsAgreeOnceHandedOver(db) ==> StampsAgreeOnceHandedOver(Next(db, tx))
    ensures StampsAgree(db) && db.owners != map[] ==> StampsAgree(Next(db, tx))
  {
    var db2 := Next(db, tx);
    if StampsAgreeOnceHandedOver(db) {
      forall id | id in db2.table.rows && Bound(db2.owners, db2.table.rows[id], false)
        ensures Agrees(db2.owners, db2.table.rows[id])
      {
        AgreementKept(db, tx, id, false);
      }
    }
    if StampsAgree(db) && db.owners != map[] {
      forall id | id in db2.table.rows && Bound(db2.owners, db2.table.rows[id], true)
        ensures Agrees(db2.owners, db2.table.rows[id])
      {
        AgreementKept(db, tx, id, true);
      }
    }
  }

  lemma {:induction false} RunKeepsStamps(txs: seq<DbOp>, dbs: seq<Db>, n: nat)
    requires Run(txs, dbs) && GoodOwners(dbs[0].owners) && StampsAgreeOnceHandedOver(dbs[0]) && n <= |txs|
    ensures StampsAgreeOnceHandedOver(dbs[n])
  {
    if n > 0 {
      RunKeepsStamps(txs, dbs, n - 1);
      RunStaysGood(txs, dbs, n - 1);
      assert Allowed(dbs[n - 1], txs[n - 1]);
      StampsKept(dbs[n - 1], txs[n - 1]);
    }
  }

  /** Seeded before any claim, every in-flight row carries at all times its partition's current
      generation and a token of its current owner, through handoffs, takeovers, aborts and marks. */
  lemma {:induction false} StampsAlwaysAgree(txs: seq<DbOp>, dbs: seq<Db>, n: nat, p: int)
    requires Run(txs, dbs) && GoodOwners(dbs[0].owners) && p in dbs[0].owners && n <= |txs|
    requires forall id :: id in dbs[0].table.rows ==> dbs[0].table.rows[id].status != InFlight
    ensures StampsAgree(dbs[n]) && p in dbs[n].owners
  {
    if n > 0 {
      StampsAlwaysAgree(txs, dbs, n - 1, p);
      RunStaysGood(txs, dbs, n - 1);
      assert Allowed(dbs[n - 1], txs[n - 1]);
      StampsKept(dbs[n - 1], txs[n - 1]);
      EpochStep(dbs[n - 1], txs[n - 1], p);
    }
  }

  /** Draining: while a partition is being handed over nothing new is claimed in it, so its rows in
      flight only become fewer; the handoff can complete as soon as they are gone, unless the
      generations are used up. */
  lemma {:induction false} DrainingOnlyDrains(txs: seq<DbOp>, dbs: seq<Db>, i: nat, j: nat, p: int)
    requires Run(txs, dbs) && GoodOwners(dbs[0].owners) && i <= j <= |txs|
    requires forall k :: i <= k <= j ==> p in dbs[k].owners && dbs[k].owners[p].state == Draining
    ensures InFlightIn(dbs[j].table.rows, p) <= InFlightIn(dbs[i].table.rows, p)
    ensures CanComplete(dbs[j], p) <==>
      InFlightIn(dbs[j].table.rows, p) == {} && dbs[j].owners[p].generation < INT64_MAX
    decreases j
  {
    RunStaysGood(txs, dbs, j);
    assert GoodRow(dbs[j].owners[p]);
    if i < j {
      DrainingOnlyDrains(txs, dbs, i, j - 1, p);
      assert Allowed(dbs[j - 1], txs[j - 1]);
      assert p in dbs[j - 1].owners && p in dbs[j].owners;
      forall id | id in InFlightIn(dbs[j].table.rows, p)
        ensures id in InFlightIn(dbs[j - 1].table.rows, p)
      {
        DrainingClaimsNothing(dbs[j - 1], txs[j - 1], p, id);
      }
    }
  }

  lemma DrainingClaimsNothing(db: Db, tx: DbOp, p: int, id: string)
    requires Allowed(db, tx) && p in db.owners && db.owners[p].state == Draining
    requires id in InFlightIn(Next(db, tx).table.rows, p)
    ensures id in InFlightIn(db.table.rows, p)
  {
    match tx
    case Change(op) => InFlightComesFrom(db.table, op, id);
    case Force(q, to, expected) =>
      if Decide(db.owners, q, to, expected) == Steal {
        InFlightComesFrom(db.table, Recover(InFlightIn(db.table.rows, q)), id);
      }
    case _ =>
  }

  /** Fencing: once a partition has left generation `g`, no claim of generation `g` on any row of
      it is ever held again, so every mark that presents it fails, whoever sends it and whenever. */
  lemma StaleStampsAreFenced(txs: seq<DbOp>, dbs: seq<Db>, i: nat, j: nat, id: string, owner: string, g: nat)
    requires Run(txs, dbs) && dbs[0] == START && i <= j <= |txs|
    requires id in dbs[j].table.rows
    requires var p := dbs[j].table.rows[id].partition; p in dbs[i].owners && g < dbs[i].owners[p].generation
    ensures !Holds(dbs[j].table.rows, id, owner, g)
  {
    var p := dbs[j].table.rows[id].partition;
    OneOwnerPerEpoch(txs, dbs, i, j, p);
    RunKeepsStamps(txs, dbs, j);
    RunStaysGood(txs, dbs, j);
    var d := dbs[j].table.rows[id];
    assert d.status == InFlight && HandedOver(dbs[j].owners, p) ==> Agrees(dbs[j].owners, d);
  }

  // ---- Handoffs ----

  /** The `i`th transaction has started the drain that partition `p` is in: it named the owner, and
      the node that is to be the next one. */
  ghost predicate StartsDrain(txs: seq<DbOp>, dbs: seq<Db>, i: nat, p: int, o: OwnerRow) {
    && i < |txs| && i < |dbs| && txs[i].Begin? && txs[i].partition == p && p in dbs[i].owners
    && dbs[i].owners[p] == OwnerRow(txs[i].from, o.generation, Active, None)
    && o == OwnerRow(txs[i].from, o.generation, Draining, Some(txs[i].to))
  }

  lemma DrainStep(db: Db, tx: DbOp, p: int)
    requires GoodOwners(db.owners) && p in Next(db, tx).owners && Next(db, tx).owners[p].state == Draining
    requires p !in db.owners || Next(db, tx).owners[p] != db.owners[p]
    ensures tx.Begin? && tx.partition == p && p in db.owners
    ensures db.owners[p] == OwnerRow(tx.from, db.owners[p].generation, Active, None)
    ensures Next(db, tx).owners[p] == OwnerRow(tx.from, db.owners[p].generation, Draining, Some(tx.to))
  {
    if p in db.owners {
      assert GoodRow(db.owners[p]);
    }
  }

  /** Whenever a partition is draining, one transaction has started that drain, naming the present
      owner and the present next one, and nothing has touched the owner row since. */
  lemma {:induction false} DrainWasStarted(txs: seq<DbOp>, dbs: seq<Db>, j: nat, p: int) returns (i: nat)
    requires Run(txs, dbs) && GoodOwners(dbs[0].owners) && j <= |txs|
    requires p in dbs[0].owners ==> dbs[0].owners[p].state == Active
    requires p in dbs[j].owners && dbs[j].owners[p].state == Draining
    ensures i < j && StartsDrain(txs, dbs, i, p, dbs[j].owners[p])
    ensures forall k :: i < k <= j ==> p in dbs[k].owners && dbs[k].owners[p] == dbs[j].owners[p]
  {
    RunStaysGood(txs, dbs, j - 1);
    assert Allowed(dbs[j - 1], txs[j - 1]);
    if p in dbs[j - 1].owners && dbs[j - 1].owners[p] == dbs[j].owners[p] {
      i := DrainWasStarted(txs, dbs, j - 1, p);
    } else {
      i := j - 1;
      DrainStep(dbs[i], txs[i], p);
    }
  }

  /** A handoff that completes gives the partition, under the next generation, to the node that its
      drain named. */
  lemma HandoffGoesToNext(txs: seq<DbOp>, dbs: seq<Db>, j: nat, p: int) returns (i: nat)
    requires Run(txs, dbs) && GoodOwners(dbs[0].owners) && j < |txs| && txs[j] == Complete(p)
    requires p in dbs[0].owners ==> dbs[0].owners[p].state == Active
    requires p in dbs[j].owners && p in dbs[j + 1].owners && dbs[j + 1].owners[p] != dbs[j].owners[p]
    ensures i < j && StartsDrain(txs, dbs, i, p, dbs[j].owners[p])
    ensures dbs[j + 1].owners[p] == OwnerRow(txs[i].to, dbs[j].owners[p].generation + 1, Active, None)
    ensures forall id :: id in dbs[j].table.rows && dbs[j].table.rows[id].partition == p ==>
      dbs[j].table.rows[id].status != InFlight
  {
    assert Allowed(dbs[j], txs[j]);
    i := DrainWasStarted(txs, dbs, j, p);
    forall id | id in dbs[j].table.rows && dbs[j].table.rows[id].partition == p
      ensures dbs[j].table.rows[id].status != InFlight
    {
      assert id !in InFlightIn(dbs[j].table.rows, p);
    }
  }

  // ---- The tables of a run ----

  /** The deliveries in a database are what the changes it has made lead to, whatever the
      ownership transactions in between: all theorems about store histories hold of them. */
  lemma {:induction false} RunTablesReached(txs: seq<DbOp>, dbs: seq<Db>, n: nat)
    requires Run(txs, dbs) && Reached(dbs[0].history, dbs[0].table) && n <= |txs|
    ensures Reached(dbs[n].history, dbs[n].table)
  {
    if n > 0 {
      RunTablesReached(txs, dbs, n - 1);
      assert Allowed(dbs[n - 1], txs[n - 1]);
      NextReached(dbs[n - 1], txs[n - 1]);
    }
  }

  lemma NextReached(db: Db, tx: DbOp)
    requires Reached(db.history, db.table) && Allowed(db, tx)
    ensures Reached(Next(db, tx).history, Next(db, tx).table)
  {
    match tx
    case Change(op) => ReachedNext(db.history, db.table, op);
    case Force(p, to, expected) =>
      if Decide(db.owners, p, to, expected) == Steal {
        ReachedNext(db.history, db.table, Recover(InFlightIn(db.table.rows, p)));
      }
    case _ =>
  }

  // ---- What a database keeps about itself ----

  /** `db` is where the transactions `log` lead from an empty database. */
  ghost predicate Grown(log: seq<DbOp>, db: Db) {
    exists dbs :: Run(log, dbs) && dbs[0] == START && dbs[|log|] == db
  }

  lemma GrownNext(log: seq<DbOp>, db: Db, tx: DbOp)
    requires Grown(log, db) && Allowed(db, tx)
    ensures Grown(log + [tx], Next(db, tx))
  {
    var dbs :| Run(log, dbs) && dbs[0] == START && dbs[|log|] == db;
    var log2, dbs2 := log + [tx], dbs + [Next(db, tx)];
    forall i | 0 <= i < |log2|
      ensures Allowed(dbs2[i], log2[i]) && dbs2[i + 1] == Next(dbs2[i], log2[i])
    {
      if i < |log| {
        assert Allowed(dbs[i], log[i]);
      }
    }
    assert Run(log2, dbs2);
  }

  lemma GrownFacts(log: seq<DbOp>, db: Db)
    requires Grown(log, db)
    ensures Reached(db.history, db.table) && GoodOwners(db.owners)
  {
    var dbs :| Run(log, dbs) && dbs[0] == START && dbs[|log|] == db;
    EmptyReached();
    RunTablesReached(log, dbs, |log|);
    RunStaysGood(log, dbs, |log|);
  }

  /** A log of transactions leaves no doubt about the state. */
  lemma {:induction false} LogDeterminesState(log: seq<DbOp>, a: Db, b: Db)
    requires Grown(log, a) && Grown(log, b)
    ensures a == b
  {
    var xs :| Run(log, xs) && xs[0] == START && xs[|log|] == a;
    var bs :| Run(log, bs) && bs[0] == START && bs[|log|] == b;
    SameStates(log, xs, bs, |log|);
  }

  lemma {:induction false} SameStates(log: seq<DbOp>, xs: seq<Db>, bs: seq<Db>, n: nat)
    requires Run(log, xs) && Run(log, bs) && xs[0] == bs[0] && n <= |log|
    ensures xs[n] == bs[n]
  {
    if n > 0 {
      SameStates(log, xs, bs, n - 1);
      assert Allowed(xs[n - 1], log[n - 1]) && Allowed(bs[n - 1], log[n - 1]);
    }
  }

  function Txs(ops: seq<Op>): seq<DbOp> {
    seq(|ops|, i requires 0 <= i < |ops| => Change(ops[i]))
  }

  /** Changes of the tables that claim nothing need no owner's consent. */
  lemma {:induction false} GrownByChanges(log: seq<DbOp>, db: Db, ops: seq<Op>, t: Table)
    requires Grown(log, db) && Reached(db.history + ops, t)
    requires forall op :: op in ops ==> !op.Claim?
    ensures Grown(log + Txs(ops), Db(db.history + ops, t, db.owners))
    decreases |ops|
  {
    if ops == [] {
      GrownFacts(log, db);
      assert db.history + ops == db.history && log + Txs(ops) == log;
      ReachesOneTable(db.history, db.table, t);
    } else {
      var init, op := ops[..|ops| - 1], ops[|ops| - 1];
      assert db.history + ops == db.history + init + [op];
      var before := ReachedBefore(db.history + init, op, t);
      GrownByChanges(log, db, init, before);
      GrownNext(log + Txs(init), Db(db.history + init, before, db.owners), Change(op));
      assert log + Txs(ops) == log + Txs(init) + [Change(op)];
    }
  }
}
