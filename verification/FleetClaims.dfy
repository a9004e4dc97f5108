/** Claims that can be made: who may take the first row of a line, and how a fleet gets there,
    through aborted drains and seeded partitions, by steps that reset nothing. */
module FleetClaims {
  import opened Deliveries
  import opened StoreSpec
  import opened Tokens
  import opened Ownership
  import opened OwnershipRuns
  import opened Fleet
  import opened FleetPaths

  // ---- Something new ----

  lemma Pick(xs: set<int>) returns (x: int)
    requires xs != {}
    ensures x in xs
  {
    if forall y :: y !in xs {
      assert false;
    }
    x :| x in xs;
  }

  lemma {:induction false} Above(xs: set<int>) returns (n: nat)
    ensures forall x :: x in xs ==> x < n
  {
    n := 0;
    if xs != {} {
      var x := Pick(xs);
      var m := Above(xs - {x});
      n := if x < m then m else x + 1;
      assert forall y :: y in xs ==> y == x || y in xs - {x};
    }
  }

  lemma FreshWorker(workers: map<nat, Worker>) returns (w: nat)
    ensures w !in workers
  {
    var taken: set<int> := set v | v in workers;
    w := Above(taken);
    assert w in workers ==> w in taken;
  }

  // ---- Partitions that can have owners ----

  /** Nothing in the ownership table keeps a row that has not ended from ever being claimed. */
  ghost predicate ClaimsOpen(db: Db) {
    db.owners == map[] || forall id :: id in db.table.rows && Waiting(db.table.rows[id]) ==>
      db.table.rows[id].partition in db.owners
  }

  /** Every row that has not ended has a partition number that can be given an owner. */
  ghost predicate Numbered(db: Db) {
    db.owners == map[] || forall id :: id in db.table.rows && Waiting(db.table.rows[id]) ==>
      0 <= db.table.rows[id].partition
  }

  /** No other change lets a row wait that did not. */
  lemma WaitingComesFrom(t: Table, op: Op, id: string)
    requires !op.Insert? && Legal(t, op) && id in Apply(t, op).rows && Waiting(Apply(t, op).rows[id])
    ensures id in t.rows && Waiting(t.rows[id]) && Apply(t, op).rows[id].partition == t.rows[id].partition
  {
  }

  lemma NumbersKept(db: Db, op: Op)
    requires Numbered(db) && Legal(db.table, op) && !op.Insert?
    ensures Numbered(Changed(db, op))
  {
    forall id | id in Apply(db.table, op).rows && Waiting(Apply(db.table, op).rows[id])
      ensures id in db.table.rows && Waiting(db.table.rows[id])
      ensures Apply(db.table, op).rows[id].partition == db.table.rows[id].partition
    {
      WaitingComesFrom(db.table, op, id);
    }
  }

  lemma OwnershipKeepsNumbers(db: Db, tx: DbOp)
    requires Numbered(db) && !tx.Change? && db.owners != map[]
    ensures Numbered(Next(db, tx)) && Next(db, tx).owners != map[]
  {
    if tx.Force? && Decide(db.owners, tx.partition, tx.to, tx.expected) == Steal {
      NumbersKept(db, Recover(InFlightIn(db.table.rows, tx.partition)));
    }
    assert forall p :: p in db.owners ==> p in Next(db, tx).owners;
  }

  /** Nothing but owner rows has changed, and no partition has lost its owner. */
  ghost predicate OnlyOwners(f: Fleet, g: Fleet) {
    && g == f.(db := f.db.(owners := g.db.owners)) && GoodOwners(g.db.owners)
    && (forall p :: p in f.db.owners ==> p in g.db.owners)
    && (f.db.owners == map[] ==> g == f)
  }

  lemma OpenStays(f: Fleet, g: Fleet)
    requires ClaimsOpen(f.db) && OnlyOwners(f, g)
    ensures ClaimsOpen(g.db)
  {
  }

  /** Nodes for the partitions below `n`: the owners that there are, and some node for the others. */
  function Nodes(owners: Owners, n: nat): seq<string> {
    seq(n, p requires 0 <= p < n => if p in owners then owners[p].node else "x")
  }

  /** Gives every partition an owner that lacks one and has rows that wait. */
  lemma OpenClaims(f0: Fleet, f: Fleet, maxAttempts: int, care: Care) returns (g: Fleet)
    requires Onward(f0, f, maxAttempts, care) && GoodOwners(f.db.owners) && Numbered(f.db)
    ensures Onward(f0, g, maxAttempts, care) && OnlyOwners(f, g) && ClaimsOpen(g.db)
    ensures forall p :: p in f.db.owners ==> g.db.owners[p] == f.db.owners[p]
  {
    g := f;
    if f.db.owners != map[] {
      var rows := f.db.table.rows;
      var numbers := set id | id in rows :: rows[id].partition;
      var n := Above(numbers);
      assert forall id :: id in rows ==> rows[id].partition in numbers;
      var tx := Ensure(Nodes(f.db.owners, n + 1));
      assert Nodes(f.db.owners, n + 1) != [];
      assert Seedable(f.db.owners, Nodes(f.db.owners, n + 1));
      g := f.(db := Next(f.db, tx));
      OnwardNext(f0, f, External(tx), maxAttempts, care);
      GoodOwnersKept(f.db, tx);
    }
  }

  // ---- Who may claim ----

  /** A claim with this token and generation may take rows of partition `p`. */
  ghost predicate Grants(db: Db, p: int, token: string, generation: nat) {
    && token != "" && generation != 0
    && (db.owners == map[]
        || (ParseDistributedOwner(token).Some?
          && Authorizes(db.owners, p, ParseDistributedOwner(token).value, generation)))
  }

  /** Aborts a drain of the partition, if there is one. */
  lemma Activate(f0: Fleet, f: Fleet, p: int, maxAttempts: int, care: Care) returns (g: Fleet)
    requires Onward(f0, f, maxAttempts, care) && GoodOwners(f.db.owners) && p in f.db.owners
    ensures Onward(f0, g, maxAttempts, care) && OnlyOwners(f, g) && g.db.owners[p].state == Active
    ensures g.db.owners[p].node == f.db.owners[p].node && g.db.owners[p].generation == f.db.owners[p].generation
  {
    g := f;
    var o := f.db.owners[p];
    if o.state == Draining {
      var tx := Force(p, o.node, o.generation);
      assert Decide(f.db.owners, p, o.node, o.generation) == Abort;
      g := f.(db := Next(f.db, tx));
      OnwardNext(f0, f, External(tx), maxAttempts, care);
      GoodOwnersKept(f.db, tx);
    }
  }

  lemma FindGrant(f0: Fleet, f: Fleet, p: int, maxAttempts: int, care: Care)
    returns (g: Fleet, token: string, generation: nat)
    requires Onward(f0, f, maxAttempts, care) && GoodOwners(f.db.owners) && (f.db.owners == map[] || p in f.db.owners)
    ensures Onward(f0, g, maxAttempts, care) && OnlyOwners(f, g) && Grants(g.db, p, token, generation)
  {
    if f.db.owners == map[] {
      g, token, generation := f, OwnerID(0), 1;
    } else {
      g := Activate(f0, f, p, maxAttempts, care);
      token, generation := OwnersToken(g.db.owners, p);
    }
  }

  /** A token that a worker of the partition's owner has, and the generation to claim with. */
  lemma OwnersToken(owners: Owners, p: int) returns (token: string, generation: nat)
    requires GoodOwners(owners) && p in owners
    ensures token != "" && generation == owners[p].generation != 0
    ensures ParseDistributedOwner(token) == Some(owners[p].node)
  {
    assert GoodRow(owners[p]);
    token, generation := ClaimOwnerID(owners[p].node, "x", 0), owners[p].generation;
    DistributedOwnerExact(token, owners[p].node);
    assert TokenOf(token, owners[p].node, "x", 0);
  }

  // ---- Claiming ----

  /** `g` is `f` after the claim `op`, which takes the row `id` alone, by the new worker `v`. */
  ghost predicate ClaimsOne(f: Fleet, g: Fleet, v: nat, op: Op, id: string) {
    && op.Claim? && op.picks.Keys == {id} && Legal(f.db.table, op)
    && g.db == Changed(f.db, op) && g.wire == f.wire && id in g.db.table.rows
    && v !in f.workers && g.workers == f.workers[v := Worker(op.owner, [g.db.table.rows[id]], None)]
  }

  /** A new worker claims a row that can be claimed when it is due. */
  lemma ClaimRow(f0: Fleet, f: Fleet, id: string, token: string, generation: nat, maxAttempts: int,
                 care: Care)
    returns (g: Fleet, v: nat, op: Op)
    requires Onward(f0, f, maxAttempts, care) && ClaimsOpen(f.db)
    requires id in f.db.table.rows && forall now :: Due(f.db.table.rows[id], now) ==> Claimable(f.db.table, id, now)
    requires Grants(f.db, f.db.table.rows[id].partition, token, generation)
    ensures Onward(f0, g, maxAttempts, care) && ClaimsOne(f, g, v, op, id)
    ensures op.owner == token && op.picks[id] == generation
  {
    var now := if f.db.table.rows[id].nextAttempt.At? then f.db.table.rows[id].nextAttempt.ns else 0;
    v := FreshWorker(f.workers);
    op := Claim(map[id := generation], token, now);
    assert Claimable(f.db.table, id, now);
    GrantAllows(f.db, op, id);
    g := SpawnAndGrab(f0, f, v, id, op, maxAttempts, care);
  }

  lemma SpawnAndGrab(f0: Fleet, f: Fleet, v: nat, id: string, op: Op, maxAttempts: int, care: Care) returns (g: Fleet)
    requires Onward(f0, f, maxAttempts, care) && op.Claim? && v !in f.workers
    requires op.picks.Keys == {id} && id in f.db.table.rows && Allowed(f.db, Change(op))
    ensures Onward(f0, g, maxAttempts, care) && ClaimsOne(f, g, v, op, id)
  {
    OnwardNext(f0, f, Spawn(v, op.owner), maxAttempts, care);
    var f1 := f.(workers := f.workers[v := Worker(op.owner, [], None)]);
    g := GrabOne(f0, f1, v, id, op, maxAttempts, care);
    UpdatedTwice(f.workers, v, Worker(op.owner, [], None), g.workers[v]);
  }

  lemma UpdatedTwice(workers: map<nat, Worker>, v: nat, before: Worker, after: Worker)
    ensures workers[v := before][v := after] == workers[v := after]
  {
  }

  lemma GrantAllows(db: Db, op: Op, id: string)
    requires op.Claim? && id in db.table.rows && op.picks.Keys == {id}
    requires db.owners == map[] || MetadataComplete(db)
    requires Claimable(db.table, id, op.now)
    requires Grants(db, db.table.rows[id].partition, op.owner, op.picks[id])
    ensures Allowed(db, Change(op))
  {
  }

  lemma GrabOne(f0: Fleet, f: Fleet, v: nat, id: string, op: Op, maxAttempts: int, care: Care) returns (g: Fleet)
    requires Onward(f0, f, maxAttempts, care) && op.Claim? && v in f.workers
    requires f.workers[v] == Worker(op.owner, [], None)
    requires op.picks.Keys == {id} && id in f.db.table.rows && Allowed(f.db, Change(op))
    ensures Onward(f0, g, maxAttempts, care) && g.db == Changed(f.db, op) && g.wire == f.wire
    ensures id in g.db.table.rows
    ensures g.workers == f.workers[v := Worker(op.owner, [g.db.table.rows[id]], None)]
  {
    var step := Grab(v, [id], op.picks, op.now);
    OnwardNext(f0, f, step, maxAttempts, care);
    g := After(f, step, maxAttempts);
    assert RowsOf(g.db.table.rows, [id]) == [g.db.table.rows[id]];
  }
}
