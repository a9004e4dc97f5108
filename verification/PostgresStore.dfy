/** The SQL store (store/postgres/postgres.go, store/postgres/ownership.go). The database is shared
    by any number of stores; each statement or transaction is one atomic step on it. A database
    logs its transactions, and `Valid` says that they were allowed and that the tables are exactly
    what they lead to, so that every theorem about runs and histories holds of it. */
module PostgresStore {
  import opened Deliveries
  import opened StoreSpec
  import opened StoreRuns
  import opened Claiming
  import opened Batches
  import opened Tokens
  import opened Ownership
  import opened OwnershipRuns
  import opened Retention
  import opened PostgresQueries
  import opened PostgresClaims
  import M = MemoryStore

  /** What a claim comes to before it looks at any row. */
  datatype Entitlement = Refused(error: Error) | Nothing | Granted(grant: Grant)

  /** Once there are owner rows, or the flag is set, only they entitle a claim; an incomplete
      ownership table refuses everybody. */
  function EntitlementOf(db: Db, flag: bool, owner: string, generation: nat, partitions: seq<int>,
                         limit: int): Entitlement {
    if owner == "" then Refused(NoOwner)
    else if generation == 0 then Refused(ZeroGeneration)
    else if limit <= 0 then Nothing
    else if flag || db.owners != map[] then
      match ParseDistributedOwner(owner)
      case None => Refused(BadOwner)
      case Some(node) =>
        if db.owners == map[] || !MetadataComplete(db) then Refused(NoMetadata) else Granted(ByOwners(db.owners, node))
    else if partitions == [] then Nothing
    else Granted(ByList(PartitionSet(partitions), generation))
  }

  /** There are no owner rows at all, or some row in line lies in a partition without one. */
  ghost predicate NoMetadataFor(db: Db) {
    db.owners == map[]
    || exists id ::
         && id in db.table.rows && db.table.rows[id].partition !in db.owners
         && (db.table.rows[id].status == Pending || db.table.rows[id].status == InFlight)
  }

  /** Opting in can be forgotten or undone: once there are owner rows, claims come to the same with
      the flag as without it. */
  lemma FlagCannotDisable(db: Db)
    ensures db.owners != map[] <==>
      forall o, g: nat, ps, n :: EntitlementOf(db, true, o, g, ps, n) == EntitlementOf(db, false, o, g, ps, n)
  {
    if db.owners == map[] {
      assert EntitlementOf(db, true, "a", 1, [], 1) != EntitlementOf(db, false, "a", 1, [], 1);
    }
  }

  /** A granted claim is one that the ownership protocol allows. */
  lemma GrantIsAllowed(db: Db, flag: bool, owner: string, generation: nat, partitions: seq<int>, limit: int,
                       ids: set<string>, locked: set<string>, now: int)
    requires EntitlementOf(db, flag, owner, generation, partitions, limit).Granted?
    requires GoodOwners(db.owners)
    requires var grant := EntitlementOf(db, flag, owner, generation, partitions, limit).grant;
      ids <= Unlocked(db.table, grant, locked, now)
    ensures var grant := EntitlementOf(db, flag, owner, generation, partitions, limit).grant;
      Allowed(db, Change(Claim(PicksOf(db.table, ids, grant), owner, now)))
  {
    var grant := EntitlementOf(db, flag, owner, generation, partitions, limit).grant;
    forall p
      ensures grant.StampFor(p) != Some(0)
    {
    }
    ChosenIsLegal(db.table, ids, grant, locked, owner, now);
  }

  /** A mark by UPDATE cannot tell why it matched no row. */
  function MarkError(rows: map<string, Delivery>, id: string, owner: string, generation: nat): (e: Option<Error>)
    ensures e == None <==>
      (generation != 0 && id in rows && rows[id].status == InFlight
       && rows[id].owner == owner && rows[id].generation == generation)
  {
    if generation == 0 then Some(ZeroGeneration)
    else if Holds(rows, id, owner, generation) then None
    else Some(StaleClaim)
  }

  /** The two stores refuse the same marks; where the store in memory says what is wrong with the
      row, this one says that the claim is stale. */
  lemma MarksAgree(rows: map<string, Delivery>, id: string, owner: string, generation: nat)
    ensures var mine, theirs := MarkError(rows, id, owner, generation), M.HoldError(rows, id, owner, generation);
      && (mine == None <==> theirs == None) && (mine == Some(ZeroGeneration) <==> theirs == Some(ZeroGeneration))
  {
  }

  /** A row is ended once: whoever marks it again, with whatever claim and however much later, is
      refused, by each store in its own words. */
  lemma EndedMarkIsRefused(h: seq<Op>, ts: seq<Table>, i: nat, j: nat, id: string, owner: string, generation: nat)
    requires Passes(h, ts) && i <= j <= |h| && id in ts[i].rows && !Waiting(ts[i].rows[id]) && generation != 0
    ensures MarkError(ts[j].rows, id, owner, generation) == Some(StaleClaim)
    ensures M.HoldError(ts[j].rows, id, owner, generation) == Some(NotInFlight)
  {
    EndedIsFinal(h, ts, i, j, id);
  }

  /** Fencing at the store: once the log has taken a partition past generation `g`, whatever is
      logged later, every mark that presents `g` on any row of the partition is refused, and by
      their contracts a refused mark changes nothing and suspends nobody. */
  lemma StaleMarkIsRefused(log: seq<DbOp>, db: Db, later: seq<DbOp>, db2: Db, id: string, owner: string, g: nat)
    requires Grown(log, db) && Grown(log + later, db2) && g != 0 && id in db2.table.rows
    requires var p := db2.table.rows[id].partition; p in db.owners && g < db.owners[p].generation
    ensures MarkError(db2.table.rows, id, owner, g) == Some(StaleClaim)
  {
    var dbs :| Run(log + later, dbs) && dbs[0] == START && dbs[|log + later|] == db2;
    var first := dbs[..|log| + 1];
    forall i | 0 <= i < |log|
      ensures Allowed(first[i], log[i]) && first[i + 1] == Next(first[i], log[i])
    {
      assert Allowed(dbs[i], (log + later)[i]);
    }
    assert Run(log, first);
    LogDeterminesState(log, db, first[|log|]);
    StaleStampsAreFenced(log + later, dbs, |log|, |log + later|, id, owner, g);
  }

  function ExpiredIds(rows: map<string, Delivery>, cutoff: int): set<string> {
    set id | id in rows && rows[id].status == InFlight && rows[id].claimedAt.At? && rows[id].claimedAt.ns < cutoff
  }

  /** Every node name is non-empty and has no slash. */
  predicate NodeNames(nodes: seq<string>) {
    forall p :: 0 <= p < |nodes| ==> NodeName(nodes[p])
  }

  /** The same node for each of `n` partitions. */
  function Alike(node: string, n: nat): seq<string> {
    seq(n, _ => node)
  }

  lemma AlikeNames(node: string, n: nat)
    requires n > 0
    ensures NodeNames(Alike(node, n)) <==> NodeName(node)
  {
    assert Alike(node, n)[0] == node;
  }

  class Database {
    var deliveries: map<string, Delivery>
    var sequences: map<string, nat>
    var subscribers: map<string, Meta>
    var owners: Owners
    ghost var history: seq<Op>
    ghost var log: seq<DbOp>

    function Tables(): Table
      reads this
    {
      Table(deliveries, sequences, subscribers)
    }

    ghost function State(): Db
      reads this
    {
      Db(history, Tables(), owners)
    }

    ghost predicate Valid()
      reads this
    {
      Grown(log, State())
    }

    constructor ()
      ensures Valid() && log == [] && State() == START
    {
      deliveries, sequences, subscribers, owners := map[], map[], map[], map[];
      history, log := [], [];
      new;
      assert Run([], [START]);
    }

    /** COMMIT of a transaction on the delivery tables. */
    method Commit(t: Table, ghost ops: seq<Op>)
      requires Valid() && Reached(history + ops, t) && forall op :: op in ops ==> !op.Claim?
      modifies this
      ensures Valid() && log == old(log) + Txs(ops) && State() == Db(old(history) + ops, t, old(owners))
    {
      GrownByChanges(log, State(), ops, t);
      deliveries, sequences, subscribers := t.rows, t.seqs, t.subs;
      history, log := history + ops, log + Txs(ops);
    }

    /** COMMIT of any one transaction. */
    method CommitOne(t: Table, rows: Owners, ghost tx: DbOp)
      requires Valid() && Allowed(State(), tx)
      requires Next(State(), tx).table == t && Next(State(), tx).owners == rows
      modifies this
      ensures Valid() && log == old(log) + [tx] && State() == Next(old(State()), tx)
    {
      GrownNext(log, State(), tx);
      history, log := Next(State(), tx).history, log + [tx];
      deliveries, sequences, subscribers, owners := t.rows, t.seqs, t.subs, rows;
    }
  }

  class Store {
    const db: Database
    var distributed: bool
    var retentionMaxCount: int
    var retentionMaxAge: int

    function Bounds(): (limits: Limits)
      reads this`retentionMaxCount, this`retentionMaxAge
      ensures limits.maxCount == if retentionMaxCount <= 0 then 1000 else retentionMaxCount
      ensures limits.maxAge == if retentionMaxAge <= 0 then 86_400_000_000_000 else retentionMaxAge
    {
      Limits(if retentionMaxCount > 0 then retentionMaxCount else DEFAULT_RETENTION_MAX_COUNT,
             if retentionMaxAge > 0 then retentionMaxAge else DEFAULT_RETENTION_MAX_AGE)
    }

    /** Opens a database; one with owner rows puts the store in distributed mode at once. */
    constructor (database: Database)
      ensures db == database && distributed == (database.owners != map[])
    {
      db, distributed := database, database.owners != map[];
      retentionMaxCount, retentionMaxAge := 0, 0;
    }

    method Refresh()
      modifies this`distributed
      ensures distributed == (old(distributed) || db.owners != map[])
    {
      if |db.owners| > 0 {
        distributed := true;
      }
    }

    method SetDistributedOwnership(v: bool)
      modifies this`distributed
      ensures distributed == v
    {
      distributed := v;
    }

    // ---- Enqueue ----

    /** All or nothing: a batch with a faulty row leaves no trace, sequences included. */
    method Enqueue(ds: seq<Delivery>, now: int)
      returns (err: Option<Error>, ghost stored: nat, ghost order: seq<string>)
      requires db.Valid() && forall id :: id in db.deliveries ==> db.deliveries[id].createdAt <= now
      modifies db
      ensures db.Valid()
      ensures Accepted(old(db.deliveries).Keys, ds, stored)
      ensures if stored == |ds| then err == None else err.Some? && err == Fault(old(db.deliveries).Keys, ds, stored)
      ensures err.Some? ==> db.State() == old(db.State()) && db.log == old(db.log)
      ensures err == None ==>
        && Lists(order, SuspendedAmong(old(db.Tables()), ds, |ds|))
        && db.log == old(db.log) + Txs(Insertions(ds, |ds|, now) + Trims(order, Bounds(), now))
    {
      stored, order := 0, [];
      if |ds| == 0 {
        assert Txs(Insertions(ds, |ds|, now) + Trims(order, Bounds(), now)) == [];
        return None, stored, order;
      }
      GrownFacts(db.log, db.State());
      ghost var h := db.history;
      var t, touched;
      err, t, touched, stored := EnqueueRows(db.Tables(), ds, now, h);
      if err != None {
        return;
      }
      t, order := RetainEach(t, touched, Bounds(), now, h + Insertions(ds, |ds|, now));
      ghost var ops := Insertions(ds, |ds|, now) + Trims(order, Bounds(), now);
      assert h + Insertions(ds, |ds|, now) + Trims(order, Bounds(), now) == h + ops;
      InsertionsClaimNothing(ds, |ds|, now);
      db.Commit(t, ops);
    }

    // ---- Claim ----

    method Claim(owner: string, generation: nat, partitions: seq<int>, limit: int, locked: set<string>, now: int)
      returns (r: Result<seq<Delivery>, Error>)
      requires db.Valid()
      modifies db, this`distributed
      ensures db.Valid()
      ensures match EntitlementOf(old(db.State()), old(distributed), owner, generation, partitions, limit)
        case Refused(error) => r == Err(error) && db.State() == old(db.State()) && db.log == old(db.log)
        case Nothing => r == Ok([]) && db.State() == old(db.State()) && db.log == old(db.log)
        case Granted(grant) =>
          && r.Ok? && ExactBatch(old(db.Tables()), r.value, grant, locked, limit, owner, now)
          && db.log == old(db.log) + [Change(Op.Claim(PicksOf(old(db.Tables()), IdSet(r.value), grant), owner, now))]
      ensures distributed ==
        (old(distributed) || (owner != "" && generation != 0 && limit > 0 && old(db.owners) != map[]))
      ensures r.Err? <==>
        (owner == "" || generation == 0
         || (limit > 0 && distributed && (ParseDistributedOwner(owner) == None || NoMetadataFor(old(db.State())))))
      ensures r.Err? ==>
        r.error == if owner == "" then NoOwner else if generation == 0 then ZeroGeneration
                   else if ParseDistributedOwner(owner) == None then BadOwner else NoMetadata
      ensures r.Ok? && limit > 0 ==>
        SqlShare(old(db.deliveries), db.subscribers, db.owners, db.deliveries, r.value, partitions, locked, limit,
                 owner, generation, now)
    {
      if owner == "" { return Err(NoOwner); }
      if generation == 0 { return Err(ZeroGeneration); }
      if limit <= 0 { return Ok([]); }
      Refresh();
      if !distributed && partitions == [] { return Ok([]); }
      var grant: Grant;
      if distributed {
        var node := ParseDistributedOwner(owner);
        if node == None { return Err(BadOwner); }
        var complete := CheckOwnershipMetadata();
        if !complete { return Err(NoMetadata); }
        grant := ByOwners(db.owners, node.value);
      } else {
        grant := ByList(PartitionSet(partitions), generation);
      }
      var out := ClaimGranted(grant, old(distributed), owner, generation, partitions, limit, locked, now);
      r := Ok(out);
    }

    method ClaimGranted(grant: Grant, ghost flag: bool, owner: string, generation: nat, partitions: seq<int>,
                        limit: int, locked: set<string>, now: int) returns (out: seq<Delivery>)
      requires db.Valid()
      requires EntitlementOf(db.State(), flag, owner, generation, partitions, limit) == Granted(grant)
      modifies db
      ensures db.Valid() && db.owners == old(db.owners) && db.subscribers == old(db.subscribers)
      ensures ExactBatch(old(db.Tables()), out, grant, locked, limit, owner, now)
      ensures db.log == old(db.log) + [Change(Op.Claim(PicksOf(old(db.Tables()), IdSet(out), grant), owner, now))]
      ensures SqlShare(old(db.deliveries), db.subscribers, db.owners, db.deliveries, out, partitions, locked, limit,
                       owner, generation, now)
    {
      GrownFacts(db.log, db.State());
      ghost var t0, h := db.Tables(), db.history;
      var t, picks;
      t, out, picks := TakeBatch(db.Tables(), grant, locked, limit, owner, now, db.history);
      GrantIsAllowed(db.State(), flag, owner, generation, partitions, limit, IdSet(out), locked, now);
      BatchIsShare(h, t0, t, out, grant, locked, limit, db.owners, partitions, owner, generation, now);
      db.CommitOne(t, db.owners, Change(Op.Claim(picks, owner, now)));
    }

    method CheckOwnershipMetadata() returns (complete: bool)
      ensures complete == (db.owners != map[] && MetadataComplete(db.State()))
    {
      if |db.owners| == 0 {
        return false;
      }
      var owners := db.owners;
      var unowned := (d: Delivery) => Unfinished(d) && d.partition !in owners;
      var missing := CountWhere(db.deliveries, unowned);
      complete := missing == 0;
      assert forall id :: id in Where(db.deliveries, unowned) <==>
        id in db.deliveries && Unfinished(db.deliveries[id]) && db.deliveries[id].partition !in owners;
    }

    // ---- Marks ----

    method MarkTerminal(id: string, owner: string, generation: nat, status: Status,
                        error: string) returns (err: Option<Error>)
      requires db.Valid() && (status == Delivered || status == DeadLettered)
      modifies db
      ensures db.Valid() && err == MarkError(old(db.deliveries), id, owner, generation)
      ensures db.log == old(db.log) + if err == None then [Change(Finish(id, owner, generation, status, error))] else []
      ensures err != None ==> db.State() == old(db.State())
      ensures err == None ==>
        db.deliveries == old(db.deliveries)[
          id := old(db.deliveries)[id].(status := status, lastError := error, owner := "", generation := 0,
                                        claimedAt := Never)]
    {
      if generation == 0 { return Some(ZeroGeneration); }
      if !Holds(db.deliveries, id, owner, generation) { return Some(StaleClaim); }
      var d := db.deliveries[id];
      d := d.(status := status, lastError := error, owner := "", generation := 0, claimedAt := Never);
      GrownFacts(db.log, db.State());
      db.CommitOne(db.Tables().(rows := db.deliveries[id := d]), db.owners,
                   Change(Finish(id, owner, generation, status, error)));
      err := None;
    }

    method MarkDelivered(id: string, owner: string, generation: nat) returns (err: Option<Error>)
      requires db.Valid()
      modifies db
      ensures db.Valid() && err == MarkError(old(db.deliveries), id, owner, generation)
      ensures db.log == old(db.log) + if err == None then [Change(Finish(id, owner, generation, Delivered, ""))] else []
      ensures err != None ==> db.State() == old(db.State())
      ensures err == None ==>
        db.deliveries == old(db.deliveries)[
          id := old(db.deliveries)[id].(status := Delivered, lastError := "", owner := "", generation := 0,
                                        claimedAt := Never)]
    {
      err := MarkTerminal(id, owner, generation, Delivered, "");
    }

    method MarkDeadLetter(id: string, owner: string, generation: nat, error: string) returns (err: Option<Error>)
      requires db.Valid()
      modifies db
      ensures db.Valid() && err == MarkError(old(db.deliveries), id, owner, generation)
      ensures db.log == old(db.log) +
        if err == None then [Change(Finish(id, owner, generation, DeadLettered, error))] else []
      ensures err != None ==> db.State() == old(db.State())
      ensures err == None ==>
        db.deliveries == old(db.deliveries)[
          id := old(db.deliveries)[id].(status := DeadLettered, lastError := error, owner := "", generation := 0,
                                        claimedAt := Never)]
    {
      err := MarkTerminal(id, owner, generation, DeadLettered, error);
    }

    method MarkFailed(id: string, owner: string, generation: nat, attempt: int, next: Time, error: string)
      returns (err: Option<Error>)
      requires db.Valid()
      modifies db
      ensures db.Valid() && err == MarkError(old(db.deliveries), id, owner, generation)
      ensures db.log == old(db.log) +
        if err == None then [Change(Retry(id, owner, generation, attempt, next, error))] else []
      ensures err != None ==> db.State() == old(db.State())
      ensures err == None ==>
        db.deliveries == old(db.deliveries)[
          id := old(db.deliveries)[id].(status := Pending, attempt := attempt, nextAttempt := next, lastError := error,
                                        owner := "", generation := 0, claimedAt := Never)]
    {
      if generation == 0 { return Some(ZeroGeneration); }
      if !Holds(db.deliveries, id, owner, generation) { return Some(StaleClaim); }
      var d := db.deliveries[id];
      d := d.(status := Pending, attempt := attempt, nextAttempt := next, lastError := error,
      owner := "", generation := 0, claimedAt := Never);
      db.CommitOne(db.Tables().(rows := db.deliveries[id := d]), db.owners,
                   Change(Retry(id, owner, generation, attempt, next, error)));
      err := None;
    }

    /** One transaction: a stale claim suspends nobody. */
    method ExhaustAndSuspend(id: string, owner: string, generation: nat, error: string,
                             now: int) returns (err: Option<Error>)
      requires db.Valid()
      modifies db
      ensures db.Valid() && err == MarkError(old(db.deliveries), id, owner, generation)
      ensures err == None ==>
        var s := old(db.deliveries)[id].subscriber;
        db.log == old(db.log) + Txs([Suspend(id, owner, generation, error), Trim(s, Bounds(), now)])
      ensures err != None ==> db.State() == old(db.State()) && db.log == old(db.log)
      ensures err == None ==>
        Exhausted(old(db.deliveries), old(db.subscribers), db.deliveries, db.subscribers, id, error, Bounds(), now)
    {
      if generation == 0 { return Some(ZeroGeneration); }
      var t := db.Tables();
      if !Holds(t.rows, id, owner, generation) { return Some(StaleClaim); }
      GrownFacts(db.log, db.State());
      var t2 := ExhaustRows(t, id, owner, generation, error, now, db.history);
      db.Commit(t2, [Suspend(id, owner, generation, error), Trim(t.rows[id].subscriber, Bounds(), now)]);
      err := None;
    }

    /** The transaction on its view of the tables. */
    method ExhaustRows(t: Table, id: string, owner: string, generation: nat, error: string, now: int,
                       ghost h: seq<Op>) returns (t2: Table)
      requires Reached(h, t) && Holds(t.rows, id, owner, generation)
      ensures Reached(h + [Suspend(id, owner, generation, error), Trim(t.rows[id].subscriber, Bounds(), now)], t2)
      ensures Exhausted(t.rows, t.subs, t2.rows, t2.subs, id, error, Bounds(), now)
    {
      var s := t.rows[id].subscriber;
      var t1 := SuspendRows(t, id, owner, generation, error, s);
      ghost var op, trim := Suspend(id, owner, generation, error), Trim(s, Bounds(), now);
      ReachedNext(h, t, op);
      ReachedNext(h + [op], t1, trim);
      t2 := ApplyRetention(t1, s, Bounds(), now, h + [op]);
      assert h + [op] + [trim] == h + [op, trim];
      SuspendExhausts(t, t2, id, owner, generation, error, Bounds(), now);
    }

    /** Its three UPDATEs before retention. */
    method SuspendRows(t: Table, id: string, owner: string, generation: nat, error: string, s: string)
      returns (t2: Table)
      requires Holds(t.rows, id, owner, generation) && s == t.rows[id].subscriber
      ensures t2 == Apply(t, Suspend(id, owner, generation, error))
    {
      t2 := t;
      t2 := t2.(rows := t2.rows[id := t2.rows[id].(
        status := DeadLettered, lastError := error, owner := "", generation := 0, claimedAt := Never)]);
      t2 := t2.(subs := t2.subs[s := if s in t2.subs then t2.subs[s].(suspended := true) else Meta(true, false, 0)]);
      t2 := t2.(rows := map j | j in t2.rows ::
        if t2.rows[j].subscriber == s && t2.rows[j].status == Pending
        then t2.rows[j].(status := Retained, owner := "", generation := 0, claimedAt := Never)
        else t2.rows[j]);
      assert t2.rows == Apply(t, Suspend(id, owner, generation, error)).rows;
    }

    // ---- Resume and recovery ----

    /** A subscriber without a row was never suspended: there is nothing to reopen. */
    method Resume(s: string, now: int) returns (r: Result<Gap, Error>)
      requires db.Valid()
      modifies db
      ensures db.Valid()
      ensures r.Err? <==> s == ""
      ensures r.Err? ==> r.error == MissingSubscriber && db.State() == old(db.State()) && db.log == old(db.log)
      ensures r.Ok? ==> var m := Trimmed(old(db.Tables()), s, Bounds(), now).MetaOf(s); r.value == Gap(m.gap, m.dropped)
      ensures r.Ok? && s in old(db.subscribers) ==>
        && Resumed(old(db.deliveries), old(db.subscribers), db.deliveries, db.subscribers, s, Bounds(), now)
        && GapReported(old(db.deliveries), old(db.subscribers), db.deliveries, s, r.value.occurred, r.value.dropped)
      ensures r.Ok? && s !in old(db.subscribers) ==> r.value == Gap(false, 0) && db.Tables() == old(db.Tables())
      ensures r.Ok? ==>
        db.log == old(db.log) +
        Txs([Trim(s, Bounds(), now)] + if s in old(db.subscribers) then [Reopen(s, now)] else [])
    {
      if s == "" { return Err(MissingSubscriber); }
      GrownFacts(db.log, db.State());
      ghost var h, trim := db.history, Trim(s, Bounds(), now);
      ReachedNext(h, db.Tables(), trim);
      var t := ApplyRetention(db.Tables(), s, Bounds(), now, h);
      TrimAddsNoSubscriber(h, db.Tables(), s, Bounds(), now);
      if s !in t.subs {
        assert [trim] + [] == [trim];
        db.Commit(t, [trim]);
        return Ok(Gap(false, 0));
      }
      var gap := Gap(t.subs[s].gap, t.subs[s].dropped);
      var t2 := ReopenTrimmed(db.Tables(), t, s, now, h);
      db.Commit(t2, [trim] + [Reopen(s, now)]);
      r := Ok(gap);
    }

    /** The rest of the transaction, after retention. */
    method ReopenTrimmed(ghost t: Table, t1: Table, s: string, now: int, ghost h: seq<Op>) returns (t2: Table)
      requires Reached(h + [Trim(s, Bounds(), now)], t1) && s != "" && t1 == Trimmed(t, s, Bounds(), now)
      ensures Reached(h + ([Trim(s, Bounds(), now)] + [Reopen(s, now)]), t2)
      ensures Resumed(t.rows, t.subs, t2.rows, t2.subs, s, Bounds(), now)
      ensures GapReported(t.rows, t.subs, t2.rows, s, t1.MetaOf(s).gap, t1.MetaOf(s).dropped)
    {
      ghost var trim := Trim(s, Bounds(), now);
      ReachedNext(h + [trim], t1, Reopen(s, now));
      t2 := ReopenRows(t1, s, now);
      assert h + [trim] + [Reopen(s, now)] == h + ([trim] + [Reopen(s, now)]);
      ReopenResumes(t, t1, t2, s, Bounds(), now);
    }

    method ReopenRows(t: Table, s: string, now: int) returns (t2: Table)
      ensures t2 == Apply(t, Reopen(s, now))
    {
      t2 := t;
      t2 := t2.(rows := map j | j in t2.rows ::
        if t2.rows[j].subscriber == s && t2.rows[j].status == Retained
        then t2.rows[j].(status := Pending, nextAttempt := At(now), owner := "", generation := 0, claimedAt := Never)
        else t2.rows[j]);
      t2 := t2.(subs := t2.subs[s := Meta(false, false, 0)]);
      assert t2.rows == Apply(t, Reopen(s, now)).rows;
    }

    /** Returns to pending every in-flight row claimed before `now - olderThan`. */
    method RecoverStale(olderThan: int, now: int) returns (n: nat)
      requires db.Valid()
      modifies db
      ensures db.Valid() && n == |ExpiredIds(old(db.deliveries), now - olderThan)|
      ensures db.log == old(db.log) + [Change(Recover(ExpiredIds(old(db.deliveries), now - olderThan)))]
      ensures db.deliveries == map id | id in old(db.deliveries) ::
        var d := old(db.deliveries)[id];
        if d.status == InFlight && d.claimedAt.At? && d.claimedAt.ns < now - olderThan
        then d.(status := Pending, owner := "", generation := 0, claimedAt := Never) else d
    {
      var t, cutoff := db.Tables(), now - olderThan;
      var expired := ExpiredIds(t.rows, cutoff);
      n := |expired|;
      var t2 := t.(rows := map id | id in t.rows ::
        if t.rows[id].status == InFlight && t.rows[id].claimedAt.At? && t.rows[id].claimedAt.ns < cutoff
        then t.rows[id].(status := Pending, owner := "", generation := 0, claimedAt := Never)
        else t.rows[id]);
      assert t2 == Apply(t, Recover(expired));
      db.CommitOne(t2, db.owners, Change(Recover(expired)));
    }

    // ---- Ownership ----

    method EnsureOwners(partitions: int, node: string) returns (err: Option<Error>)
      requires db.Valid()
      modifies db, this`distributed
      ensures db.Valid()
      ensures err == if partitions <= 0 || !NodeName(node) then Some(Invalid)
        else if !Seedable(old(db.owners), Alike(node, partitions)) then Some(Conflict) else None
      ensures err == None ==> distributed && db.State() == Next(old(db.State()), Ensure(Alike(node, partitions)))
      ensures err != None ==> db.State() == old(db.State()) && distributed == old(distributed)
      ensures err == Some(Invalid) <==> partitions <= 0 || node == "" || '/' in node
      ensures err == None ==> forall p :: p in db.owners <==> p in old(db.owners) || 0 <= p < partitions
      ensures err == None ==>
        forall p :: p in db.owners ==>
          db.owners[p] == if p in old(db.owners) then old(db.owners)[p] else OwnerRow(node, 1, Active, None)
    {
      if partitions <= 0 { return Some(Invalid); }
      if node == "" { return Some(Invalid); }
      var nodes := RepeatNode(node, partitions);
      AlikeNames(node, partitions);
      err := EnsureOwnerAssignments(nodes);
    }

    method RepeatNode(node: string, n: nat) returns (nodes: seq<string>)
      ensures nodes == Alike(node, n)
    {
      nodes := [];
      while |nodes| < n
        invariant |nodes| <= n && nodes == Alike(node, |nodes|)
      {
        nodes := nodes + [node];
      }
    }

    /** Seeds what is missing; a partition that already belongs to another node refuses the whole. */
    method EnsureOwnerAssignments(nodes: seq<string>) returns (err: Option<Error>)
      requires db.Valid()
      modifies db, this`distributed
      ensures db.Valid()
      ensures err == if nodes == [] || !NodeNames(nodes) then Some(Invalid)
        else if !Seedable(old(db.owners), nodes) then Some(Conflict) else None
      ensures err == None ==> distributed && db.log == old(db.log) + [Ensure(nodes)]
      ensures err == None ==> db.State() == Next(old(db.State()), Ensure(nodes))
      ensures err != None ==> db.State() == old(db.State()) && db.log == old(db.log) && distributed == old(distributed)
      ensures err == Some(Invalid) <==> nodes == [] || "" in nodes || exists p :: 0 <= p < |nodes| && '/' in nodes[p]
      ensures err == Some(Conflict) ==> exists p :: 0 <= p < |nodes| && p in db.owners && db.owners[p].node != nodes[p]
      ensures err == None ==>
        && (forall p :: 0 <= p < |nodes| && p in old(db.owners) ==> old(db.owners)[p].node == nodes[p])
        && (forall p :: p in db.owners <==> p in old(db.owners) || 0 <= p < |nodes|)
        && forall p :: p in db.owners ==>
             db.owners[p] == if p in old(db.owners) then old(db.owners)[p] else OwnerRow(nodes[p], 1, Active, None)
    {
      if |nodes| == 0 { return Some(Invalid); }
      for p := 0 to |nodes|
        invariant NodeNames(nodes[..p])
      {
        if nodes[p] == "" || '/' in nodes[p] {
          assert !NodeName(nodes[p]);
          return Some(Invalid);
        }
        assert nodes[..p + 1] == nodes[..p] + [nodes[p]];
      }
      assert nodes[..|nodes|] == nodes;
      var existing, clash := ScanOwners(db.owners, nodes);
      if clash { return Some(Conflict); }
      var rows := InsertOwners(db.owners, nodes, existing);
      db.CommitOne(db.Tables(), rows, Ensure(nodes));
      distributed := true;
      err := None;
    }

    method ScanOwners(owners: Owners, nodes: seq<string>) returns (existing: set<int>, clash: bool)
      ensures clash <==> exists p :: 0 <= p < |nodes| && p in owners && owners[p].node != nodes[p]
      ensures !clash ==> forall p :: p in existing <==> 0 <= p < |nodes| && p in owners
    {
      existing, clash := {}, false;
      for p := 0 to |nodes|
        invariant forall q :: 0 <= q < p && q in owners ==> owners[q].node == nodes[q]
        invariant forall q :: q in existing <==> 0 <= q < p && q in owners
      {
        if p in owners {
          if owners[p].node != nodes[p] {
            return existing, true;
          }
          existing := existing + {p};
        }
      }
    }

    method InsertOwners(owners: Owners, nodes: seq<string>, existing: set<int>) returns (rows: Owners)
      requires forall p :: p in existing <==> 0 <= p < |nodes| && p in owners
      ensures rows == Seeded(owners, nodes)
    {
      rows := owners;
      for p := 0 to |nodes|
        invariant forall q :: q in rows <==> q in owners || 0 <= q < p
        invariant forall q :: q in rows ==>
          rows[q] == if q in owners then owners[q] else OwnerRow(nodes[q], 1, Active, None)
      {
        if p in existing { continue; }
        rows := rows[p := OwnerRow(nodes[p], 1, Active, None)];
      }
    }

    method BeginHandoff(p: int, from: string, to: string) returns (err: Option<Error>)
      requires db.Valid()
      modifies db, this`distributed
      ensures db.Valid() && distributed == (old(distributed) || old(db.owners) != map[])
      ensures err == if !distributed then Some(NotDistributed)
        else if !NodeName(from) || !NodeName(to) || from == to then Some(Invalid)
        else if !CanBegin(old(db.owners), p, from, to) then Some(Conflict) else None
      ensures err == None ==>
        db.log == old(db.log) + [Begin(p, from, to)] && db.State() == Next(old(db.State()), Begin(p, from, to))
      ensures err != None ==> db.log == old(db.log) && db.State() == old(db.State())
      ensures err == None <==>
        && distributed && from != "" && to != "" && '/' !in from && '/' !in to && from != to && p in old(db.owners)
        && old(db.owners)[p] == OwnerRow(from, old(db.owners)[p].generation, Active, None)
      ensures err == None ==>
        db.owners == old(db.owners)[p := OwnerRow(from, old(db.owners)[p].generation, Draining, Some(to))]
    {
      Refresh();
      if !distributed { return Some(NotDistributed); }
      if from == "" || to == "" { return Some(Invalid); }
      if '/' in from || '/' in to { return Some(Invalid); }
      if from == to { return Some(Invalid); }
      var rows := db.owners;
      if !(p in rows && rows[p].node == from && rows[p].state == Active && rows[p].next == None) {
        return Some(Conflict);
      }
      rows := rows[p := rows[p].(state := Draining, next := Some(to))];
      db.CommitOne(db.Tables(), rows, Begin(p, from, to));
      err := None;
    }

    /** Refused while a row of the partition is in flight. */
    method CompleteHandoff(p: int) returns (err: Option<Error>)
      requires db.Valid()
      modifies db, this`distributed
      ensures db.Valid() && distributed == (old(distributed) || old(db.owners) != map[])
      ensures err == None <==> distributed && CanComplete(old(db.State()), p)
      ensures err == Some(NotDistributed) <==> !distributed
      ensures err == Some(Overflow) <==>
        (distributed && p in old(db.owners) && old(db.owners)[p].state == Draining
         && old(db.owners)[p].generation >= INT64_MAX && InFlightIn(old(db.deliveries), p) == {})
      ensures err.Some? ==> err.value in {NotDistributed, Overflow, Conflict}
      ensures err == None ==> db.log == old(db.log) + [Complete(p)] && db.State() == Next(old(db.State()), Complete(p))
      ensures err != None ==> db.log == old(db.log) && db.State() == old(db.State())
      ensures err == None ==>
        && p in old(db.owners) && old(db.owners)[p].state == Draining && old(db.owners)[p].next.Some?
        && (forall id :: id in db.deliveries && db.deliveries[id].partition == p ==>
              db.deliveries[id].status != InFlight)
        && db.deliveries == old(db.deliveries)
        && db.owners == old(db.owners)[
             p := OwnerRow(old(db.owners)[p].next.value, old(db.owners)[p].generation + 1, Active, None)]
    {
      GrownFacts(db.log, db.State());
      Refresh();
      if !distributed { return Some(NotDistributed); }
      var rows := db.owners;
      if !(p in rows && rows[p].state == Draining && rows[p].next != None && InFlightIn(db.deliveries, p) == {}) {
        return Some(Conflict);
      }
      if rows[p].generation >= INT64_MAX { return Some(Overflow); }
      assert forall id :: id in db.deliveries && db.deliveries[id].partition == p ==>
          (db.deliveries[id].status == InFlight ==> id in InFlightIn(db.deliveries, p));
      rows := rows[p := OwnerRow(rows[p].next.value, rows[p].generation + 1, Active, None)];
      db.CommitOne(db.Tables(), rows, Complete(p));
      err := None;
    }

    /** Aborts a drain, steals with a reset of everything in flight, or does nothing at all. */
    method ForceTakeover(p: int, to: string, expected: nat) returns (err: Option<Error>)
      requires db.Valid() && expected < UINT64
      modifies db, this`distributed
      ensures db.Valid() && distributed == (old(distributed) || old(db.owners) != map[])
      ensures err == if !distributed then Some(NotDistributed) else
        match Decide(old(db.owners), p, to, expected) case Refuse(error) => Some(error) case _ => None
      ensures err == None ==> db.State() == Next(old(db.State()), Force(p, to, expected))
      ensures err == None ==>
        db.log == old(db.log) + if Decide(old(db.owners), p, to, expected) == Keep then [] else [Force(p, to, expected)]
      ensures err != None ==> db.log == old(db.log) && db.State() == old(db.State())
      ensures err == None <==>
        && distributed && to != "" && '/' !in to && expected != 0 && p in old(db.owners)
        && var o := old(db.owners)[p];
           if o.node != to then o.generation == expected < 0x7fff_ffff_ffff_ffff
           else o.generation == expected || (o.state == Active && o.generation == expected + 1)
      ensures err == Some(Missing) <==> distributed && to != "" && '/' !in to && expected != 0 && p !in old(db.owners)
      ensures err == Some(Invalid) <==> distributed && (to == "" || '/' in to || expected == 0)
      ensures err == None && old(db.owners)[p].node == to ==>
        var o := old(db.owners)[p];
        && db.deliveries == old(db.deliveries)
        && (o.state == Active || o.generation == expected)
        && (o.generation == expected || o.generation == expected + 1)
        && db.owners == old(db.owners)[p := OwnerRow(to, o.generation, Active, None)]
      ensures err == None && old(db.owners)[p].node != to ==>
        && old(db.owners)[p].generation == expected
        && db.owners == old(db.owners)[p := OwnerRow(to, expected + 1, Active, None)]
        && db.deliveries == map id | id in old(db.deliveries) ::
             var d := old(db.deliveries)[id];
             if d.partition == p && d.status == InFlight
             then d.(status := Pending, owner := "", generation := 0, claimedAt := Never) else d
    {
      GrownFacts(db.log, db.State());
      Refresh();
      if !distributed { return Some(NotDistributed); }
      if to == "" { return Some(Invalid); }
      if '/' in to { return Some(Invalid); }
      if expected == 0 { return Some(Invalid); }
      var rows, t := db.owners, db.Tables();
      if p !in rows { return Some(Missing); }
      var o := rows[p];
      assert GoodRow(o);
      if o.node == to {
        if o.state == Draining && o.generation == expected {
          rows := rows[p := o.(state := Active, next := None)];
          db.CommitOne(t, rows, Force(p, to, expected));
          return None;
        }
        if o.state == Active && (o.generation == expected || o.generation == (expected + 1) % UINT64) {
          return None;
        }
        return Some(Conflict);
      }
      if o.generation != expected { return Some(Conflict); }
      if o.generation >= INT64_MAX { return Some(Overflow); }
      rows := rows[p := OwnerRow(to, o.generation + 1, Active, None)];
      t := t.(rows := map id | id in t.rows ::
        if t.rows[id].partition == p && t.rows[id].status == InFlight
        then t.rows[id].(status := Pending, owner := "", generation := 0, claimedAt := Never)
        else t.rows[id]);
      assert t == Apply(db.Tables(), Recover(InFlightIn(db.deliveries, p)));
      db.CommitOne(t, rows, Force(p, to, expected));
      err := None;
    }
  }

  lemma {:induction false} InsertionsClaimNothing(ds: seq<Delivery>, n: nat, now: int)
    requires n <= |ds|
    ensures forall op :: op in Insertions(ds, n, now) ==> !op.Claim?
  {
    if n > 0 {
      InsertionsClaimNothing(ds, n - 1, now);
    }
  }

  /** Retention does nothing for a subscriber without a row: it has nothing retained. */
  lemma TrimAddsNoSubscriber(h: seq<Op>, t: Table, s: string, limits: Limits, now: int)
    requires Reached(h, t)
    ensures s in Trimmed(t, s, limits, now).subs <==> s in t.subs
    ensures s !in t.subs ==> Trimmed(t, s, limits, now) == t
  {
    if id :| id in DropsOf(t.rows, s, limits, now) {
      RetainedIsSuspended(h, t, id);
    } else {
      assert t.rows - {} == t.rows;
    }
  }
}
