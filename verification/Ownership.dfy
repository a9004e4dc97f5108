/** Partition ownership across nodes (store/postgres/ownership.go) together with the delivery
    tables it authorizes (store/postgres/postgres.go), as functions on one database value. */
module Ownership {
  import opened Deliveries
  import opened StoreSpec
  import opened Tokens

  const UINT64 := 0x1_0000_0000_0000_0000

  datatype OwnerState = Active | Draining

  /** One row of `fold_partition_owners`. */
  datatype OwnerRow = OwnerRow(node: string, generation: nat, state: OwnerState, next: Option<string>)

  type Owners = map<int, OwnerRow>

  /** The database: the delivery tables, how they came about, and the owner rows. */
  datatype Db = Db(history: seq<Op>, table: Table, owners: Owners)

  /** One transaction. */
  datatype DbOp =
    | Change(op: Op)
    | Ensure(nodes: seq<string>)
    | Begin(partition: int, from: string, to: string)
    | Complete(partition: int)
    | Force(partition: int, to: string, expected: nat)

  predicate NodeName(s: string) {
    s != "" && SlashFree(s)
  }

  // ---- Seeding ----

  predicate Seedable(owners: Owners, nodes: seq<string>) {
    && nodes != []
    && (forall p :: 0 <= p < |nodes| ==> NodeName(nodes[p]))
    && (forall p :: 0 <= p < |nodes| && p in owners ==> owners[p].node == nodes[p])
  }

  function Seeded(owners: Owners, nodes: seq<string>): Owners {
    owners + map p | 0 <= p < |nodes| && p !in owners :: OwnerRow(nodes[p], 1, Active, None)
  }

  // ---- Handoff ----

  predicate CanBegin(owners: Owners, p: int, from: string, to: string) {
    NodeName(from) && NodeName(to) && from != to
    && p in owners && owners[p].node == from && owners[p].state == Active && owners[p].next == None
  }

  function Begun(o: OwnerRow, to: string): OwnerRow {
    o.(state := Draining, next := Some(to))
  }

  function InFlightIn(rows: map<string, Delivery>, p: int): set<string> {
    set id | id in rows && rows[id].partition == p && rows[id].status == InFlight
  }

  predicate CanComplete(db: Db, p: int) {
    p in db.owners && db.owners[p].state == Draining && db.owners[p].next.Some?
    && InFlightIn(db.table.rows, p) == {} && db.owners[p].generation < INT64_MAX
  }

  function Completed(o: OwnerRow): OwnerRow
    requires o.next.Some?
  {
    OwnerRow(o.next.value, o.generation + 1, Active, None)
  }

  // ---- Forced takeover ----

  datatype Takeover = Refuse(error: Error) | Keep | Abort | Steal

  /** What `ForceTakeover` decides; `expected + 1` wraps like a uint64. */
  function Decide(owners: Owners, p: int, to: string, expected: nat): Takeover {
    if to == "" || !SlashFree(to) || expected == 0 then Refuse(Invalid)
    else if p !in owners then Refuse(Missing)
    else
      var o := owners[p];
      if o.node == to then
        if o.state == Draining && o.generation == expected then Abort
        else if o.state == Active && (o.generation == expected || o.generation == (expected + 1) % UINT64) then Keep
        else Refuse(Conflict)
      else if o.generation != expected then Refuse(Conflict)
      else if o.generation >= INT64_MAX then Refuse(Overflow)
      else Steal
  }

  // ---- Claims ----

  /** Every unfinished delivery lies in an owned partition. */
  predicate MetadataComplete(db: Db) {
    forall id :: id in db.table.rows && Unfinished(db.table.rows[id]) ==> db.table.rows[id].partition in db.owners
  }

  /** The owner row that lets a claim of `node` take a row of partition `p` with generation `g`. */
  predicate Authorizes(owners: Owners, p: int, node: string, g: nat) {
    p in owners && owners[p].node == node && owners[p].state == Active && owners[p].generation == g
  }

  /** Without owner rows a claim stamps the caller's generation; with them every row is
      authorized by, and stamped from, the owner row of its partition. */
  ghost predicate ClaimAllowed(db: Db, picks: map<string, nat>, owner: string) {
    if db.owners == map[] then
      forall a, b :: a in picks && b in picks ==> picks[a] == picks[b]
    else
      && ParseDistributedOwner(owner).Some?
      && MetadataComplete(db)
      && forall id :: id in picks && id in db.table.rows ==>
           Authorizes(db.owners, db.table.rows[id].partition, ParseDistributedOwner(owner).value, picks[id])
  }

  // ---- Transactions ----

  function Changed(db: Db, op: Op): Db {
    db.(history := db.history + [op], table := Apply(db.table, op))
  }

  /** The database after a transaction; one that fails its check leaves it as it was. */
  function Next(db: Db, tx: DbOp): Db {
    match tx
    case Change(op) => Changed(db, op)
    case Ensure(nodes) => if Seedable(db.owners, nodes) then db.(owners := Seeded(db.owners, nodes)) else db
    case Begin(p, from, to) =>
      if CanBegin(db.owners, p, from, to) then db.(owners := db.owners[p := Begun(db.owners[p], to)]) else db
    case Complete(p) =>
      if CanComplete(db, p) then db.(owners := db.owners[p := Completed(db.owners[p])]) else db
    case Force(p, to, expected) =>
      match Decide(db.owners, p, to, expected)
      case Refuse(_) => db
      case Keep => db
      case Abort => db.(owners := db.owners[p := db.owners[p].(state := Active, next := None)])
      case Steal =>
        Changed(db, Recover(InFlightIn(db.table.rows, p))).(
        owners := db.owners[p := OwnerRow(to, db.owners[p].generation + 1, Active, None)])
  }

  ghost predicate Allowed(db: Db, tx: DbOp) {
    match tx
    case Change(op) => Legal(db.table, op) && (op.Claim? ==> ClaimAllowed(db, op.picks, op.owner))
    case _ => true
  }
}
