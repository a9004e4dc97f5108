/** One process over a memory store of its own (fold.go, worker.go) as a value, and why each thing
    it does keeps its promises: posts of a subscriber never go back in sequence, nothing is posted
    again after a success, every claim follows the map of its generation, and while the process
    runs every worker of the current map has a goroutine. */
module Processes {
  import opened Deliveries
  import opened StoreSpec
  import opened Claiming
  import opened Tokens
  import opened Partition
  import opened Fleet
  import opened FleetSteps
  import opened FleetWork
  import opened FleetDrains

  // ---- Generations ----

  /** The map that a generation stands for. */
  datatype Epoch = Epoch(own: PartitionMap, workers: int)

  /** What one call of Claim asked for and got. */
  datatype ClaimRecord = ClaimRecord(owner: string, generation: nat, partitions: seq<int>, rows: seq<Delivery>)

  ghost predicate EpochsDeal(epochs: map<nat, Epoch>, universe: seq<int>, node: string, incarnation: string) {
    forall g :: g in epochs ==>
      epochs[g].workers > 0 && Int64(epochs[g].workers)
        && Deals(epochs[g].own, universe, epochs[g].workers, node, incarnation)
  }

  /** A claim under generation `g` asks for, and gets rows from, only the partitions that the map
      of `g` gives its owner. */
  ghost predicate FollowsMap(c: ClaimRecord, epochs: map<nat, Epoch>) {
    && c.generation in epochs
    && c.partitions == epochs[c.generation].own.PartitionsFor(c.owner)
    && forall d :: d in c.rows ==> d.partition in c.partitions && d.generation == c.generation && d.owner == c.owner
  }

  ghost predicate ClaimsFollowMaps(claims: seq<ClaimRecord>, epochs: map<nat, Epoch>) {
    forall c :: c in claims ==> FollowsMap(c, epochs)
  }

  /** Under one generation no partition is claimed by two owners. */
  lemma ExclusiveClaims(epochs: map<nat, Epoch>, universe: seq<int>, node: string, incarnation: string,
                        a: ClaimRecord, d: Delivery, b: ClaimRecord, e: Delivery)
    requires EpochsDeal(epochs, universe, node, incarnation) && FollowsMap(a, epochs) && FollowsMap(b, epochs)
    requires a.generation == b.generation && !epochs[a.generation].own.overlap
    requires d in a.rows && e in b.rows && d.partition == e.partition
    ensures a.owner == b.owner
  {
    var g := epochs[a.generation];
    OwnersDisjoint(g.own, universe, g.workers, node, incarnation, a.owner, b.owner, d.partition);
  }

  // ---- Goroutines ----

  /** Goroutine `w` or a double of it is alive. */
  ghost predicate Alive(routines: map<nat, Worker>, node: string, incarnation: string, w: int) {
    exists r :: r in routines && routines[r].token == ClaimOwnerID(node, incarnation, w)
  }

  ghost predicate Covered(routines: map<nat, Worker>, node: string, incarnation: string, workers: int) {
    forall w :: 0 <= w < workers ==> Alive(routines, node, incarnation, w)
  }

  ghost predicate IndexOf(token: string, node: string, incarnation: string, k: int) {
    0 <= k && Int64(k) && token == ClaimOwnerID(node, incarnation, k)
  }

  /** Every goroutine has the token of some index; several may have the same. */
  ghost predicate Tokened(routines: map<nat, Worker>, node: string, incarnation: string) {
    forall r :: r in routines ==> exists k :: IndexOf(routines[r].token, node, incarnation, k)
  }

  /** A goroutine finds its own index in its token. */
  lemma KnowsIndex(token: string, node: string, incarnation: string, k: int, w: int)
    requires IndexOf(token, node, incarnation, k) && 0 <= w && Int64(w)
    ensures ParseOwnerIndex(token) == Some(k)
    ensures token == ClaimOwnerID(node, incarnation, w) <==> w == k
  {
    WorkerIndexRoundTrip(node, incarnation, k);
    WorkerIndexRoundTrip(node, incarnation, w);
  }

  lemma CoverKept(before: map<nat, Worker>, after: map<nat, Worker>, node: string, incarnation: string, workers: int)
    requires Covered(before, node, incarnation, workers)
    requires forall r :: r in before ==> r in after && after[r].token == before[r].token
    ensures Covered(after, node, incarnation, workers)
  {
    forall w | 0 <= w < workers
      ensures Alive(after, node, incarnation, w)
    {
      assert Alive(before, node, incarnation, w);
      var r :| r in before && before[r].token == ClaimOwnerID(node, incarnation, w);
      assert after[r].token == ClaimOwnerID(node, incarnation, w);
    }
  }

  lemma CoverGrows(routines: map<nat, Worker>, r: nat, node: string, incarnation: string, w: int)
    requires Covered(routines, node, incarnation, w) && r !in routines
    ensures Covered(routines[r := Worker(ClaimOwnerID(node, incarnation, w), [], None)], node, incarnation, w + 1)
  {
    var after := routines[r := Worker(ClaimOwnerID(node, incarnation, w), [], None)];
    CoverKept(routines, after, node, incarnation, w);
    assert after[r].token == ClaimOwnerID(node, incarnation, w);
    assert Alive(after, node, incarnation, w);
  }

  /** A new generation leaves what was claimed under earlier ones as it was. */
  lemma EpochAdded(epochs: map<nat, Epoch>, claims: seq<ClaimRecord>, universe: seq<int>, node: string,
                   incarnation: string, g: nat, e: Epoch)
    requires EpochsDeal(epochs, universe, node, incarnation) && ClaimsFollowMaps(claims, epochs) && g !in epochs
    requires e.workers > 0 && Int64(e.workers) && Deals(e.own, universe, e.workers, node, incarnation)
    ensures EpochsDeal(epochs[g := e], universe, node, incarnation) && ClaimsFollowMaps(claims, epochs[g := e])
  {
  }

  /** A goroutine whose index is out of range may go. */
  lemma ExcessMayGo(before: map<nat, Worker>, r: nat, node: string, incarnation: string, workers: int, k: int)
    requires Covered(before, node, incarnation, workers) && r in before && Int64(workers)
    requires IndexOf(before[r].token, node, incarnation, k) && k >= workers
    ensures Covered(before - {r}, node, incarnation, workers)
  {
    forall w | 0 <= w < workers
      ensures Alive(before - {r}, node, incarnation, w)
    {
      assert Alive(before, node, incarnation, w);
      var q :| q in before && before[q].token == ClaimOwnerID(node, incarnation, w);
      KnowsIndex(before[r].token, node, incarnation, k, w);
      assert q in before - {r};
    }
  }

  // ---- A claim ----

  /** Whether a goroutine stays is decided by the index in its token. */
  lemma TokenDecides(token: string, node: string, incarnation: string, k: int, workers: int)
    requires IndexOf(token, node, incarnation, k) && Int64(workers)
    ensures ParseOwnerIndex(token) == Some(k)
    ensures k < workers <==> exists w :: 0 <= w < workers && token == ClaimOwnerID(node, incarnation, w)
  {
    KnowsIndex(token, node, incarnation, k, k);
    forall w | 0 <= w < workers
      ensures token == ClaimOwnerID(node, incarnation, w) <==> w == k
    {
      KnowsIndex(token, node, incarnation, k, w);
    }
  }

  lemma TokenNotEmpty(token: string, node: string, incarnation: string, k: int)
    requires IndexOf(token, node, incarnation, k)
    ensures token != ""
  {
  }

  lemma ClaimFollows(claims: seq<ClaimRecord>, epochs: map<nat, Epoch>, generation: nat, t: Table, out: seq<Delivery>,
                     parts: seq<int>, token: string, now: int)
    requires ClaimsFollowMaps(claims, epochs) && generation in epochs
    requires parts == epochs[generation].own.PartitionsFor(token)
    requires ClaimedBatch(t, out, PartitionSet(parts), token, generation, now)
    ensures ClaimsFollowMaps(claims + [ClaimRecord(token, generation, parts, out)], epochs)
  {
  }

  // ---- A process as a value ----

  /** What never changes about a process. */
  datatype Setup = Setup(
    node: string,
    incarnation: string,
    universe: seq<int>,
    partitions: int,
    overlap: bool,
    narrowed: bool,
    maxAttempts: int)

  /** The process with its store, and what has been posted, mapped and claimed so far. */
  datatype Process = Process(
    history: seq<Op>,
    table: Table,
    own: PartitionMap,
    generation: nat,
    workers: int,
    started: bool,
    closed: bool,
    routines: map<nat, Worker>,
    spawned: nat,
    tended: bool,
    wire: seq<Post>,
    epochs: map<nat, Epoch>,
    claims: seq<ClaimRecord>)
  {
    function Seen(): Fleet {
      Alone(history, table, routines, wire)
    }
  }

  ghost predicate Mapped(p: Process, c: Setup) {
    && p.generation >= 1 && p.workers >= 1 && Int64(p.workers)
    && p.generation in p.epochs && p.epochs[p.generation] == Epoch(p.own, p.workers)
    && (forall g :: g in p.epochs ==> g <= p.generation)
    && EpochsDeal(p.epochs, c.universe, c.node, c.incarnation)
    && p.own.overlap == c.overlap && p.own.narrowed == c.narrowed && p.own.partitions == c.partitions
    && c.partitions > 0 && (c.overlap || c.narrowed || c.universe == Universe(None, c.partitions))
  }

  ghost predicate Staffed(p: Process, c: Setup) {
    && (forall r :: r in p.routines ==> r < p.spawned)
    && Tokened(p.routines, c.node, c.incarnation)
    && (forall r :: r in p.routines && p.routines[r].batch == [] ==> p.routines[r].outcome == None)
    && (!p.started ==> p.routines == map[] && p.wire == [] && p.claims == [])
  }

  /** All but that every worker is alive. */
  ghost predicate Sound(p: Process, c: Setup) {
    && Reached(p.history, p.table) && Led(p.Seen(), c.maxAttempts, p.tended)
    && Mapped(p, c) && Staffed(p, c) && ClaimsFollowMaps(p.claims, p.epochs)
  }

  ghost predicate Complete(p: Process, c: Setup) {
    Sound(p, c) && (p.started && !p.closed ==> Covered(p.routines, c.node, c.incarnation, p.workers))
  }

  function Unstarted(h: seq<Op>, t: Table, own: PartitionMap, workers: int): Process {
    Process(h, t, own, 1, workers, false, false, map[], 0, false, [], map[1 := Epoch(own, workers)], [])
  }

  lemma UnstartedIsComplete(h: seq<Op>, t: Table, c: Setup, own: PartitionMap, workers: int)
    requires Reached(h, t) && workers >= 1 && Int64(workers)
    requires Deals(own, c.universe, workers, c.node, c.incarnation)
    requires own.overlap == c.overlap && own.narrowed == c.narrowed && own.partitions == c.partitions
    requires c.partitions > 0 && (c.overlap || c.narrowed || c.universe == Universe(None, c.partitions))
    ensures Complete(Unstarted(h, t, own, workers), c)
  {
    QuietIsLed(Unstarted(h, t, own, workers).Seen(), c.maxAttempts, false);
  }

  function Spawned(p: Process, token: string): Process {
    p.(routines := p.routines[p.spawned := Worker(token, [], None)], spawned := p.spawned + 1)
  }

  /** One goroutine each for the workers from `lo` on. */
  function SpawnedFrom(p: Process, c: Setup, lo: int, hi: int): Process
    requires lo <= hi
    decreases hi - lo
  {
    if lo == hi then p else Spawned(SpawnedFrom(p, c, lo, hi - 1), ClaimOwnerID(c.node, c.incarnation, hi - 1))
  }

  lemma {:induction false} SpawnsChangeOnly(p: Process, c: Setup, lo: int, hi: int)
    requires lo <= hi && forall r :: r in p.routines ==> r < p.spawned
    ensures var p2 := SpawnedFrom(p, c, lo, hi);
      && p2 == p.(routines := p2.routines, spawned := p.spawned + (hi - lo))
      && (forall r :: r in p2.routines ==> r < p2.spawned)
      && (forall r :: r in p.routines ==> r in p2.routines && p2.routines[r] == p.routines[r])
    decreases hi - lo
  {
    if lo < hi {
      SpawnsChangeOnly(p, c, lo, hi - 1);
    }
  }

  lemma {:induction false} SpawnsLead(p: Process, c: Setup, lo: int, hi: int)
    requires lo <= hi && Led(p.Seen(), c.maxAttempts, p.tended) && forall r :: r in p.routines ==> r < p.spawned
    ensures Led(SpawnedFrom(p, c, lo, hi).Seen(), c.maxAttempts, p.tended)
    decreases hi - lo
  {
    if lo < hi {
      var before := SpawnedFrom(p, c, lo, hi - 1);
      SpawnsLead(p, c, lo, hi - 1);
      SpawnsChangeOnly(p, c, lo, hi - 1);
      SpawnLeads(before.Seen(), before.spawned, ClaimOwnerID(c.node, c.incarnation, hi - 1), c.maxAttempts, p.tended);
    }
  }

  lemma {:induction false} SpawnsStaff(p: Process, c: Setup, lo: int, hi: int)
    requires Staffed(p, c) && p.started && 0 <= lo <= hi && Int64(hi)
    ensures Staffed(SpawnedFrom(p, c, lo, hi), c)
    decreases hi - lo
  {
    if lo < hi {
      SpawnsStaff(p, c, lo, hi - 1);
      SpawnsChangeOnly(p, c, lo, hi - 1);
      SpawnStaffs(SpawnedFrom(p, c, lo, hi - 1), c, hi - 1);
    }
  }

  lemma SpawnStaffs(p: Process, c: Setup, w: int)
    requires Staffed(p, c) && p.started && 0 <= w && Int64(w)
    ensures Staffed(Spawned(p, ClaimOwnerID(c.node, c.incarnation, w)), c)
  {
    assert IndexOf(ClaimOwnerID(c.node, c.incarnation, w), c.node, c.incarnation, w);
  }

  lemma SpawnsAreSound(p: Process, c: Setup, lo: int, hi: int)
    requires Sound(p, c) && p.started && 0 <= lo <= hi && Int64(hi)
    ensures Sound(SpawnedFrom(p, c, lo, hi), c)
  {
    SpawnsChangeOnly(p, c, lo, hi);
    SpawnsLead(p, c, lo, hi);
    SpawnsStaff(p, c, lo, hi);
  }

  lemma {:induction false} SpawnsCover(p: Process, c: Setup, lo: int, hi: int)
    requires lo <= hi && Covered(p.routines, c.node, c.incarnation, lo) && forall r :: r in p.routines ==> r < p.spawned
    ensures Covered(SpawnedFrom(p, c, lo, hi).routines, c.node, c.incarnation, hi)
    decreases hi - lo
  {
    if lo < hi {
      var before := SpawnedFrom(p, c, lo, hi - 1);
      SpawnsCover(p, c, lo, hi - 1);
      SpawnsChangeOnly(p, c, lo, hi - 1);
      CoverGrows(before.routines, before.spawned, c.node, c.incarnation, hi - 1);
    }
  }

  /** The process after a resize: a new map and generation, and goroutines for the added workers. */
  function Resized(p: Process, c: Setup, own: PartitionMap, workers: int): Process {
    if p.workers < workers then SpawnedFrom(Flipped(p, own, workers), c, p.workers, workers)
    else Flipped(p, own, workers)
  }

  lemma ResizeIsComplete(p: Process, c: Setup, own: PartitionMap, workers: int)
    requires Complete(p, c) && p.started && !p.closed && workers >= 1 && Int64(workers)
    requires Deals(own, c.universe, workers, c.node, c.incarnation)
    requires own.overlap == c.overlap && own.narrowed == c.narrowed && own.partitions == c.partitions
    ensures Complete(Resized(p, c, own, workers), c)
  {
    FlipIsSound(p, c, own, workers);
    if p.workers < workers {
      SpawnsAreSound(Flipped(p, own, workers), c, p.workers, workers);
      SpawnsCover(Flipped(p, own, workers), c, p.workers, workers);
      SpawnsChangeOnly(Flipped(p, own, workers), c, p.workers, workers);
    }
  }

  /** What a resize leaves: goroutines with what they hold, and the maps of earlier generations. */
  lemma ResizeKeeps(p: Process, c: Setup, own: PartitionMap, workers: int)
    requires Mapped(p, c) && Staffed(p, c)
    ensures var p2 := Resized(p, c, own, workers);
      && p2.own == own && p2.workers == workers && p2.generation == p.generation + 1
      && p2.spawned == p.spawned + (if workers > p.workers then workers - p.workers else 0)
      && (forall r :: r in p.routines ==> r in p2.routines && p2.routines[r] == p.routines[r])
      && (forall g :: g in p.epochs ==> g in p2.epochs && p2.epochs[g] == p.epochs[g])
  {
    if p.workers < workers {
      SpawnsChangeOnly(Flipped(p, own, workers), c, p.workers, workers);
    }
  }

  function Flipped(p: Process, own: PartitionMap, workers: int): Process {
    p.(own := own, workers := workers, generation := p.generation + 1,
       epochs := p.epochs[p.generation + 1 := Epoch(own, workers)])
  }

  lemma FlipIsSound(p: Process, c: Setup, own: PartitionMap, workers: int)
    requires Sound(p, c) && workers >= 1 && Int64(workers)
    requires Deals(own, c.universe, workers, c.node, c.incarnation)
    requires own.overlap == c.overlap && own.narrowed == c.narrowed && own.partitions == c.partitions
    ensures Sound(Flipped(p, own, workers), c)
  {
    EpochAdded(p.epochs, p.claims, c.universe, c.node, c.incarnation, p.generation + 1, Epoch(own, workers));
  }

  function Left(p: Process, r: nat): Process
    requires r in p.routines
  {
    p.(routines := p.routines - {r}, tended := p.tended && p.routines[r].batch == [])
  }

  lemma LeaveIsComplete(p: Process, c: Setup, r: nat, k: int)
    requires Complete(p, c) && r in p.routines && IndexOf(p.routines[r].token, c.node, c.incarnation, k)
    requires k >= p.workers || p.closed
    ensures Complete(Left(p, r), c)
  {
    QuitLeads(p.Seen(), r, c.maxAttempts, p.tended);
    if p.started && !p.closed {
      ExcessMayGo(p.routines, r, c.node, c.incarnation, p.workers, k);
    }
  }

  /** A goroutine that changes, but not its token. */
  lemma SameToken(p: Process, c: Setup, r: nat, k: Worker)
    requires Staffed(p, c) && p.started && r in p.routines
    requires k.token == p.routines[r].token && (k.batch == [] ==> k.outcome == None)
    ensures Staffed(p.(routines := p.routines[r := k]), c)
    ensures Covered(p.routines, c.node, c.incarnation, p.workers) ==>
      Covered(p.routines[r := k], c.node, c.incarnation, p.workers)
  {
    if Covered(p.routines, c.node, c.incarnation, p.workers) {
      CoverKept(p.routines, p.routines[r := k], c.node, c.incarnation, p.workers);
    }
  }

  function Sent(p: Process, r: nat, outcome: Outcome): Process
    requires r in p.routines && p.routines[r].batch != []
  {
    var d := p.routines[r].batch[0];
    p.(routines := p.routines[r := p.routines[r].(outcome := Some(outcome))],
       wire := p.wire + [Post(d.subscriber, d.sequence, outcome == Success)])
  }

  lemma SendIsComplete(p: Process, c: Setup, r: nat, outcome: Outcome)
    requires Complete(p, c) && r in p.routines && p.routines[r].batch != [] && p.routines[r].outcome == None
    ensures Complete(Sent(p, r, outcome), c)
  {
    SendLeads(p.Seen(), r, outcome, c.maxAttempts, p.tended);
    SameToken(p, c, r, p.routines[r].(outcome := Some(outcome)));
  }

  function Grabbed(p: Process, r: nat, out: seq<Delivery>, history: seq<Op>, table: Table): Process
    requires r in p.routines
  {
    var token := p.routines[r].token;
    p.(history := history, table := table, routines := p.routines[r := Worker(token, out, None)],
       claims := p.claims + [ClaimRecord(token, p.generation, p.own.PartitionsFor(token), out)])
  }

  /** What a store has done for a claim: nothing at all when it was asked for no partition. */
  ghost predicate Took(h: seq<Op>, t: Table, out: seq<Delivery>, parts: seq<int>, token: string, generation: nat,
                       now: int, h2: seq<Op>, t2: Table) {
    && ClaimedBatch(t, out, PartitionSet(parts), token, generation, now) && Reached(h2, t2)
    && if parts == [] then out == [] && h2 == h && t2 == t
       else h2 == h + [Op.Claim(Stamps(out, generation), token, now)]
  }

  lemma GrabIsComplete(p: Process, c: Setup, r: nat, out: seq<Delivery>, now: int, history: seq<Op>, table: Table)
    requires Complete(p, c) && r in p.routines && p.routines[r].batch == []
    requires Took(p.history, p.table, out, p.own.PartitionsFor(p.routines[r].token), p.routines[r].token,
      p.generation, now, history, table)
    ensures Complete(Grabbed(p, r, out, history, table), c)
  {
    var token, parts := p.routines[r].token, p.own.PartitionsFor(p.routines[r].token);
    if parts == [] {
      assert p.routines[r := Worker(token, out, None)] == p.routines;
    } else {
      ClaimLeads(p.history, p.table, p.routines, p.wire, r, out, PartitionSet(parts), p.generation, now, table,
                 c.maxAttempts, p.tended);
    }
    SameToken(p, c, r, Worker(token, out, None));
    ClaimFollows(p.claims, p.epochs, p.generation, p.table, out, parts, token, now);
  }

  function Marked(p: Process, r: nat, history: seq<Op>, table: Table): Process
    requires r in p.routines && p.routines[r].batch != []
  {
    p.(history := history, table := table, routines := p.routines[r := Popped(p.routines[r])])
  }

  lemma MarkIsComplete(p: Process, c: Setup, r: nat, next: Time, error: string, limits: Limits, now: int,
                       ops: seq<Op>, table: Table)
    requires Complete(p, c) && r in p.routines && p.routines[r].batch != [] && p.routines[r].outcome.Some?
    requires var k := p.routines[r];
      ops == SettleOps(p.table, k.token, k.batch[0], k.outcome.value, c.maxAttempts, next, error, limits, now)
    requires Reached(p.history + ops, table)
    ensures Complete(Marked(p, r, p.history + ops, table), c)
  {
    MarkLeads(p.history, p.table, p.routines, p.wire, r, c.maxAttempts, p.tended, next, error, limits, now, ops, table);
    SameToken(p, c, r, Popped(p.routines[r]));
  }

  lemma OutsideIsComplete(p: Process, c: Setup, ops: seq<Op>, table: Table)
    requires Complete(p, c) && Reached(p.history + ops, table)
    requires forall op :: op in ops ==> op.Insert? || op.Trim? || op.Reopen?
    ensures Complete(p.(history := p.history + ops, table := table), c)
  {
    OutsideLeads(p.history, p.table, p.routines, p.wire, ops, table, c.maxAttempts, p.tended);
  }

  function Started(p: Process, history: seq<Op>, table: Table): Process {
    p.(started := true, history := history, table := table, tended := InFlightIds(table) == {})
  }

  function InFlightIds(t: Table): set<string> {
    set id | id in t.rows && t.rows[id].status == InFlight
  }

  /** A process that finds nothing in flight is tended from the start. */
  lemma StartIsSound(p: Process, c: Setup, history: seq<Op>, table: Table)
    requires Sound(p, c) && !p.started && Reached(history, table)
    ensures Sound(Started(p, history, table), c)
    ensures Covered(p.routines, c.node, c.incarnation, 0)
  {
    var f, tended := Alone(history, table, p.routines, p.wire), InFlightIds(table) == {};
    assert forall id :: id in table.rows && table.rows[id].status == InFlight ==> id in InFlightIds(table);
    QuietIsLed(f, c.maxAttempts, tended);
  }

  lemma StartIsComplete(p: Process, c: Setup, history: seq<Op>, table: Table)
    requires Complete(p, c) && !p.started && !p.closed && Reached(history, table)
    ensures Complete(SpawnedFrom(Started(p, history, table), c, 0, p.workers), c)
  {
    StartIsSound(p, c, history, table);
    SpawnsAreSound(Started(p, history, table), c, 0, p.workers);
    SpawnsCover(Started(p, history, table), c, 0, p.workers);
    SpawnsChangeOnly(Started(p, history, table), c, 0, p.workers);
  }

  /** While the process runs, the owner of every partition that it serves is alive. */
  lemma EveryPartitionServed(p: Process, c: Setup, part: int)
    requires Complete(p, c) && p.started && !p.closed && !p.own.overlap && part in c.universe
    ensures exists r :: r in p.routines && p.own.OwnerOf(part) == Some(p.routines[r].token)
  {
    assert Deals(p.epochs[p.generation].own, c.universe, p.workers, c.node, c.incarnation);
    ExclusiveOwnership(p.own, c.universe, p.workers, c.node, c.incarnation, part, "");
    var w :| 0 <= w < p.workers && p.own.OwnerOf(part) == Some(ClaimOwnerID(c.node, c.incarnation, w));
    assert Alive(p.routines, c.node, c.incarnation, w);
  }

  /** Some worker of the map is given any partition that the process serves. */
  lemma ServedBySomebody(p: Process, c: Setup, part: int) returns (r: nat)
    requires Complete(p, c) && p.started && !p.closed && part in c.universe
    ensures r in p.routines && part in p.own.PartitionsFor(p.routines[r].token)
  {
    if p.own.overlap {
      r := FirstWorker(p, c);
    } else {
      EveryPartitionServed(p, c, part);
      r :| r in p.routines && p.own.OwnerOf(part) == Some(p.routines[r].token);
      OwnerHasIt(p, c, part, p.routines[r].token);
    }
  }

  lemma FirstWorker(p: Process, c: Setup) returns (r: nat)
    requires Complete(p, c) && p.started && !p.closed && p.own.overlap
    ensures r in p.routines && p.own.PartitionsFor(p.routines[r].token) == c.universe
  {
    assert Deals(p.epochs[p.generation].own, c.universe, p.workers, c.node, c.incarnation);
    OverlapGivesAll(p.own, c.universe, p.workers, c.node, c.incarnation, 0);
    assert Alive(p.routines, c.node, c.incarnation, 0);
    r :| r in p.routines && p.routines[r].token == ClaimOwnerID(c.node, c.incarnation, 0);
  }

  lemma OwnerHasIt(p: Process, c: Setup, part: int, token: string)
    requires Mapped(p, c) && !p.own.overlap && p.own.OwnerOf(part) == Some(token)
    ensures part in p.own.PartitionsFor(token)
  {
    assert Deals(p.epochs[p.generation].own, c.universe, p.workers, c.node, c.incarnation);
    ExclusiveOwnership(p.own, c.universe, p.workers, c.node, c.incarnation, part, token);
  }

  /** A running process that has left nothing behind never gets stuck: as soon as the first
      unfinished row of a subscriber is due, some goroutine has rows in hand to post or mark, or is
      idle and would get that row among the eligible ones of its next claim. */
  lemma WorkGoesOn(p: Process, c: Setup, sub: string, now: int) returns (id: string, r: nat)
    requires Complete(p, c) && p.started && !p.closed && p.tended && UnfinishedRows(p.table, sub) != {}
    requires forall id :: id in UnfinishedRows(p.table, sub) ==> p.table.rows[id].partition in c.universe
    ensures IsFirst(p.table, sub, id)
    ensures p.table.rows[id].status == InFlight || Due(p.table.rows[id], now) ==>
      && r in p.routines
      && (p.routines[r].batch != []
          || id in EligibleIds(p.table, PartitionSet(p.own.PartitionsFor(p.routines[r].token)), now))
  {
    id := FirstRow(p.history, p.table, sub);
    if p.table.rows[id].status == InFlight {
      LedHolds(p.Seen(), c.maxAttempts);
      var w: nat, i: nat :| HeldBy(p.Seen(), w, i, id);
      r := w;
    } else {
      r := ServedBySomebody(p, c, p.table.rows[id].partition);
    }
  }

  /** What a subscriber has seen of a process: sequences that never go back, and after a success
      nothing at or below it. */
  lemma WireInOrder(p: Process, c: Setup, j: nat, k: nat)
    requires Sound(p, c) && j < k < |p.wire| && p.wire[j].subscriber == p.wire[k].subscriber
    ensures p.wire[j].sequence <= p.wire[k].sequence
    ensures p.wire[j].success ==> p.wire[j].sequence < p.wire[k].sequence
  {
    LedOnce(p.Seen(), c.maxAttempts, p.tended);
  }
}
