/** The dispatcher (fold.go, worker.go): goroutines that claim, post and mark, and a map of
    partitions that `Resize` replaces under them. Methods take effect one at a time, in any order:
    `ClaimBatch` under the claim gate, `Send` and `Mark` as the two halves of one delivery, between
    which anything else may happen. `wire` is what subscribers have seen, `claims` what was claimed. */
module Dispatching {
  import opened Deliveries
  import opened StoreSpec
  import opened Sorting
  import opened Claiming
  import opened Batches
  import opened MemoryStore
  import opened Tokens
  import opened Partition
  import opened Assign
  import opened Backoff
  import opened Fleet
  import opened FleetEnds
  import opened FleetSteps
  import opened Processes

  const CLAIM_BATCH := 64
  const DEFAULT_MAX_ATTEMPTS := 8
  const DEFAULT_BASE_BACKOFF := SECOND
  const DEFAULT_MAX_BACKOFF := 15 * 60 * SECOND
  const DEFAULT_STALE_AGE := 60 * SECOND

  datatype Refusal =
    | SlashInNode | NodeWithoutOwnership | BadMap(reason: OwnershipError)
    | Closed | NotStarted | AlreadyStarted | TooFewWorkers | Overlapping | Narrowed
    | NoEvent | NoSubscribers | BadSubscriber | StoreError(err: Error)

  datatype Subscriber = Subscriber(id: string, url: string)

  datatype Config = Config(
    workers: int,
    partitions: int,
    overlap: bool,
    claim: Option<seq<int>>,
    node: string,
    maxAttempts: int,
    baseBackoff: int,
    maxBackoff: int,
    staleClaimAge: int,
    retentionMaxCount: int,
    retentionMaxAge: int)

  /** `next` is the backoff of an attempt, for some jitter, after `now`. */
  ghost predicate BacksOff(next: Time, now: int, attempt: int, base: int, max: int) {
    exists jitter :: Draws(attempt, base, max, jitter) && next == At(now + Jittered(attempt, base, max, jitter))
  }

  /** Where the cap and a tenth of it fit in 64 bits, a backoff ends between the schedule of its
      attempt and a tenth more after `now`. */
  lemma BackoffInRange(next: Time, now: int, attempt: int, base: int, max: int)
    requires BacksOff(next, now, attempt, base, max) && Int64(base) && Int64(max)
    requires EffectiveMax(max) + EffectiveMax(max) / 10 <= INT64_MAX
    ensures next.At? && var wait := next.ns - now;
      Scheduled(attempt, base, max) <= wait <= Scheduled(attempt, base, max) + Scheduled(attempt, base, max) / 10
  {
    ScheduledRange(attempt, base, max);
  }

  class Dispatcher {
    const store: Store
    const node: string
    const incarnation: string
    const maxAttempts: int
    const baseBackoff: int
    const maxBackoff: int
    const staleClaimAge: int
    var own: PartitionMap
    var generation: nat
    var workers: int
    var started: bool
    var closed: bool
    var routines: map<nat, Worker>
    var spawned: nat
    ghost const universe: seq<int>
    ghost const partitions: int
    ghost const overlap: bool
    ghost const narrowed: bool
    ghost var tended: bool
    ghost var wire: seq<Post>
    ghost var epochs: map<nat, Epoch>
    ghost var claims: seq<ClaimRecord>

    ghost function Setting(): Setup {
      Setup(node, incarnation, universe, partitions, overlap, narrowed, maxAttempts)
    }

    ghost function Now(): Process
      reads this, store
    {
      Process(store.history, store.Tables(), own, generation, workers, started, closed, routines, spawned,
              tended, wire, epochs, claims)
    }

    ghost predicate Valid()
      reads this, store
    {
      Int64(baseBackoff) && Int64(maxBackoff) && Complete(Now(), Setting())
    }

    // ---- New ----

    constructor (st: Store, map0: PartitionMap, config: Config, count: int, inc: string, ghost all: seq<int>)
      requires st.Valid() && count >= 1 && Int64(count) && Deals(map0, all, count, config.node, inc)
      requires map0.partitions > 0
      requires map0.overlap || map0.narrowed || all == Universe(None, map0.partitions)
      requires Int64(config.baseBackoff) && Int64(config.maxBackoff)
      ensures Valid() && store == st && own == map0 && workers == count && generation == 1 && !started && !closed
      ensures node == config.node && incarnation == inc && universe == all
      ensures maxAttempts == (if config.maxAttempts <= 0 then 8 else config.maxAttempts)
      ensures staleClaimAge == config.staleClaimAge
      ensures baseBackoff == if config.baseBackoff <= 0 then 1_000_000_000 else config.baseBackoff
      ensures maxBackoff == if config.maxBackoff <= 0 then 900_000_000_000 else config.maxBackoff
    {
      store, own, workers, generation := st, map0, count, 1;
      node, incarnation, staleClaimAge := config.node, inc, config.staleClaimAge;
      maxAttempts := if config.maxAttempts <= 0 then DEFAULT_MAX_ATTEMPTS else config.maxAttempts;
      baseBackoff := if config.baseBackoff <= 0 then DEFAULT_BASE_BACKOFF else config.baseBackoff;
      maxBackoff := if config.maxBackoff <= 0 then DEFAULT_MAX_BACKOFF else config.maxBackoff;
      started, closed, routines, spawned := false, false, map[], 0;
      universe, partitions, overlap, narrowed := all, map0.partitions, map0.overlap, map0.narrowed;
      tended, wire, epochs, claims := false, [], map[1 := Epoch(map0, count)], [];
      new;
      UnstartedIsComplete(store.history, store.Tables(), Setting(), own, workers);
    }

    /** Retention bounds go to the store first of all. Over a memory store, which has no ownership
        table, a node name is refused. */
    static method New(st: Store, config: Config, inc: string) returns (r: Result<Dispatcher, Refusal>)
      requires st.Valid() && Int64(config.workers) && Int64(config.baseBackoff) && Int64(config.maxBackoff)
      modifies st`retentionMaxCount, st`retentionMaxAge
      ensures st.retentionMaxCount ==
        if config.retentionMaxCount > 0 then config.retentionMaxCount else old(st.retentionMaxCount)
      ensures st.retentionMaxAge ==
        if config.retentionMaxAge > 0 then config.retentionMaxAge else old(st.retentionMaxAge)
      ensures var n := Effective(config.partitions);
        r.Ok? <==> config.node == "" && InRange(Universe(config.claim, n), n) && NoRepeats(Universe(config.claim, n))
      ensures r.Err? ==> if '/' in config.node then r.error == SlashInNode
                         else if config.node != "" then r.error == NodeWithoutOwnership else r.error.BadMap?
      ensures r.Ok? ==>
        var d := r.value;
        && fresh(d) && d.Valid() && d.store == st && d.generation == 1 && !d.started && !d.closed
        && d.workers == (if config.workers <= 0 then 1 else config.workers)
        && d.universe == Universe(config.claim, Effective(config.partitions))
        && d.own.partitions == Effective(config.partitions)
        && d.own.overlap == config.overlap && d.own.narrowed == config.claim.Some?
        && d.maxAttempts == (if config.maxAttempts <= 0 then 8 else config.maxAttempts)
    {
      if config.retentionMaxCount > 0 { st.retentionMaxCount := config.retentionMaxCount; }
      if config.retentionMaxAge > 0 { st.retentionMaxAge := config.retentionMaxAge; }
      var workers := if config.workers <= 0 then 1 else config.workers;
      if '/' in config.node { return Err(SlashInNode); }
      if config.node != "" { return Err(NodeWithoutOwnership); }
      var built := BuildOwnership(workers, config.partitions, config.overlap, config.claim, config.node, inc);
      if built.Err? { return Err(BadMap(built.error)); }
      ghost var all := Universe(config.claim, Effective(config.partitions));
      var d := new Dispatcher(st, built.value, config, workers, inc, all);
      r := Ok(d);
    }

    // ---- Start and Resize ----

    method Spawn(w: int)
      modifies this`routines, this`spawned
      ensures Now() == Spawned(old(Now()), ClaimOwnerID(node, incarnation, w))
    {
      routines := routines[spawned := Worker(ClaimOwnerID(node, incarnation, w), [], None)];
      spawned := spawned + 1;
    }

    /** One goroutine each for the workers from `lo` on. */
    method SpawnFrom(lo: int, hi: int)
      requires lo <= hi
      modifies this`routines, this`spawned
      ensures Now() == SpawnedFrom(old(Now()), Setting(), lo, hi)
    {
      for w := lo to hi
        invariant Now() == SpawnedFrom(old(Now()), Setting(), lo, w)
      {
        Spawn(w);
      }
    }

    function EffectiveStaleAge(): int {
      if staleClaimAge < 0 then 0 else if staleClaimAge == 0 then DEFAULT_STALE_AGE else staleClaimAge
    }

    /** Recovers stale claims, when nobody of this process holds any yet, and starts the workers. */
    method Start(now: int) returns (err: Option<Refusal>)
      requires Valid()
      modifies this`started, this`tended, this`routines, this`spawned, store`byID, store`history
      ensures Valid()
      ensures err == if closed then Some(Closed) else if old(started) then Some(AlreadyStarted) else None
      ensures err == None ==>
        && Now() == SpawnedFrom(Started(old(Now()), store.history, store.Tables()), Setting(), 0, workers)
        && started && spawned == old(spawned) + workers && tended == (InFlightIds(store.Tables()) == {})
      ensures err == None ==>
        store.history == old(store.history) +
        if staleClaimAge < 0 then []
        else [Op.Recover(StaleIds(old(store.byID), now - if staleClaimAge == 0 then 60_000_000_000 else staleClaimAge))]
      ensures err != None ==> Now() == old(Now())
    {
      if closed { return Some(Closed); }
      if started { return Some(AlreadyStarted); }
      ghost var p := Now();
      Recover(now);
      StartIsComplete(p, Setting(), store.history, store.Tables());
      SpawnsChangeOnly(Started(p, store.history, store.Tables()), Setting(), 0, workers);
      Begin(p);
      SpawnFrom(0, workers);
      err := None;
    }

    method Recover(now: int)
      requires store.Valid()
      modifies store`byID, store`history
      ensures store.Valid()
      ensures store.history == old(store.history) +
              if staleClaimAge < 0 then []
              else [Op.Recover(StaleIds(old(store.byID),
                                        now - if staleClaimAge == 0 then 60_000_000_000 else staleClaimAge))]
    {
      var age := EffectiveStaleAge();
      if age > 0 {
        var n := store.RecoverStale(age, now);
      }
    }

    /** Marks the process `p` as started, over the store as it now is. */
    method Begin(ghost p: Process)
      requires Now() == p.(history := store.history, table := store.Tables())
      modifies this`started, this`tended
      ensures Now() == Started(p, store.history, store.Tables())
    {
      started, tended := true, InFlightIds(store.Tables()) == {};
    }

    /** Replaces the map and starts a new generation; rows in flight and their holders stay. */
    method Resize(count: int) returns (err: Option<Refusal>, ghost map1: PartitionMap)
      requires Valid() && Int64(count)
      modifies this`own, this`workers, this`generation, this`routines, this`spawned, this`epochs
      ensures Valid()
      ensures err == if count <= 0 then Some(TooFewWorkers) else if closed then Some(Closed)
        else if !started then Some(NotStarted) else if old(own).overlap then Some(Overlapping)
        else if old(own).narrowed then Some(Narrowed) else None
      ensures Now() ==
        if err != None || count == old(workers) then old(Now()) else Resized(old(Now()), Setting(), map1, count)
      ensures err == None ==> workers == count && generation == old(generation) + if count == old(workers) then 0 else 1
      ensures err == None ==> spawned == old(spawned) + if count > old(workers) then count - old(workers) else 0
      ensures own.overlap == old(own).overlap && own.narrowed == old(own).narrowed
      ensures own.partitions == old(own).partitions
      ensures forall r :: r in old(routines) ==> r in routines && routines[r] == old(routines)[r]
      ensures forall g :: g in old(epochs) ==> g in epochs && epochs[g] == old(epochs)[g]
    {
      map1 := own;
      if count <= 0 { return Some(TooFewWorkers), map1; }
      if closed { return Some(Closed), map1; }
      if !started { return Some(NotStarted), map1; }
      if own.overlap { return Some(Overlapping), map1; }
      if own.narrowed { return Some(Narrowed), map1; }
      if count == workers { return None, map1; }
      map1 := Rebuild(count);
      err := None;
    }

    method Rebuild(count: int) returns (ghost map1: PartitionMap)
      requires Valid() && started && !closed && !own.overlap && !own.narrowed && count >= 1 && Int64(count)
      modifies this`own, this`workers, this`generation, this`routines, this`spawned, this`epochs
      ensures Valid() && Now() == Resized(old(Now()), Setting(), map1, count) && own == map1
      ensures workers == count && generation == old(generation) + 1
      ensures spawned == old(spawned) + if count > old(workers) then count - old(workers) else 0
      ensures own.overlap == old(own).overlap && own.narrowed == old(own).narrowed
      ensures own.partitions == old(own).partitions
      ensures forall r :: r in old(routines) ==> r in routines && routines[r] == old(routines)[r]
      ensures forall g :: g in old(epochs) ==> g in epochs && epochs[g] == old(epochs)[g]
    {
      var built := BuildOwnership(count, own.partitions, false, None, node, incarnation);
      map1 := built.value;
      ghost var p := Now();
      ResizeIsComplete(p, Setting(), map1, count);
      ResizeKeeps(p, Setting(), map1, count);
      Replace(built.value, count);
    }

    method Replace(map1: PartitionMap, count: int)
      modifies this`own, this`workers, this`generation, this`routines, this`spawned, this`epochs
      ensures Now() == Resized(old(Now()), Setting(), map1, count)
    {
      var oldWorkers := workers;
      Flip(map1, count);
      if oldWorkers < count {
        SpawnFrom(oldWorkers, count);
      }
    }

    /** Under the claim gate: the map, the count and the generation change together. */
    method Flip(map1: PartitionMap, count: int)
      modifies this`own, this`workers, this`generation, this`epochs
      ensures Now() == Flipped(old(Now()), map1, count)
    {
      own, workers, generation := map1, count, generation + 1;
      epochs := epochs[generation := Epoch(own, workers)];
    }

    // ---- A goroutine's turn ----

    /** Under the claim gate: a goroutine beyond the worker count leaves; any other claims from the
        partitions that the current map gives its token, under the current generation. */
    method ClaimBatch(r: nat, now: int) returns (active: bool)
      requires Valid() && r in routines && routines[r].batch == []
      modifies this`routines, this`tended, this`claims, store`byID, store`history
      ensures Valid()
      ensures active <==> exists w :: 0 <= w < workers && old(routines)[r].token == ClaimOwnerID(node, incarnation, w)
      ensures !active ==> Now() == Left(old(Now()), r)
      ensures active ==>
        r in routines && Now() == Grabbed(old(Now()), r, routines[r].batch, store.history, store.Tables())
      ensures active ==>
        Took(old(store.history), old(store.Tables()), routines[r].batch, own.PartitionsFor(old(routines)[r].token),
             old(routines)[r].token, generation, now, store.history, store.Tables())
      ensures active ==>
        ExactClaim(old(store.Tables()), routines[r].batch, PartitionSet(own.PartitionsFor(old(routines)[r].token)),
                   CLAIM_BATCH, old(routines)[r].token, generation, now)
      ensures active ==>
        && routines == old(routines)[r := Worker(old(routines)[r].token, routines[r].batch, None)]
        && FairShare(old(store.byID), store.subs, store.byID, routines[r].batch,
                     own.PartitionsFor(old(routines)[r].token), 64, old(routines)[r].token, generation, now)
      ensures !active ==> routines == old(routines) - {r} && store.byID == old(store.byID)
    {
      var token := routines[r].token;
      ghost var k :| IndexOf(token, node, incarnation, k);
      TokenDecides(token, node, incarnation, k, workers);
      var index := ParseOwnerIndex(token);
      if index == None || index.value < 0 || index.value >= workers {
        Leave(r, k);
        return false;
      }
      TokenNotEmpty(token, node, incarnation, k);
      ClaimFor(r, now);
      active := true;
    }

    method Leave(r: nat, ghost k: int)
      requires Valid() && r in routines && IndexOf(routines[r].token, node, incarnation, k) && (k >= workers || closed)
      modifies this`routines, this`tended
      ensures Valid() && Now() == Left(old(Now()), r)
    {
      LeaveIsComplete(Now(), Setting(), r, k);
      End(r);
    }

    method End(r: nat)
      requires r in routines
      modifies this`routines, this`tended
      ensures Now() == Left(old(Now()), r)
    {
      tended := tended && routines[r].batch == [];
      routines := routines - {r};
    }

    method ClaimFor(r: nat, now: int)
      requires Valid() && r in routines && routines[r].batch == [] && routines[r].token != ""
      modifies this`routines, this`claims, store`byID, store`history
      ensures Valid() && r in routines
      ensures Now() == Grabbed(old(Now()), r, routines[r].batch, store.history, store.Tables())
      ensures Took(old(store.history), old(store.Tables()), routines[r].batch,
                   own.PartitionsFor(old(routines)[r].token), old(routines)[r].token, generation, now,
                   store.history, store.Tables())
      ensures ExactClaim(old(store.Tables()), routines[r].batch,
                         PartitionSet(own.PartitionsFor(old(routines)[r].token)), CLAIM_BATCH,
                         old(routines)[r].token, generation, now)
      ensures FairShare(old(store.byID), store.subs, store.byID, routines[r].batch,
                        own.PartitionsFor(old(routines)[r].token), 64, old(routines)[r].token, generation, now)
    {
      ghost var p := Now();
      var token := routines[r].token;
      var batch := Take(token, own.PartitionsFor(token), now);
      GrabIsComplete(p, Setting(), r, batch, now, store.history, store.Tables());
      Hand(r, batch, p);
    }

    /** Gives a goroutine of the process `p` the batch that the store has just claimed for it. */
    method Hand(r: nat, batch: seq<Delivery>, ghost p: Process)
      requires r in routines && Now() == p.(history := store.history, table := store.Tables())
      modifies this`routines, this`claims
      ensures Now() == Grabbed(p, r, batch, store.history, store.Tables())
    {
      var token := routines[r].token;
      claims := claims + [ClaimRecord(token, generation, own.PartitionsFor(token), batch)];
      routines := routines[r := Worker(token, batch, None)];
    }

    method Take(token: string, parts: seq<int>, now: int) returns (batch: seq<Delivery>)
      requires store.Valid() && token != "" && generation >= 1
      modifies store`byID, store`history
      ensures store.Valid()
      ensures Took(old(store.history), old(store.Tables()), batch, parts, token, generation, now,
                   store.history, store.Tables())
      ensures ExactClaim(old(store.Tables()), batch, PartitionSet(parts), CLAIM_BATCH, token, generation, now)
      ensures FairShare(old(store.byID), store.subs, store.byID, batch, parts, 64, token, generation, now)
    {
      ghost var t := store.Tables();
      var taken := store.Claim(token, generation, parts, CLAIM_BATCH, now);
      batch := taken.value;
      if parts == [] {
        assert EligibleIds(t, PartitionSet(parts), now) == {};
      }
      MemoryClaims(t, batch, PartitionSet(parts), CLAIM_BATCH, token, generation, now);
    }

    /** First half of a delivery: the POST of the first row in hand, whatever its outcome. */
    method Send(r: nat, outcome: Outcome)
      requires Valid() && r in routines && routines[r].batch != [] && routines[r].outcome == None
      modifies this`routines, this`wire
      ensures Valid() && Now() == Sent(old(Now()), r, outcome)
      ensures var d := old(routines)[r].batch[0];
        wire == old(wire) + [Post(d.subscriber, d.sequence, outcome == Success)]
      ensures routines == old(routines)[r := Worker(old(routines)[r].token, old(routines)[r].batch, Some(outcome))]
    {
      SendIsComplete(Now(), Setting(), r, outcome);
      Deliver(r, outcome);
    }

    /** What the subscriber sees, and what the goroutine remembers of it. */
    method Deliver(r: nat, outcome: Outcome)
      requires r in routines && routines[r].batch != []
      modifies this`routines, this`wire
      ensures Now() == Sent(old(Now()), r, outcome)
    {
      var d := routines[r].batch[0];
      wire := wire + [Post(d.subscriber, d.sequence, outcome == Success)];
      routines := routines[r := routines[r].(outcome := Some(outcome))];
    }

    /** The mark that an outcome calls for, with the generation of the claim; a retry waits for
        its backoff. */
    method MarkRow(token: string, d: Delivery, outcome: Outcome, error: string, now: int)
      returns (failure: Option<Error>, ghost next: Time, ghost ops: seq<Op>)
      requires store.Valid() && Holds(store.byID, d.id, token, d.generation) && Int64(baseBackoff) && Int64(maxBackoff)
      modifies store`byID, store`subs, store`history
      ensures store.Valid() && failure == None
      ensures ops ==
        SettleOps(old(store.Tables()), token, d, outcome, maxAttempts, next, error, old(store.Bounds()), now)
      ensures outcome == Retryable && d.attempt < maxAttempts ==>
        BacksOff(next, now, d.attempt, baseBackoff, maxBackoff)
      ensures store.history == old(store.history) + ops
      ensures EndsBy(outcome, d, maxAttempts, old(store.byID), old(store.subs), store.byID, store.subs, next, error,
                     old(store.Bounds()), now)
    {
      ghost var t, limits := store.Tables(), store.Bounds();
      next := Never;
      if outcome == Success {
        failure := store.MarkDelivered(d.id, token, d.generation);
      } else if outcome == Permanent || d.attempt >= maxAttempts {
        failure := store.ExhaustAndSuspend(d.id, token, d.generation, error, now);
      } else {
        failure, next := PutBack(token, d, error, now);
      }
      ops := SettleOps(t, token, d, outcome, maxAttempts, next, error, limits, now);
    }

    method PutBack(token: string, d: Delivery, error: string, now: int)
      returns (failure: Option<Error>, ghost next: Time)
      requires store.Valid() && Holds(store.byID, d.id, token, d.generation) && Int64(baseBackoff) && Int64(maxBackoff)
      modifies store`byID, store`history
      ensures store.Valid() && failure == None
      ensures store.history == old(store.history) + [Retry(d.id, token, d.generation, d.attempt, next, error)]
      ensures BacksOff(next, now, d.attempt, baseBackoff, maxBackoff)
      ensures WaitsAgain(old(store.byID), store.byID, d.id, d.attempt, next, error)
    {
      var delay, jitter := Backoff.Delay(d.attempt, baseBackoff, maxBackoff);
      failure := store.MarkFailed(d.id, token, d.generation, d.attempt, At(now + delay), error);
      next := At(now + delay);
    }

    /** Second half of a delivery. The mark never fails: nobody but `Start` resets rows here, and
        `Start` comes before every claim of the process. */
    method Mark(r: nat, error: string, now: int) returns (failure: Option<Error>, ghost next: Time, ghost ops: seq<Op>)
      requires Valid() && r in routines && routines[r].batch != [] && routines[r].outcome.Some?
      modifies this`routines, store`byID, store`subs, store`history
      ensures Valid() && failure == None
      ensures var k := old(routines)[r];
        && ops == SettleOps(old(store.Tables()), k.token, k.batch[0], k.outcome.value, maxAttempts, next, error,
                            old(store.Bounds()), now)
        && (k.outcome.value == Retryable && k.batch[0].attempt < maxAttempts ==>
              BacksOff(next, now, k.batch[0].attempt, baseBackoff, maxBackoff))
      ensures Now() == Marked(old(Now()), r, old(store.history) + ops, store.Tables())
      ensures var k := old(routines)[r]; var d := k.batch[0];
        && routines == old(routines)[r := Worker(k.token, k.batch[1..], None)] && wire == old(wire)
        && EndsBy(k.outcome.value, d, maxAttempts, old(store.byID), old(store.subs), store.byID, store.subs, next,
                  error, old(store.Bounds()), now)
    {
      ghost var p, limits := Now(), store.Bounds();
      failure, next, ops := MarkHeld(r, error, now);
      MarkIsComplete(p, Setting(), r, next, error, limits, now, ops, store.Tables());
      PutDown(r, p);
    }

    /** Its mark in the store. */
    method MarkHeld(r: nat, error: string, now: int)
      returns (failure: Option<Error>, ghost next: Time, ghost ops: seq<Op>)
      requires Valid() && r in routines && routines[r].batch != [] && routines[r].outcome.Some?
      modifies store`byID, store`subs, store`history
      ensures store.Valid() && failure == None && store.history == old(store.history) + ops
      ensures var k := routines[r];
        && ops == SettleOps(old(store.Tables()), k.token, k.batch[0], k.outcome.value, maxAttempts, next, error,
                            old(store.Bounds()), now)
        && (k.outcome.value == Retryable && k.batch[0].attempt < maxAttempts ==>
              BacksOff(next, now, k.batch[0].attempt, baseBackoff, maxBackoff))
        && EndsBy(k.outcome.value, k.batch[0], maxAttempts, old(store.byID), old(store.subs), store.byID, store.subs,
                  next, error, old(store.Bounds()), now)
    {
      var k := routines[r];
      HeldIsHeld(Now().Seen(), r, maxAttempts, tended);
      failure, next, ops := MarkRow(k.token, k.batch[0], k.outcome.value, error, now);
    }

    /** Takes the marked row out of the hands of a goroutine of the process `p`. */
    method PutDown(r: nat, ghost p: Process)
      requires r in routines && routines[r].batch != [] && Int64(baseBackoff) && Int64(maxBackoff)
      requires Now() == p.(history := store.history, table := store.Tables())
      requires Complete(Marked(p, r, store.history, store.Tables()), Setting())
      modifies this`routines
      ensures Valid() && Now() == Marked(p, r, store.history, store.Tables())
    {
      routines := routines[r := Popped(routines[r])];
    }

    // ---- The process from outside ----

    /** Enqueues one row per subscriber, in the partition of the subscriber's hash. */
    method Dispatch(event: string, body: string, subs: seq<Subscriber>, ids: seq<string>, sum: string -> nat, now: int)
      returns (err: Option<Refusal>, ghost rows: seq<Delivery>, ghost ops: seq<Op>)
      requires Valid() && |ids| == |subs| && forall id :: id in store.byID ==> store.byID[id].createdAt <= now
      modifies store`byID, store`sequences, store`subs, store`history
      ensures Valid() && Now() == old(Now()).(history := old(store.history) + ops, table := store.Tables())
      ensures if closed then err == Some(Closed) else if !started then err == Some(NotStarted)
        else if event == "" then err == Some(NoEvent) else if subs == [] then err == Some(NoSubscribers)
        else if exists i :: 0 <= i < |subs| && (subs[i].id == "" || subs[i].url == "") then err == Some(BadSubscriber)
        else (Routed(rows, body, subs, ids, sum, own.partitions)
              && Stored(err, ops, old(store.Tables()), rows, old(store.Bounds()), now))
      ensures rows == [] ==> ops == []
    {
      rows, ops := [], [];
      assert store.history + ops == store.history;
      if closed { return Some(Closed), rows, ops; }
      if !started { return Some(NotStarted), rows, ops; }
      if event == "" { return Some(NoEvent), rows, ops; }
      if |subs| == 0 { return Some(NoSubscribers), rows, ops; }
      for i := 0 to |subs|
        invariant forall j :: 0 <= j < i ==> subs[j].id != "" && subs[j].url != ""
      {
        if subs[i].id == "" || subs[i].url == "" { return Some(BadSubscriber), rows, ops; }
      }
      var batch := RowsFor(body, subs, ids, sum);
      rows := batch;
      err, ops := StoreRows(batch, now);
    }

    method RowsFor(body: string, subs: seq<Subscriber>, ids: seq<string>,
                   sum: string -> nat) returns (rows: seq<Delivery>)
      requires |ids| == |subs|
      ensures Routed(rows, body, subs, ids, sum, own.partitions)
    {
      rows := [];
      for i := 0 to |subs|
        invariant Routed(rows, body, subs[..i], ids[..i], sum, own.partitions)
      {
        var part := PartitionOf(sum, subs[i].id, own.partitions);
        rows := rows + [Delivery(ids[i], subs[i].id, part, body, 0, Pending, 0, Never, "", "", 0, Never, 0)];
      }
      assert subs[..|subs|] == subs && ids[..|ids|] == ids;
    }

    method StoreRows(rows: seq<Delivery>, now: int) returns (err: Option<Refusal>, ghost ops: seq<Op>)
      requires Valid() && forall id :: id in store.byID ==> store.byID[id].createdAt <= now
      modifies store`byID, store`sequences, store`subs, store`history
      ensures Valid() && Now() == old(Now()).(history := old(store.history) + ops, table := store.Tables())
      ensures Stored(err, ops, old(store.Tables()), rows, old(store.Bounds()), now)
    {
      ghost var p := Now();
      err, ops := Insert(rows, now);
      OutsideIsComplete(p, Setting(), ops, store.Tables());
    }

    method Insert(rows: seq<Delivery>, now: int) returns (err: Option<Refusal>, ghost ops: seq<Op>)
      requires store.Valid() && forall id :: id in store.byID ==> store.byID[id].createdAt <= now
      modifies store`byID, store`sequences, store`subs, store`history
      ensures store.Valid() && store.history == old(store.history) + ops
      ensures forall op :: op in ops ==> op.Insert? || op.Trim?
      ensures Stored(err, ops, old(store.Tables()), rows, old(store.Bounds()), now)
    {
      ghost var t, h, limits := store.Tables(), store.history, store.Bounds();
      var failure;
      ghost var stored, order;
      failure, stored, order := store.Enqueue(rows, now);
      ops := Insertions(rows, stored, now) + Trims(order, limits, now);
      assert store.history == h + ops;
      InsertionsInsert(rows, stored, now);
      err := match failure case None => None case Some(error) => Some(StoreError(error));
      assert Stored(err, ops, t, rows, limits, now);
    }

    method Resume(s: string, now: int) returns (r: Result<Gap, Refusal>)
      requires Valid()
      modifies store`byID, store`subs, store`history
      ensures Valid() && (r.Err? <==> s == "")
      ensures r.Ok? ==> Now() == old(Now()).(
                                  history := old(store.history) + [Trim(s, old(store.Bounds()), now), Reopen(s, now)],
                                  table := store.Tables())
      ensures r.Ok? ==>
        var m := Trimmed(old(store.Tables()), s, old(store.Bounds()), now).MetaOf(s); r.value == Gap(m.gap, m.dropped)
      ensures r.Err? ==> r.error == StoreError(MissingSubscriber) && store.history == old(store.history)
    {
      if s == "" { return Err(StoreError(MissingSubscriber)); }
      ghost var p, limits := Now(), store.Bounds();
      var gap := store.Resume(s, now);
      OutsideIsComplete(p, Setting(), [Trim(s, limits, now), Reopen(s, now)], store.Tables());
      assert Now() == p.(history := p.history + [Trim(s, limits, now), Reopen(s, now)], table := store.Tables());
      r := Ok(gap.value);
    }

    /** Stops accepting work; workers go on until they are cancelled. */
    method Close()
      requires Valid()
      modifies this`closed
      ensures Valid() && Now() == old(Now()).(closed := true)
    {
      closed := true;
    }

    /** A cancelled goroutine ends, with whatever it holds. */
    method Cancel(r: nat)
      requires Valid() && closed && r in routines
      modifies this`routines, this`tended
      ensures Valid() && Now() == Left(old(Now()), r)
    {
      ghost var k :| IndexOf(routines[r].token, node, incarnation, k);
      Leave(r, k);
    }
  }

  /** What an enqueue of `rows` has come to: all rows stored and retention applied, or the rows up
      to the first refused one stored and its refusal. */
  ghost predicate Stored(err: Option<Refusal>, ops: seq<Op>, t: Table, rows: seq<Delivery>, limits: Limits, now: int) {
    exists n, order ::
      && Accepted(t.rows.Keys, rows, n) && ops == Insertions(rows, n, now) + Trims(order, limits, now)
      && if n == |rows| then err == None && Lists(order, SuspendedAmong(t, rows, n))
         else (order == [] && Fault(t.rows.Keys, rows, n).Some?
               && err == Some(StoreError(Fault(t.rows.Keys, rows, n).value)))
  }

  /** One row per subscriber, routed by its hash. */
  ghost predicate Routed(rows: seq<Delivery>, body: string, subs: seq<Subscriber>, ids: seq<string>,
                         sum: string -> nat, partitions: int) {
    |rows| == |subs| == |ids| && forall i :: 0 <= i < |rows| ==>
      && rows[i].id == ids[i] && rows[i].subscriber == subs[i].id && rows[i].body == body
      && LeftOver(sum(subs[i].id), if partitions <= 0 then 256 else partitions, rows[i].partition)
  }

  lemma {:induction false} InsertionsInsert(ds: seq<Delivery>, n: nat, now: int)
    requires n <= |ds|
    ensures |Insertions(ds, n, now)| == n && forall op :: op in Insertions(ds, n, now) ==> op.Insert?
  {
    if n > 0 {
      InsertionsInsert(ds, n - 1, now);
    }
  }
}
