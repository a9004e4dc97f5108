/** The in-memory store (store/memory/memory.go): maps updated in place under one mutex, so that
    each method is one atomic step. `history` records the changes a store has made; `Valid` says
    that they were legal and that the maps are exactly what they lead to, so that every theorem
    about histories holds of the store. */
module MemoryStore {
  import opened Deliveries
  import opened StoreSpec
  import opened StoreRuns
  import opened Sorting
  import opened Retention
  import opened Claiming
  import opened Batches

  function StaleIds(rows: map<string, Delivery>, cutoff: int): set<string> {
    set id | id in rows && IsStale(rows[id], cutoff)
  }

  predicate IsStale(d: Delivery, cutoff: int) {
    d.status == InFlight && d.claimedAt.At? && d.claimedAt.ns <= cutoff
  }

  function Released(d: Delivery, stale: bool): Delivery {
    if stale then Unstamped(d).(status := Pending) else d
  }

  /** The stale rows that are not left to do have been released. */
  ghost predicate Releasing(now: map<string, Delivery>, rows: map<string, Delivery>, stale: set<string>,
                            todo: set<string>) {
    now.Keys == rows.Keys && forall id :: id in rows ==> now[id] == Released(rows[id], id in stale && id !in todo)
  }

  lemma ReleasingOneMore(now: map<string, Delivery>, rows: map<string, Delivery>, stale: set<string>,
                         todo: set<string>, id: string)
    requires Releasing(now, rows, stale, todo) && id in todo && id in rows
    ensures now[id] == rows[id]
    ensures if id in stale
            then Releasing(now[id := Released(rows[id], true)], rows, stale, todo - {id})
            else Releasing(now, rows, stale, todo - {id})
  {
  }

  /** `c` stands for a retained row of `s`. */
  predicate IsRetained(c: Candidate, rows: map<string, Delivery>, s: string) {
    c.id in rows && c == CandidateOf(c.id, rows[c.id]) && rows[c.id].subscriber == s && rows[c.id].status == Retained
  }

  method CollectRetained(rows: map<string, Delivery>, s: string) returns (cs: seq<Candidate>)
    ensures forall c :: c in cs <==> IsRetained(c, rows, s)
  {
    cs := [];
    var todo := rows.Keys;
    while todo != {}
      invariant todo <= rows.Keys
      invariant forall c :: c in cs <==> IsRetained(c, rows, s) && c.id !in todo
      decreases todo
    {
      var id :| id in todo;
      todo := todo - {id};
      var d := rows[id];
      if d.subscriber == s && d.status == Retained {
        cs := cs + [CandidateOf(id, d)];
      }
    }
  }

  /** Why a mark is refused. */
  function HoldError(rows: map<string, Delivery>, id: string, owner: string, generation: nat): (e: Option<Error>)
    ensures e == None <==>
      (generation != 0 && id in rows && rows[id].status == InFlight
       && rows[id].owner == owner && rows[id].generation == generation)
    ensures e == Some(UnknownDelivery) <==> generation != 0 && id !in rows
    ensures e == Some(StaleClaim) <==>
      (generation != 0 && id in rows && rows[id].status == InFlight
       && (rows[id].owner != owner || rows[id].generation != generation))
  {
    if generation == 0 then Some(ZeroGeneration)
    else if id !in rows then Some(UnknownDelivery)
    else if rows[id].status != InFlight then Some(NotInFlight)
    else if rows[id].owner != owner || rows[id].generation != generation then Some(StaleClaim)
    else None
  }

  class Store {
    var byID: map<string, Delivery>
    var sequences: map<string, nat>
    var subs: map<string, Meta>
    var retentionMaxCount: int
    var retentionMaxAge: int
    ghost var history: seq<Op>

    ghost function Tables(): Table
      reads this
    {
      Table(byID, sequences, subs)
    }

    ghost predicate Valid()
      reads this
    {
      Reached(history, Tables())
    }

    function Bounds(): (limits: Limits)
      reads this`retentionMaxCount, this`retentionMaxAge
      ensures limits.maxCount == if retentionMaxCount <= 0 then 1000 else retentionMaxCount
      ensures limits.maxAge == if retentionMaxAge <= 0 then 86_400_000_000_000 else retentionMaxAge
    {
      Limits(if retentionMaxCount > 0 then retentionMaxCount else DEFAULT_RETENTION_MAX_COUNT,
             if retentionMaxAge > 0 then retentionMaxAge else DEFAULT_RETENTION_MAX_AGE)
    }

    function MetaOf(s: string): Meta
      reads this`subs
    {
      if s in subs then subs[s] else RUNNING
    }

    constructor ()
      ensures Valid() && history == []
    {
      byID, sequences, subs := map[], map[], map[];
      retentionMaxCount, retentionMaxAge := 0, 0;
      history := [];
      new;
      EmptyReached();
    }

    /** Notes that the tables have just gone from `t` through `op`. */
    ghost method Record(t: Table, op: Op)
      requires Reached(history, t) && Legal(t, op) && Tables() == Apply(t, op)
      modifies this`history
      ensures Valid() && history == old(history) + [op]
    {
      ReachedNext(history, t, op);
      history := history + [op];
    }

    // ---- Retention ----

    method DropRetained(id: string)
      requires id in byID
      modifies this`byID, this`subs
      ensures byID == old(byID) - {id}
      ensures subs == ChargeOnce(old(subs), old(byID)[id].subscriber)
    {
      var s := byID[id].subscriber;
      var m := MetaOf(s);
      subs := subs[s := Meta(m.suspended, true, m.dropped + 1)];
      byID := byID - {id};
    }

    /** Looks at one row: drops it if it is aged, collects it if it is retained. */
    method DropOrCollect(id: string, s: string, limits: Limits, now: int, cs: seq<Candidate>, ghost t: Table,
                         ghost todo: set<string>)
      returns (retained: seq<Candidate>)
      requires id in todo && id in t.rows
      requires Shed(byID, subs, t, s, AgedOf(t.rows, s, limits, now) - todo)
      requires Collected(cs, t.rows, todo, s, limits, now)
      modifies this`byID, this`subs
      ensures Shed(byID, subs, t, s, AgedOf(t.rows, s, limits, now) - (todo - {id}))
      ensures Collected(retained, t.rows, todo - {id}, s, limits, now)
    {
      AgedOneMore(t.rows, todo, s, limits, now, id);
      CollectedOneMore(cs, t.rows, todo, s, limits, now, id);
      retained := cs;
      var d := byID[id];
      if d.subscriber != s || d.status != Retained {
        return;
      }
      if Aged(d, limits, now) {
        ShedOneMore(byID, subs, t, s, AgedOf(t.rows, s, limits, now) - todo, id);
        DropRetained(id);
        return;
      }
      retained := cs + [CandidateOf(id, d)];
    }

    /** Drops the aged rows of `s` and collects the others that are retained. */
    method DropAged(s: string, limits: Limits, now: int) returns (retained: seq<Candidate>)
      modifies this`byID, this`subs
      ensures Shed(byID, subs, old(Tables()), s, AgedOf(old(byID), s, limits, now))
      ensures Collected(retained, old(byID), {}, s, limits, now)
    {
      ghost var t, aged := Tables(), AgedOf(byID, s, limits, now);
      retained := [];
      var todo := byID.Keys;
      SweepStarts(t, s, limits, now);
      while todo != {}
        invariant todo <= t.rows.Keys && Shed(byID, subs, t, s, aged - todo)
        invariant Collected(retained, t.rows, todo, s, limits, now)
        decreases todo
      {
        var id :| id in todo;
        retained := DropOrCollect(id, s, limits, now, retained, t, todo);
        todo := todo - {id};
      }
      assert aged - {} == aged;
    }

    /** Drops the lowest sequences until the bound is met. */
    method DropExcess(s: string, sorted: seq<Candidate>, limits: Limits, now: int, ghost t: Table)
      requires Shed(byID, subs, t, s, AgedOf(t.rows, s, limits, now))
      requires ListsKeepable(sorted, t.rows, s, limits, now)
      modifies this`byID, this`subs
      ensures t.(rows := byID, subs := subs) == Trimmed(t, s, limits, now)
    {
      ghost var k, aged := 0, AgedOf(t.rows, s, limits, now);
      var retained := sorted;
      assert aged + CandidateIds(sorted[..k]) == aged;
      while |retained| > limits.maxCount
        invariant k <= |sorted| && retained == sorted[k..]
        invariant k > 0 ==> |retained| >= limits.maxCount
        invariant Shed(byID, subs, t, s, aged + CandidateIds(sorted[..k]))
        decreases |retained|
      {
        DropLowest(s, retained, limits, now, sorted, k, t);
        retained, k := retained[1..], k + 1;
      }
      LoopDropsExactly(sorted, k, t.rows, s, limits, now);
      ShedAllIsTrimmed(byID, subs, t, s, limits, now);
    }

    method DropLowest(s: string, retained: seq<Candidate>, limits: Limits, now: int,
                      ghost sorted: seq<Candidate>, ghost k: nat, ghost t: Table)
      requires k < |sorted| && retained == sorted[k..] && ListsKeepable(sorted, t.rows, s, limits, now)
      requires Shed(byID, subs, t, s, AgedOf(t.rows, s, limits, now) + CandidateIds(sorted[..k]))
      modifies this`byID, this`subs
      ensures Shed(byID, subs, t, s, AgedOf(t.rows, s, limits, now) + CandidateIds(sorted[..k + 1]))
    {
      ghost var gone := AgedOf(t.rows, s, limits, now) + CandidateIds(sorted[..k]);
      NotYetGone(sorted, k, t.rows, s, limits, now);
      ShedOneMore(byID, subs, t, s, gone, sorted[k].id);
      IdsOneMore(sorted, k, AgedOf(t.rows, s, limits, now));
      DropRetained(retained[0].id);
    }

    method ApplyRetention(s: string, now: int)
      requires Valid()
      modifies this`byID, this`subs, this`history
      ensures Valid() && history == old(history) + [Trim(s, Bounds(), now)]
      ensures Tables() == Trimmed(old(Tables()), s, Bounds(), now)
      ensures KeepsNewest(old(byID), byID, s, Bounds().maxCount, Bounds().maxAge, now)
    {
      ghost var t := Tables();
      TrimOutlives(t, s, Bounds(), now);
      ghost var q := ReachedMirrors(history, t, s);
      var limits := Bounds();
      var retained := DropAged(s, limits, now);
      var sorted := SortBy(retained, BySequence);
      SortedListsKeepable(retained, sorted, t.rows, s, limits, now);
      DropExcess(s, sorted, limits, now, t);
      Record(t, Trim(s, limits, now));
    }

    // ---- Enqueue ----

    /** Stores one row of a batch, unless it is refused. */
    method EnqueueRow(d: Delivery, now: int) returns (err: Option<Error>)
      requires Valid() && forall id :: id in byID ==> byID[id].createdAt <= now
      modifies this`byID, this`sequences, this`history
      ensures Valid() && err == RowFault(old(byID).Keys, d)
      ensures history == old(history) + if err == None then [Insert(d, now)] else []
      ensures err == None ==> Enqueued(old(Tables()), byID, sequences, d, now)
      ensures byID.Keys == old(byID).Keys + if err == None then {d.id} else {}
      ensures forall id :: id in byID ==> byID[id].createdAt <= now
    {
      ghost var t := Tables();
      if d.id == "" {
        return Some(MissingID);
      }
      if d.subscriber == "" {
        return Some(MissingSubscriber);
      }
      if d.id in byID {
        return Some(DuplicateID);
      }
      var n := (if d.subscriber in sequences then sequences[d.subscriber] else 0) + 1;
      sequences := sequences[d.subscriber := n];
      var status := if MetaOf(d.subscriber).suspended then Retained else Pending;
      var row := d.(sequence := n, attempt := 0, nextAttempt := At(now), createdAt := now, owner := "",
      generation := 0, claimedAt := Never, lastError := "", status := status);
      byID := byID[d.id := row];
      Record(t, Insert(d, now));
      err := None;
    }

    /** Stores the rows up to the first faulty one. Only when there is none is retention applied,
        once for every suspended subscriber of the batch, in some order. */
    method Enqueue(ds: seq<Delivery>, now: int)
      returns (err: Option<Error>, ghost stored: nat, ghost order: seq<string>)
      requires Valid() && forall id :: id in byID ==> byID[id].createdAt <= now
      modifies this`byID, this`sequences, this`subs, this`history
      ensures Valid()
      ensures Accepted(old(byID).Keys, ds, stored)
      ensures if stored == |ds| then err == None else err.Some? && err == Fault(old(byID).Keys, ds, stored)
      ensures if err == None then Lists(order, SuspendedAmong(old(Tables()), ds, |ds|)) else order == []
      ensures history == old(history) + Insertions(ds, stored, now) + Trims(order, Bounds(), now)
    {
      var touched: set<string>;
      err, touched, stored := EnqueueRows(ds, now);
      order := [];
      if err == None {
        order := RetainEach(touched, now);
      }
    }

    /** The insertion loop; `touched` are the suspended subscribers met on the way. */
    method EnqueueRows(ds: seq<Delivery>, now: int)
      returns (err: Option<Error>, touched: set<string>, ghost stored: nat)
      requires Valid() && forall id :: id in byID ==> byID[id].createdAt <= now
      modifies this`byID, this`sequences, this`history
      ensures Valid()
      ensures Accepted(old(byID).Keys, ds, stored)
      ensures if stored == |ds| then err == None else err.Some? && err == Fault(old(byID).Keys, ds, stored)
      ensures touched == SuspendedAmong(old(Tables()), ds, stored)
      ensures history == old(history) + Insertions(ds, stored, now)
    {
      ghost var t, h := Tables(), history;
      touched, stored := {}, 0;
      for i := 0 to |ds|
        invariant stored == i && Valid()
        invariant forall id :: id in byID ==> byID[id].createdAt <= now
        invariant Storing(t, h, ds, i, now, byID.Keys, touched, history)
      {
        StoringOneMore(t, h, ds, i, now, byID.Keys, touched, history);
        err := EnqueueRow(ds[i], now);
        if err != None {
          return;
        }
        if MetaOf(ds[i].subscriber).suspended {
          touched := touched + {ds[i].subscriber};
        }
        stored := stored + 1;
      }
      err := None;
    }

    method RetainEach(touched: set<string>, now: int) returns (ghost order: seq<string>)
      requires Valid()
      modifies this`byID, this`subs, this`history
      ensures Valid() && Lists(order, touched)
      ensures history == old(history) + Trims(order, Bounds(), now)
    {
      ghost var h := history;
      order := [];
      var todo := touched;
      while todo != {}
        invariant todo <= touched && Valid() && Lists(order, touched - todo)
        invariant history == h + Trims(order, Bounds(), now)
        decreases todo
      {
        var s :| s in todo;
        todo := todo - {s};
        ApplyRetention(s, now);
        TrimsOneMore(order, s, Bounds(), now);
        order := order + [s];
      }
    }

    // ---- Claim ----

    method Claim(owner: string, generation: nat, partitions: seq<int>, limit: int, now: int)
      returns (r: Result<seq<Delivery>, Error>)
      requires Valid()
      modifies this`byID, this`history
      ensures Valid()
      ensures r.Err? <==> owner == "" || generation == 0
      ensures r.Err? ==> r.error == (if owner == "" then NoOwner else ZeroGeneration)
      ensures r.Err? || limit <= 0 || partitions == [] ==> history == old(history) && Tables() == old(Tables())
      ensures r.Ok? && (limit <= 0 || partitions == []) ==> r.value == []
      ensures r.Ok? && limit > 0 && partitions != [] ==>
        && ExactClaim(old(Tables()), r.value, PartitionSet(partitions), limit, owner, generation, now)
        && history == old(history) + [Op.Claim(Stamps(r.value, generation), owner, now)]
      ensures r.Ok? && limit > 0 ==>
        FairShare(old(byID), subs, byID, r.value, partitions, limit, owner, generation, now)
    {
      if owner == "" { return Err(NoOwner); }
      if generation == 0 { return Err(ZeroGeneration); }
      if limit <= 0 { return Ok([]); }
      if partitions == [] { return Ok([]); }
      var out := ClaimSome(owner, generation, partitions, limit, now);
      r := Ok(out);
    }

    method ClaimSome(owner: string, generation: nat, partitions: seq<int>, limit: int, now: int)
      returns (out: seq<Delivery>)
      requires Valid() && owner != "" && generation != 0 && limit > 0
      modifies this`byID, this`history
      ensures Valid()
      ensures ExactClaim(old(Tables()), out, PartitionSet(partitions), limit, owner, generation, now)
      ensures history == old(history) + [Op.Claim(Stamps(out, generation), owner, now)]
      ensures FairShare(old(byID), subs, byID, out, partitions, limit, owner, generation, now)
    {
      ghost var t := Tables();
      out := ScanAndClaim(owner, generation, partitions, limit, now);
      ExactIsFair(t, byID, out, partitions, limit, owner, generation, now);
    }

    /** The scan, the sort and the claim loop. */
    method ScanAndClaim(owner: string, generation: nat, partitions: seq<int>, limit: int, now: int)
      returns (out: seq<Delivery>)
      requires Valid() && owner != "" && generation != 0 && limit > 0
      modifies this`byID, this`history
      ensures Valid() && Tables() == Apply(old(Tables()), Op.Claim(Stamps(out, generation), owner, now))
      ensures ExactClaim(old(Tables()), out, PartitionSet(partitions), limit, owner, generation, now)
      ensures history == old(history) + [Op.Claim(Stamps(out, generation), owner, now)]
    {
      var t, parts := Table(byID, sequences, subs), PartitionSet(partitions);
      var head := FindHeads(byID);
      var candidates := FindCandidates(t, head, parts, now);
      assert Asymmetric(CandidateLess) by { CandidateOrder(); }
      var sorted := SortBy(candidates, CandidateLess);
      SortingRanks(history, candidates, sorted, t, parts, now);
      out := ClaimEach(sorted, head, owner, generation, limit, now, t, parts);
      TakenIsClaim(byID, out, history, t, sorted, parts, owner, generation, now);
      TakenIsExact(byID, out, history, t, sorted, parts, limit, owner, generation, now);
      Record(t, Op.Claim(Stamps(out, generation), owner, now));
    }

    /** The claim loop. Neither of its two skips ever happens: candidates are of different
        subscribers, and no claim of this call changes the row of a later candidate. */
    method ClaimEach(sorted: seq<Candidate>, head: map<string, int>, owner: string, generation: nat, limit: int,
                     now: int, ghost t: Table, ghost parts: set<int>)
      returns (out: seq<Delivery>)
      requires byID == t.rows && limit > 0
      requires Heads(t.rows, {}, head) && Ranked(sorted, t, parts, now)
      modifies this`byID
      ensures Taken(byID, out, t, sorted, |out|, owner, generation, now)
      ensures |out| == if |sorted| < limit then |sorted| else limit
    {
      out := [];
      var claimedSubs: set<string> := {};
      var n := 0;
      NothingTaken(t, sorted, owner, generation, now);
      while n < |sorted|
        invariant n == |out| && Taken(byID, out, t, sorted, n, owner, generation, now) && n <= limit
        invariant claimedSubs == Subscribers(sorted, n)
      {
        if |out| >= limit { break; }
        var c := sorted[n];
        NotServed(sorted, t, parts, now, n, n);
        if c.subscriber in claimedSubs {
          assert false;
        }
        TakenOneMore(byID, out, t, sorted, n, owner, generation, now, parts);
        CandidateAtHead(sorted, t, parts, now, n, head);
        var d := byID[c.id];
        if head[d.subscriber] != d.sequence {
          assert false;
        }
        d := Claimed(d, owner, generation, now);
        byID := byID[c.id := d];
        claimedSubs := claimedSubs + {c.subscriber};
        out := out + [d];
        n := n + 1;
      }
    }

    // ---- Marks ----

    method MarkTerminal(id: string, owner: string, generation: nat, status: Status,
                        error: string) returns (err: Option<Error>)
      requires Valid() && (status == Delivered || status == DeadLettered)
      modifies this`byID, this`history
      ensures Valid() && err == HoldError(old(byID), id, owner, generation)
      ensures history == old(history) + if err == None then [Finish(id, owner, generation, status, error)] else []
      ensures err != None ==> byID == old(byID)
      ensures err == None ==>
        byID == old(byID)[id := old(byID)[id].(status := status, lastError := error,
                                               owner := "", generation := 0, claimedAt := Never)]
    {
      ghost var t := Tables();
      err := HoldError(byID, id, owner, generation);
      if err != None { return; }
      var d := byID[id];
      d := d.(status := status, lastError := error, owner := "", generation := 0, claimedAt := Never);
      byID := byID[id := d];
      Record(t, Finish(id, owner, generation, status, error));
    }

    method MarkDelivered(id: string, owner: string, generation: nat) returns (err: Option<Error>)
      requires Valid()
      modifies this`byID, this`history
      ensures Valid() && err == HoldError(old(byID), id, owner, generation)
      ensures history == old(history) + if err == None then [Finish(id, owner, generation, Delivered, "")] else []
      ensures err != None ==> byID == old(byID)
      ensures err == None ==>
        byID == old(byID)[id := old(byID)[id].(status := Delivered, lastError := "",
                                               owner := "", generation := 0, claimedAt := Never)]
    {
      err := MarkTerminal(id, owner, generation, Delivered, "");
    }

    method MarkDeadLetter(id: string, owner: string, generation: nat, error: string) returns (err: Option<Error>)
      requires Valid()
      modifies this`byID, this`history
      ensures Valid() && err == HoldError(old(byID), id, owner, generation)
      ensures history == old(history) + if err == None then [Finish(id, owner, generation, DeadLettered, error)] else []
      ensures err != None ==> byID == old(byID)
      ensures err == None ==>
        byID == old(byID)[id := old(byID)[id].(status := DeadLettered, lastError := error,
                                               owner := "", generation := 0, claimedAt := Never)]
    {
      err := MarkTerminal(id, owner, generation, DeadLettered, error);
    }

    method MarkFailed(id: string, owner: string, generation: nat, attempt: int, next: Time, error: string)
      returns (err: Option<Error>)
      requires Valid()
      modifies this`byID, this`history
      ensures Valid() && err == HoldError(old(byID), id, owner, generation)
      ensures history == old(history) + if err == None then [Retry(id, owner, generation, attempt, next, error)] else []
      ensures err != None ==> byID == old(byID)
      ensures err == None ==>
        byID == old(byID)[id := old(byID)[id].(status := Pending, attempt := attempt, nextAttempt := next,
                                               lastError := error, owner := "", generation := 0, claimedAt := Never)]
    {
      ghost var t := Tables();
      err := HoldError(byID, id, owner, generation);
      if err != None { return; }
      var d := byID[id];
      d := d.(status := Pending, attempt := attempt, nextAttempt := next, lastError := error,
      owner := "", generation := 0, claimedAt := Never);
      byID := byID[id := d];
      Record(t, Retry(id, owner, generation, attempt, next, error));
    }

    /** Dead-letters the claimed row, suspends its subscriber and retains what was pending. */
    method ExhaustAndSuspend(id: string, owner: string, generation: nat, error: string,
                             now: int) returns (err: Option<Error>)
      requires Valid()
      modifies this`byID, this`subs, this`history
      ensures Valid() && err == HoldError(old(byID), id, owner, generation)
      ensures history == old(history) + if err == None
        then [Suspend(id, owner, generation, error), Trim(old(byID)[id].subscriber, Bounds(), now)] else []
      ensures err == None ==> Exhausted(old(byID), old(subs), byID, subs, id, error, Bounds(), now)
      ensures err != None ==> Tables() == old(Tables())
    {
      err := HoldError(byID, id, owner, generation);
      if err != None { return; }
      ExhaustHeld(id, owner, generation, error, now);
    }

    method ExhaustHeld(id: string, owner: string, generation: nat, error: string, now: int)
      requires Valid() && Holds(byID, id, owner, generation)
      modifies this`byID, this`subs, this`history
      ensures Valid()
      ensures history == old(history) + [Suspend(id, owner, generation, error)]
        + [Trim(old(byID)[id].subscriber, Bounds(), now)]
      ensures Exhausted(old(byID), old(subs), byID, subs, id, error, Bounds(), now)
    {
      ghost var t, limits := Tables(), Bounds();
      var s := byID[id].subscriber;
      SuspendRow(id, owner, generation, error);
      ApplyRetention(s, now);
      SuspendExhausts(t, Tables(), id, owner, generation, error, limits, now);
    }

    /** Everything but retention. */
    method SuspendRow(id: string, owner: string, generation: nat, error: string)
      requires Valid() && Holds(byID, id, owner, generation)
      modifies this`byID, this`subs, this`history
      ensures Valid() && history == old(history) + [Suspend(id, owner, generation, error)]
      ensures Tables() == Apply(old(Tables()), Suspend(id, owner, generation, error))
    {
      ghost var t := Tables();
      var d := byID[id];
      var s := d.subscriber;
      d := d.(status := DeadLettered, lastError := error, owner := "", generation := 0, claimedAt := Never);
      byID := byID[id := d];
      subs := subs[s := MetaOf(s).(suspended := true)];
      ParkPending(s);
      assert byID == Apply(t, Suspend(id, owner, generation, error)).rows;
      Record(t, Suspend(id, owner, generation, error));
    }

    method ParkPending(s: string)
      modifies this`byID
      ensures byID == map id | id in old(byID) :: Parked(old(byID)[id], s)
    {
      ghost var rows := byID;
      var todo := byID.Keys;
      while todo != {}
        invariant todo <= rows.Keys && byID.Keys == rows.Keys
        invariant forall id :: id in rows ==> byID[id] == if id in todo then rows[id] else Parked(rows[id], s)
        decreases todo
      {
        var id :| id in todo;
        todo := todo - {id};
        var d := byID[id];
        if d.subscriber != s { continue; }
        if d.status == Pending {
          byID := byID[id := d.(status := Retained, owner := "", generation := 0, claimedAt := Never)];
        }
      }
    }

    // ---- Resume ----

    /** Applies retention, reports the gap, and requeues what is retained. */
    method Resume(s: string, now: int) returns (r: Result<Gap, Error>)
      requires Valid()
      modifies this`byID, this`subs, this`history
      ensures Valid()
      ensures r.Err? <==> s == ""
      ensures r.Err? ==> r.error == MissingSubscriber && history == old(history)
      ensures r.Ok? ==> history == old(history) + [Trim(s, Bounds(), now), Reopen(s, now)]
      ensures r.Ok? ==> var m := Trimmed(old(Tables()), s, Bounds(), now).MetaOf(s); r.value == Gap(m.gap, m.dropped)
      ensures r.Ok? ==>
        && Resumed(old(byID), old(subs), byID, subs, s, Bounds(), now)
        && GapReported(old(byID), old(subs), byID, s, r.value.occurred, r.value.dropped)
    {
      if s == "" { return Err(MissingSubscriber); }
      ghost var t, limits := Tables(), Bounds();
      ApplyRetention(s, now);
      var m := MetaOf(s);
      var gap := Gap(m.gap, m.dropped);
      ghost var t1 := Tables();
      ReopenRows(s, now);
      ReopenResumes(t, t1, Tables(), s, limits, now);
      r := Ok(gap);
    }

    /** Everything after retention. */
    method ReopenRows(s: string, now: int)
      requires Valid() && s != ""
      modifies this`byID, this`subs, this`history
      ensures Valid() && history == old(history) + [Reopen(s, now)]
      ensures Tables() == Apply(old(Tables()), Reopen(s, now))
    {
      ghost var t := Tables();
      var retained := CollectRetained(byID, s);
      retained := SortBy(retained, BySequence);
      Requeue(retained, s, now);
      subs := subs[s := Meta(false, false, 0)];
      assert byID == Apply(t, Reopen(s, now)).rows;
      Record(t, Reopen(s, now));
    }

    method Requeue(retained: seq<Candidate>, s: string, now: int)
      requires forall c :: c in retained <==> IsRetained(c, byID, s)
      modifies this`byID
      ensures byID == map id | id in old(byID) :: Requeued(old(byID)[id], s, now)
    {
      ghost var rows := byID;
      for i := 0 to |retained|
        invariant byID.Keys == rows.Keys
        invariant forall id :: id in rows ==>
          byID[id] == if id in CandidateIds(retained[..i]) then Requeued(rows[id], s, now) else rows[id]
      {
        var c := retained[i];
        assert c in retained;
        IdsOneMore(retained, i, {});
        assert {} + CandidateIds(retained[..i]) == CandidateIds(retained[..i]);
        assert {} + CandidateIds(retained[..i + 1]) == CandidateIds(retained[..i + 1]);
        var d := byID[c.id];
        d := d.(status := Pending, nextAttempt := At(now), owner := "", generation := 0, claimedAt := Never);
        byID := byID[c.id := d];
      }
      assert retained[..|retained|] == retained;
      forall id | id in rows && rows[id].subscriber == s && rows[id].status == Retained
        ensures id in CandidateIds(retained)
      {
        assert CandidateOf(id, rows[id]) in retained;
      }
    }

    // ---- Recovery and counters ----

    /** Returns to pending every in-flight row claimed at or before `now - olderThan`. */
    method RecoverStale(olderThan: int, now: int) returns (n: nat)
      requires Valid()
      modifies this`byID, this`history
      ensures Valid()
      ensures history == old(history) + [Recover(StaleIds(old(byID), now - olderThan))]
      ensures n == |StaleIds(old(byID), now - olderThan)|
      ensures byID == map id | id in old(byID) ::
        var d := old(byID)[id];
        if d.status == InFlight && d.claimedAt.At? && d.claimedAt.ns <= now - olderThan
        then d.(status := Pending, owner := "", generation := 0, claimedAt := Never) else d
    {
      ghost var t := Tables();
      n := ReleaseStale(now - olderThan, StaleIds(byID, now - olderThan));
      assert byID == Apply(t, Recover(StaleIds(t.rows, now - olderThan))).rows;
      Record(t, Recover(StaleIds(t.rows, now - olderThan)));
    }

    method ReleaseStale(cutoff: int, ghost stale: set<string>) returns (n: nat)
      requires forall id :: id in stale <==> id in byID && IsStale(byID[id], cutoff)
      modifies this`byID
      ensures Releasing(byID, old(byID), stale, {}) && n == |stale|
    {
      ghost var rows := byID;
      ghost var freed: set<string> := {};
      n := 0;
      var todo := byID.Keys;
      while todo != {}
        invariant todo <= rows.Keys && Releasing(byID, rows, stale, todo)
        invariant n == |freed| && forall x :: x in freed <==> x in stale && x !in todo
        decreases todo
      {
        var id :| id in todo;
        ReleasingOneMore(byID, rows, stale, todo, id);
        todo := todo - {id};
        var d := byID[id];
        if d.status == InFlight && d.claimedAt.At? && d.claimedAt.ns <= cutoff {
          byID := byID[id := d.(status := Pending, owner := "", generation := 0, claimedAt := Never)];
          n := n + 1;
          freed := freed + {id};
        }
      }
      assert freed == stale;
    }

    method PendingOrInFlight() returns (n: nat)
      ensures n == |set id | id in byID && (byID[id].status == Pending || byID[id].status == InFlight)|
    {
      n := CountWhere(byID, Unfinished);
      assert Where(byID, Unfinished) ==
        set id | id in byID && (byID[id].status == Pending || byID[id].status == InFlight);
    }

    method RetainedCount(s: string) returns (n: nat)
      ensures n == |set id | id in byID && byID[id].subscriber == s && byID[id].status == Retained|
    {
      var wanted := (d: Delivery) => d.subscriber == s && d.status == Retained;
      n := CountWhere(byID, wanted);
      assert Where(byID, wanted) == set id | id in byID && byID[id].subscriber == s && byID[id].status == Retained;
    }

    method IsSuspended(s: string) returns (b: bool)
      ensures b <==> s in subs && subs[s].suspended
    {
      b := if s in subs then subs[s].suspended else false;
    }
  }
}
