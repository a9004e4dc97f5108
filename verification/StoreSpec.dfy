/** The transitions of a delivery store as functions on its tables. Both stores are proved
    against these: the in-memory one by its loops, the SQL one by its set-based updates. */
module StoreSpec {
  import opened Deliveries

  /** Retention bounds for the rows of a suspended subscriber. */
  datatype Limits = Limits(maxCount: nat, maxAge: int)

  /** The indivisible changes a store makes. A store operation is one or two of them;
      an operation that fails its check makes none. */
  datatype Op =
    | Insert(d: Delivery, now: int)
    | Trim(subscriber: string, limits: Limits, now: int)
    | Claim(picks: map<string, nat>, owner: string, now: int)
    | Finish(id: string, owner: string, generation: nat, status: Status, error: string)
    | Retry(id: string, owner: string, generation: nat, attempt: int, next: Time, error: string)
    | Suspend(id: string, owner: string, generation: nat, error: string)
    | Reopen(subscriber: string, now: int)
    | Recover(ids: set<string>)

  // ---- Guards ----

  /** The claim that a mark must present: the row is in flight under exactly this stamp. */
  predicate Holds(rows: map<string, Delivery>, id: string, owner: string, generation: nat) {
    generation != 0 && id in rows && rows[id].status == InFlight
    && rows[id].owner == owner && rows[id].generation == generation
  }

  /** No earlier row of the subscriber is pending or in flight. */
  ghost predicate HeadOfLine(rows: map<string, Delivery>, id: string)
    requires id in rows
  {
    forall j :: j in rows && rows[j].subscriber == rows[id].subscriber && Unfinished(rows[j])
      ==> rows[id].sequence <= rows[j].sequence
  }

  ghost predicate Claimable(t: Table, id: string, now: int) {
    id in t.rows && t.rows[id].status == Pending && !t.MetaOf(t.rows[id].subscriber).suspended
    && Due(t.rows[id], now) && HeadOfLine(t.rows, id)
  }

  // ---- Retention ----

  predicate Aged(d: Delivery, limits: Limits, now: int) {
    d.createdAt < now - limits.maxAge
  }

  predicate Keepable(d: Delivery, s: string, limits: Limits, now: int) {
    d.subscriber == s && d.status == Retained && !Aged(d, limits, now)
  }

  /** Retained rows of `s` within the age bound and newer than sequence `n`. */
  function Newer(rows: map<string, Delivery>, s: string, n: int, limits: Limits, now: int): set<string> {
    set id | id in rows && Keepable(rows[id], s, limits, now) && n < rows[id].sequence
  }

  /** Retention keeps a row when it is young enough and fewer than `maxCount` kept rows are newer. */
  predicate Drops(rows: map<string, Delivery>, id: string, limits: Limits, now: int)
    requires id in rows
  {
    rows[id].status == Retained
    && (Aged(rows[id], limits, now)
        || |Newer(rows, rows[id].subscriber, rows[id].sequence, limits, now)| >= limits.maxCount)
  }

  function DropsOf(rows: map<string, Delivery>, s: string, limits: Limits, now: int): set<string> {
    set id | id in rows && rows[id].subscriber == s && Drops(rows, id, limits, now)
  }

  function Charged(t: Table, s: string, n: nat): Meta {
    Meta(t.MetaOf(s).suspended, true, t.MetaOf(s).dropped + n)
  }

  function Trimmed(t: Table, s: string, limits: Limits, now: int): Table {
    var drops := DropsOf(t.rows, s, limits, now);
    t.(rows := t.rows - drops,
       subs := if drops == {} then t.subs else t.subs[s := Charged(t, s, |drops|)])
  }

  // ---- Transitions ----

  function Inserted(t: Table, d: Delivery, now: int): Delivery {
    Unstamped(d).(
    sequence := t.Last(d.subscriber) + 1,
    attempt := 0,
    nextAttempt := At(now),
    createdAt := now,
    lastError := "",
    status := if t.MetaOf(d.subscriber).suspended then Retained else Pending)
  }

  function Claimed(d: Delivery, owner: string, generation: nat, now: int): Delivery {
    d.(status := InFlight, owner := owner, generation := generation, claimedAt := At(now), attempt := d.attempt + 1)
  }

  function Parked(d: Delivery, s: string): Delivery {
    if d.subscriber == s && d.status == Pending then Unstamped(d).(status := Retained) else d
  }

  function Requeued(d: Delivery, s: string, now: int): Delivery {
    if d.subscriber == s && d.status == Retained
    then Unstamped(d).(status := Pending, nextAttempt := At(now))
    else d
  }

  function Apply(t: Table, op: Op): Table {
    match op
    case Insert(d, now) =>
      t.(rows := t.rows[d.id := Inserted(t, d, now)],
         seqs := t.seqs[d.subscriber := t.Last(d.subscriber) + 1])
    case Trim(s, limits, now) =>
      Trimmed(t, s, limits, now)
    case Claim(picks, owner, now) =>
      t.(rows := map id | id in t.rows ::
                   if id in picks then Claimed(t.rows[id], owner, picks[id], now) else t.rows[id])
    case Finish(id, _, _, status, error) =>
      if id !in t.rows then t else
      t.(rows := t.rows[id := Unstamped(t.rows[id]).(status := status, lastError := error)])
    case Retry(id, _, _, attempt, next, error) =>
      if id !in t.rows then t else
      t.(rows := t.rows[id := Unstamped(t.rows[id]).(
                 status := Pending, attempt := attempt, nextAttempt := next, lastError := error)])
    case Suspend(id, _, _, error) =>
      if id !in t.rows then t else
      var s := t.rows[id].subscriber;
      t.(rows := map j | j in t.rows ::
                   if j == id then Unstamped(t.rows[j]).(status := DeadLettered, lastError := error)
                   else Parked(t.rows[j], s),
         subs := t.subs[s := t.MetaOf(s).(suspended := true)])
    case Reopen(s, now) =>
      t.(rows := map j | j in t.rows :: Requeued(t.rows[j], s, now),
         subs := t.subs[s := RUNNING])
    case Recover(ids) =>
      t.(rows := map j | j in t.rows ::
                   if j in ids then Unstamped(t.rows[j]).(status := Pending) else t.rows[j])
  }

  /** When a store makes the change. The last conjunct of `Insert` is the one assumption on the
      clock: an enqueue never reads a time before the creation time of an earlier row. */
  ghost predicate Legal(t: Table, op: Op) {
    match op
    case Insert(d, now) =>
      d.id != "" && d.subscriber != "" && d.id !in t.rows
      && forall j :: j in t.rows ==> t.rows[j].createdAt <= now
    case Trim(_, _, _) => true
    case Claim(picks, owner, now) =>
      owner != "" && forall id :: id in picks ==> picks[id] != 0 && Claimable(t, id, now)
    case Finish(id, owner, generation, status, _) =>
      Holds(t.rows, id, owner, generation) && (status == Delivered || status == DeadLettered)
    case Retry(id, owner, generation, _, _, _) => Holds(t.rows, id, owner, generation)
    case Suspend(id, owner, generation, _) => Holds(t.rows, id, owner, generation)
    case Reopen(s, _) => s != ""
    case Recover(ids) => forall id :: id in ids ==> id in t.rows && t.rows[id].status == InFlight
  }

  // ---- Runs ----

  /** The states that a legal history passes through, from an empty store. */
  ghost predicate Passes(h: seq<Op>, ts: seq<Table>) {
    && |ts| == |h| + 1 && ts[0] == EMPTY
    && forall i {:trigger Legal(ts[i], h[i])} :: 0 <= i < |h| ==> Legal(ts[i], h[i]) && ts[i + 1] == Apply(ts[i], h[i])
  }

  /** `t` is where the legal history `h` leads. Stores keep this about themselves. */
  ghost predicate Reached(h: seq<Op>, t: Table) {
    exists ts :: Passes(h, ts) && ts[|h|] == t
  }

  lemma EmptyReached()
    ensures Reached([], EMPTY)
  {
    assert Passes([], [EMPTY]);
  }

  lemma PrefixReached(h: seq<Op>, ts: seq<Table>, n: nat)
    requires Passes(h, ts) && n <= |h|
    ensures Reached(h[..n], ts[n])
  {
    var first, states := h[..n], ts[..n + 1];
    forall i | 0 <= i < n
      ensures Legal(states[i], first[i]) && states[i + 1] == Apply(states[i], first[i])
    {
      assert Legal(ts[i], h[i]);
    }
    assert Passes(first, states);
  }

  lemma ReachedNext(h: seq<Op>, t: Table, op: Op)
    requires Reached(h, t) && Legal(t, op)
    ensures Reached(h + [op], Apply(t, op))
  {
    var ts :| Passes(h, ts) && ts[|h|] == t;
    var h2, ts2 := h + [op], ts + [Apply(t, op)];
    forall i | 0 <= i < |h2|
      ensures Legal(ts2[i], h2[i]) && ts2[i + 1] == Apply(ts2[i], h2[i])
    {
      if i < |h| {
        assert Legal(ts[i], h[i]);
      }
    }
    assert Passes(h2, ts2);
  }

  /** The last change of a history, taken back. */
  lemma ReachedBefore(h: seq<Op>, op: Op, t: Table) returns (before: Table)
    requires Reached(h + [op], t)
    ensures Reached(h, before) && Legal(before, op) && t == Apply(before, op)
  {
    var ts :| Passes(h + [op], ts) && ts[|h| + 1] == t;
    before := ts[|h|];
    assert Legal(ts[|h|], (h + [op])[|h|]);
    forall i | 0 <= i < |h|
      ensures Legal(ts[i], h[i]) && ts[i + 1] == Apply(ts[i], h[i])
    {
      assert Legal(ts[i], (h + [op])[i]);
    }
    assert Passes(h, ts[..|h| + 1]);
  }

  lemma {:induction false} PassesOneWay(h: seq<Op>, ts: seq<Table>, us: seq<Table>, n: nat)
    requires Passes(h, ts) && Passes(h, us) && n <= |h|
    ensures ts[n] == us[n]
  {
    if n > 0 {
      PassesOneWay(h, ts, us, n - 1);
      assert Legal(ts[n - 1], h[n - 1]) && Legal(us[n - 1], h[n - 1]);
    }
  }

  lemma ReachesOneTable(h: seq<Op>, a: Table, b: Table)
    requires Reached(h, a) && Reached(h, b)
    ensures a == b
  {
    var ts :| Passes(h, ts) && ts[|h|] == a;
    var us :| Passes(h, us) && us[|h|] == b;
    PassesOneWay(h, ts, us, |h|);
  }
}
