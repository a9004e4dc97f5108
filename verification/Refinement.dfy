/** The tables of a store, read one subscriber at a time, are a queue; every change of the
    tables is one move of every subscriber's queue. */
module Refinement {
  import opened Deliveries
  import opened StoreSpec
  import opened Queues

  // ---- The abstraction ----

  /** What the queue says about a stored row `d` of its subscriber: rows from the front on
      stand in the line at their sequence, and rows below it have ended. */
  ghost predicate Fits(id: string, d: Delivery, q: Queue) {
    && d.id == id
    && 1 <= d.sequence <= q.issued
    && (if d.sequence < q.Front() then !Waiting(d) else
        && q.line[d.sequence - q.Front()] == id
        && d.status == q.StatusAt(d.sequence - q.Front())
        && d.attempt == (if d.sequence == q.Front() then q.tries else 0))
    && (if d.status == InFlight
        then d.generation != 0 && q.holder == Some(Stamp(d.owner, d.generation))
        else d.owner == "" && d.generation == 0)
  }

  ghost predicate RowsFit(rows: map<string, Delivery>, s: string, q: Queue) {
    forall id {:trigger Fits(id, rows[id], q)} :: id in rows && rows[id].subscriber == s ==> Fits(id, rows[id], q)
  }

  /** Every id in the line is stored, at consecutive sequences up to the last one issued. */
  ghost predicate LineStored(rows: map<string, Delivery>, s: string, q: Queue) {
    forall i {:trigger q.line[i]} :: 0 <= i < |q.line| ==>
      q.line[i] in rows && rows[q.line[i]].subscriber == s && rows[q.line[i]].sequence == q.Front() + i
  }

  /** Later sequences were created no earlier. */
  ghost predicate ByAge(rows: map<string, Delivery>, s: string) {
    forall a, b :: a in rows && b in rows && rows[a].subscriber == s && rows[b].subscriber == s
                   && rows[a].sequence < rows[b].sequence
      ==> rows[a].createdAt <= rows[b].createdAt
  }

  /** Sequences are unique per subscriber. */
  ghost predicate Distinct(rows: map<string, Delivery>, s: string) {
    forall a, b :: a in rows && b in rows && rows[a].subscriber == s && rows[b].subscriber == s
                   && rows[a].sequence == rows[b].sequence
      ==> a == b
  }

  function Ended(rows: map<string, Delivery>, s: string): set<string> {
    set id | id in rows && rows[id].subscriber == s && !Waiting(rows[id])
  }

  ghost predicate Counts(t: Table, s: string, q: Queue) {
    && t.Last(s) == q.issued
    && t.MetaOf(s) == Meta(q.suspended, q.dropped > 0, q.dropped)
    && |Ended(t.rows, s)| == q.done
  }

  ghost predicate Mirrors(t: Table, s: string, q: Queue) {
    && q.Sound()
    && Counts(t, s, q)
    && LineStored(t.rows, s, q)
    && RowsFit(t.rows, s, q)
    && ByAge(t.rows, s)
    && Distinct(t.rows, s)
  }

  predicate HeadIs(q: Queue, id: string) {
    q.line != [] && q.line[0] == id
  }

  /** The move that a change of the tables makes on the queue of `s`. */
  function MoveOf(t: Table, op: Op, s: string, q: Queue): Move {
    match op
    case Insert(d, _) => if d.subscriber == s then Push(d.id) else Stay
    case Trim(sub, limits, now) => if sub == s then Cut(|DropsOf(t.rows, s, limits, now)|) else Stay
    case Claim(picks, owner, _) =>
      if q.line != [] && q.line[0] in picks then Take(Stamp(owner, picks[q.line[0]])) else Stay
    case Finish(id, _, _, _, _) => if HeadIs(q, id) then Pop else Stay
    case Retry(id, _, _, attempt, _, _) => if HeadIs(q, id) then PutBack(attempt) else Stay
    case Suspend(id, _, _, _) => if HeadIs(q, id) then Close else Stay
    case Reopen(sub, _) => if sub == s then Open else Stay
    case Recover(ids) => if q.line != [] && q.line[0] in ids then Move.Release else Stay
  }

  // ---- Frames: what a change that keeps identities keeps of the line ----

  /** `rows2` holds some of `rows`, with identity, sequence and creation time untouched. */
  ghost predicate Keeps(rows: map<string, Delivery>, rows2: map<string, Delivery>) {
    forall id :: id in rows2 ==>
      && id in rows
      && rows2[id].subscriber == rows[id].subscriber
      && rows2[id].sequence == rows[id].sequence
      && rows2[id].createdAt == rows[id].createdAt
  }

  lemma LineKept(rows: map<string, Delivery>, rows2: map<string, Delivery>, s: string, q: Queue, q2: Queue, n: nat)
    requires LineStored(rows, s, q) && Keeps(rows, rows2)
    requires n <= |q.line| && q2.line == q.line[n..] && q2.issued == q.issued
    requires forall i :: n <= i < |q.line| ==> q.line[i] in rows2
    ensures LineStored(rows2, s, q2)
  {
  }

  lemma OrderKept(rows: map<string, Delivery>, rows2: map<string, Delivery>, s: string)
    requires ByAge(rows, s) && Distinct(rows, s) && Keeps(rows, rows2)
    ensures ByAge(rows2, s) && Distinct(rows2, s)
  {
  }

  /** Of a subscriber's rows only the head can be in flight. */
  lemma InFlightIsHead(rows: map<string, Delivery>, s: string, q: Queue, id: string)
    requires q.Sound() && RowsFit(rows, s, q)
    requires id in rows && rows[id].subscriber == s && rows[id].status == InFlight
    ensures HeadIs(q, id) && rows[id].sequence == q.Front()
    ensures q.holder == Some(Stamp(rows[id].owner, rows[id].generation))
  {
    assert Fits(id, rows[id], q);
  }

  /** A claimable row is the head of a running, unheld queue. */
  lemma ClaimableIsHead(t: Table, s: string, q: Queue, id: string, now: int)
    requires Mirrors(t, s, q) && Claimable(t, id, now) && t.rows[id].subscriber == s
    ensures HeadIs(q, id) && t.rows[id].sequence == q.Front()
    ensures !q.suspended && q.holder == None
  {
    assert Fits(id, t.rows[id], q);
    var head := q.line[0];
    assert Fits(head, t.rows[head], q);
  }

  // ---- Simulation, one kind of change at a time ----

  lemma InsertFits(t: Table, d: Delivery, now: int, s: string, q: Queue)
    requires q.Sound() && Counts(t, s, q) && RowsFit(t.rows, s, q) && Legal(t, Insert(d, now))
    requires d.subscriber == s
    ensures RowsFit(Apply(t, Insert(d, now)).rows, s, q.After(Push(d.id)))
  {
    var rows2 := Apply(t, Insert(d, now)).rows;
    var q2 := q.After(Push(d.id));
    assert q2.Front() == q.Front();
    forall id | id in rows2 && rows2[id].subscriber == s
      ensures Fits(id, rows2[id], q2)
    {
      if id != d.id {
        assert Fits(id, t.rows[id], q);
      }
    }
  }

  lemma InsertLine(t: Table, d: Delivery, now: int, s: string, q: Queue)
    requires q.Sound() && Counts(t, s, q) && LineStored(t.rows, s, q) && Legal(t, Insert(d, now))
    requires d.subscriber == s
    ensures LineStored(Apply(t, Insert(d, now)).rows, s, q.After(Push(d.id)))
  {
    var q2 := q.After(Push(d.id));
    var rows2 := Apply(t, Insert(d, now)).rows;
    forall i {:trigger q2.line[i]} | 0 <= i < |q2.line|
      ensures q2.line[i] in rows2 && rows2[q2.line[i]].subscriber == s && rows2[q2.line[i]].sequence == q2.Front() + i
    {
      if i < |q.line| {
        assert q2.line[i] == q.line[i];
      }
    }
  }

  lemma InsertOrder(t: Table, d: Delivery, now: int, s: string, q: Queue)
    requires Counts(t, s, q) && RowsFit(t.rows, s, q) && ByAge(t.rows, s) && Distinct(t.rows, s)
    requires Legal(t, Insert(d, now))
    requires d.subscriber == s
    ensures ByAge(Apply(t, Insert(d, now)).rows, s) && Distinct(Apply(t, Insert(d, now)).rows, s)
  {
    assert forall id :: id in t.rows && t.rows[id].subscriber == s ==> Fits(id, t.rows[id], q);
  }

  lemma InsertMoves(t: Table, d: Delivery, now: int, s: string, q: Queue)
    requires Mirrors(t, s, q) && Legal(t, Insert(d, now)) && d.subscriber == s
    ensures Mirrors(Apply(t, Insert(d, now)), s, q.After(Push(d.id)))
  {
    InsertFits(t, d, now, s, q);
    InsertLine(t, d, now, s, q);
    InsertOrder(t, d, now, s, q);
    assert Ended(Apply(t, Insert(d, now)).rows, s) == Ended(t.rows, s);
  }

  lemma ElsewhereStays(t: Table, op: Op, s: string, q: Queue)
    requires Mirrors(t, s, q) && Legal(t, op)
    requires Untouched(t, Apply(t, op), s)
    ensures Mirrors(Apply(t, op), s, q)
  {
    assert Ended(Apply(t, op).rows, s) == Ended(t.rows, s);
  }

  /** The change leaves the rows and tables of `s` alone. */
  ghost predicate Untouched(t: Table, t2: Table, s: string) {
    && t2.Last(s) == t.Last(s) && t2.MetaOf(s) == t.MetaOf(s)
    && (forall id :: id in t.rows && t.rows[id].subscriber == s ==> id in t2.rows && t2.rows[id] == t.rows[id])
    && (forall id :: id in t2.rows && t2.rows[id].subscriber == s ==> id in t.rows && t2.rows[id] == t.rows[id])
  }

  lemma Reshaped(t: Table, t2: Table, s: string, q: Queue, q2: Queue, n: nat)
    requires Mirrors(t, s, q) && Keeps(t.rows, t2.rows)
    requires n <= |q.line| && q2.line == q.line[n..] && q2.issued == q.issued
    requires forall i :: n <= i < |q.line| ==> q.line[i] in t2.rows
    requires q2.Sound() && Counts(t2, s, q2) && RowsFit(t2.rows, s, q2)
    ensures Mirrors(t2, s, q2)
  {
    LineKept(t.rows, t2.rows, s, q, q2, n);
    OrderKept(t.rows, t2.rows, s);
  }

  /** Only an insertion changes identities. */
  lemma OthersKeep(t: Table, op: Op)
    requires !op.Insert?
    ensures Keeps(t.rows, Apply(t, op).rows)
  {
  }

  /** Only finishing or suspending ends a row, and it ends that one. */
  lemma EndedAfter(t: Table, op: Op, s: string)
    requires !op.Insert? && Legal(t, op)
    ensures Ended(Apply(t, op).rows, s) == Ended(t.rows, s) +
      (if (op.Finish? || op.Suspend?) && t.rows[op.id].subscriber == s then {op.id} else {})
    ensures (op.Finish? || op.Suspend?) ==> op.id !in Ended(t.rows, s)
  {
  }

  lemma ClaimFits(t: Table, op: Op, s: string, q: Queue)
    requires op.Claim? && Legal(t, op) && q.Sound() && RowsFit(t.rows, s, q)
    requires q.line != [] && q.line[0] in op.picks && q.holder == None && !q.suspended
    requires forall id :: id in op.picks && t.rows[id].subscriber == s ==>
      id == q.line[0] && t.rows[id].sequence == q.Front()
    ensures RowsFit(Apply(t, op).rows, s, q.After(Take(Stamp(op.owner, op.picks[q.line[0]]))))
  {
    forall id | id in t.rows && t.rows[id].subscriber == s
      ensures Fits(id, Apply(t, op).rows[id], q.After(Take(Stamp(op.owner, op.picks[q.line[0]]))))
    {
      assert Fits(id, t.rows[id], q);
    }
  }

  lemma OnlyHeadsClaimed(t: Table, op: Op, s: string, q: Queue)
    requires op.Claim? && Mirrors(t, s, q) && Legal(t, op)
    ensures forall id :: id in op.picks && t.rows[id].subscriber == s ==>
      HeadIs(q, id) && !q.suspended && q.holder == None && t.rows[id].sequence == q.Front()
    ensures q.line != [] && q.line[0] in op.picks ==> !q.suspended && q.holder == None
  {
    forall id | id in op.picks && t.rows[id].subscriber == s
      ensures HeadIs(q, id) && !q.suspended && q.holder == None && t.rows[id].sequence == q.Front()
    {
      ClaimableIsHead(t, s, q, id, op.now);
    }
  }

  lemma ClaimElsewhere(t: Table, op: Op, s: string)
    requires op.Claim?
    requires forall id :: id in op.picks && id in t.rows ==> t.rows[id].subscriber != s
    ensures Untouched(t, Apply(t, op), s)
  {
  }

  lemma ClaimMoves(t: Table, op: Op, s: string, q: Queue)
    requires op.Claim? && Mirrors(t, s, q) && Legal(t, op)
    ensures q.Allows(MoveOf(t, op, s, q))
    ensures Mirrors(Apply(t, op), s, q.After(MoveOf(t, op, s, q)))
  {
    OnlyHeadsClaimed(t, op, s, q);
    if q.line == [] || q.line[0] !in op.picks {
      ClaimElsewhere(t, op, s);
      ElsewhereStays(t, op, s, q);
    } else {
      ClaimFits(t, op, s, q);
      OthersKeep(t, op);
      EndedAfter(t, op, s);
      LineSurvives(t, op, s, q);
      Reshaped(t, Apply(t, op), s, q, q.After(Take(Stamp(op.owner, op.picks[q.line[0]]))), 0);
    }
  }

  lemma LineSurvives(t: Table, op: Op, s: string, q: Queue)
    requires !op.Trim? && LineStored(t.rows, s, q)
    ensures forall i :: 0 <= i < |q.line| ==> q.line[i] in Apply(t, op).rows
  {
  }

  lemma RecoverFits(t: Table, op: Op, s: string, q: Queue)
    requires op.Recover? && Legal(t, op) && q.Sound() && RowsFit(t.rows, s, q)
    requires q.line != [] && q.line[0] in op.ids && q.holder.Some?
    requires forall id :: id in op.ids && t.rows[id].subscriber == s ==>
      id == q.line[0] && t.rows[id].sequence == q.Front()
    ensures RowsFit(Apply(t, op).rows, s, q.After(Move.Release))
  {
    forall id | id in t.rows && t.rows[id].subscriber == s
      ensures Fits(id, Apply(t, op).rows[id], q.After(Move.Release))
    {
      assert Fits(id, t.rows[id], q);
    }
  }

  lemma RecoverElsewhere(t: Table, op: Op, s: string)
    requires op.Recover?
    requires forall id :: id in op.ids && id in t.rows ==> t.rows[id].subscriber != s
    ensures Untouched(t, Apply(t, op), s)
  {
  }

  lemma OnlyHeadsRecovered(t: Table, op: Op, s: string, q: Queue)
    requires op.Recover? && q.Sound() && RowsFit(t.rows, s, q) && Legal(t, op)
    ensures forall id :: id in op.ids && t.rows[id].subscriber == s ==>
      HeadIs(q, id) && q.holder.Some? && t.rows[id].sequence == q.Front()
  {
    forall id | id in op.ids && t.rows[id].subscriber == s
      ensures HeadIs(q, id) && t.rows[id].sequence == q.Front() && q.holder.Some?
    {
      InFlightIsHead(t.rows, s, q, id);
    }
  }

  lemma RecoverMoves(t: Table, op: Op, s: string, q: Queue)
    requires op.Recover? && Mirrors(t, s, q) && Legal(t, op)
    ensures q.Allows(MoveOf(t, op, s, q))
    ensures Mirrors(Apply(t, op), s, q.After(MoveOf(t, op, s, q)))
  {
    OnlyHeadsRecovered(t, op, s, q);
    if q.line == [] || q.line[0] !in op.ids {
      RecoverElsewhere(t, op, s);
      ElsewhereStays(t, op, s, q);
    } else {
      RecoverFits(t, op, s, q);
      OthersKeep(t, op);
      EndedAfter(t, op, s);
      LineSurvives(t, op, s, q);
      Reshaped(t, Apply(t, op), s, q, q.After(Move.Release), 0);
    }
  }

  lemma FinishFits(t: Table, op: Op, s: string, q: Queue)
    requires op.Finish? && Legal(t, op) && q.Sound() && RowsFit(t.rows, s, q)
    requires HeadIs(q, op.id) && t.rows[op.id].sequence == q.Front() && q.holder.Some?
    ensures RowsFit(Apply(t, op).rows, s, q.After(Pop))
  {
    forall id | id in t.rows && t.rows[id].subscriber == s
      ensures Fits(id, Apply(t, op).rows[id], q.After(Pop))
    {
      assert Fits(id, t.rows[id], q);
    }
  }

  lemma FinishMoves(t: Table, op: Op, s: string, q: Queue)
    requires op.Finish? && Mirrors(t, s, q) && Legal(t, op)
    ensures q.Allows(MoveOf(t, op, s, q))
    ensures Mirrors(Apply(t, op), s, q.After(MoveOf(t, op, s, q)))
  {
    if t.rows[op.id].subscriber != s {
      ElsewhereStays(t, op, s, q);
    } else {
      InFlightIsHead(t.rows, s, q, op.id);
      FinishFits(t, op, s, q);
      OthersKeep(t, op);
      EndedAfter(t, op, s);
      LineSurvives(t, op, s, q);
      Reshaped(t, Apply(t, op), s, q, q.After(Pop), 1);
    }
  }

  lemma RetryFits(t: Table, op: Op, s: string, q: Queue)
    requires op.Retry? && Legal(t, op) && q.Sound() && RowsFit(t.rows, s, q)
    requires HeadIs(q, op.id) && t.rows[op.id].sequence == q.Front() && q.holder.Some?
    ensures RowsFit(Apply(t, op).rows, s, q.After(PutBack(op.attempt)))
  {
    forall id | id in t.rows && t.rows[id].subscriber == s
      ensures Fits(id, Apply(t, op).rows[id], q.After(PutBack(op.attempt)))
    {
      assert Fits(id, t.rows[id], q);
    }
  }

  lemma RetryMoves(t: Table, op: Op, s: string, q: Queue)
    requires op.Retry? && Mirrors(t, s, q) && Legal(t, op)
    ensures q.Allows(MoveOf(t, op, s, q))
    ensures Mirrors(Apply(t, op), s, q.After(MoveOf(t, op, s, q)))
  {
    if t.rows[op.id].subscriber != s {
      ElsewhereStays(t, op, s, q);
    } else {
      InFlightIsHead(t.rows, s, q, op.id);
      RetryFits(t, op, s, q);
      OthersKeep(t, op);
      EndedAfter(t, op, s);
      LineSurvives(t, op, s, q);
      Reshaped(t, Apply(t, op), s, q, q.After(PutBack(op.attempt)), 0);
    }
  }

  lemma SuspendElsewhere(t: Table, op: Op, s: string)
    requires op.Suspend? && op.id in t.rows && t.rows[op.id].subscriber != s
    ensures Untouched(t, Apply(t, op), s)
  {
  }

  lemma SuspendFits(t: Table, op: Op, s: string, q: Queue)
    requires op.Suspend? && Legal(t, op) && q.Sound() && RowsFit(t.rows, s, q)
    requires t.rows[op.id].subscriber == s
    requires HeadIs(q, op.id) && t.rows[op.id].sequence == q.Front() && q.holder.Some?
    ensures RowsFit(Apply(t, op).rows, s, q.After(Close))
  {
    forall id | id in t.rows && t.rows[id].subscriber == s
      ensures Fits(id, Apply(t, op).rows[id], q.After(Close))
    {
      assert Fits(id, t.rows[id], q);
    }
  }

  lemma SuspendMoves(t: Table, op: Op, s: string, q: Queue)
    requires op.Suspend? && Mirrors(t, s, q) && Legal(t, op)
    ensures q.Allows(MoveOf(t, op, s, q))
    ensures Mirrors(Apply(t, op), s, q.After(MoveOf(t, op, s, q)))
  {
    if t.rows[op.id].subscriber != s {
      SuspendElsewhere(t, op, s);
      ElsewhereStays(t, op, s, q);
    } else {
      InFlightIsHead(t.rows, s, q, op.id);
      SuspendFits(t, op, s, q);
      OthersKeep(t, op);
      EndedAfter(t, op, s);
      LineSurvives(t, op, s, q);
      Reshaped(t, Apply(t, op), s, q, q.After(Close), 1);
    }
  }

  lemma ReopenFits(t: Table, op: Op, s: string, q: Queue)
    requires op.Reopen? && op.subscriber == s && q.Sound() && RowsFit(t.rows, s, q)
    ensures RowsFit(Apply(t, op).rows, s, q.After(Open))
  {
    forall id | id in t.rows && t.rows[id].subscriber == s
      ensures Fits(id, Apply(t, op).rows[id], q.After(Open))
    {
      assert Fits(id, t.rows[id], q);
    }
  }

  lemma ReopenMoves(t: Table, op: Op, s: string, q: Queue)
    requires op.Reopen? && Mirrors(t, s, q) && Legal(t, op)
    ensures q.Allows(MoveOf(t, op, s, q))
    ensures Mirrors(Apply(t, op), s, q.After(MoveOf(t, op, s, q)))
  {
    var t2 := Apply(t, op);
    if op.subscriber != s {
      assert Untouched(t, t2, s);
      ElsewhereStays(t, op, s, q);
    } else {
      ReopenFits(t, op, s, q);
      OthersKeep(t, op);
      EndedAfter(t, op, s);
      Reshaped(t, t2, s, q, q.After(Open), 0);
    }
  }

  // ---- Retention cuts the front ----

  /** A set that holds, with every id of a line, all ids before it is a prefix of the line. */
  lemma {:induction false} PrefixSet(line: seq<string>, d: set<string>)
    requires forall i, j :: 0 <= i < j < |line| ==> line[i] != line[j]
    requires forall id :: id in d ==> id in line
    requires forall i, j :: 0 <= i < j < |line| && line[j] in d ==> line[i] in d
    ensures |d| <= |line|
    ensures forall i :: 0 <= i < |line| ==> (line[i] in d <==> i < |d|)
  {
    if d != {} {
      var id :| id in d;
      assert line[0] in d;
      var rest, d2 := line[1..], d - {line[0]};
      forall x | x in d2 ensures x in rest {
        var i :| 0 <= i < |line| && line[i] == x;
        assert rest[i - 1] == x;
      }
      PrefixSet(rest, d2);
      forall i | 0 <= i < |line| ensures line[i] in d <==> i < |d| {
        if i > 0 {
          assert line[i] == rest[i - 1];
        }
      }
    }
  }

  /** What retention drops is a prefix of the line: age and rank both favour later sequences. */
  lemma DropsArePrefix(t: Table, s: string, q: Queue, limits: Limits, now: int)
    requires Mirrors(t, s, q)
    ensures var d := DropsOf(t.rows, s, limits, now);
      && |d| <= |q.line|
      && (forall i :: 0 <= i < |q.line| ==> (q.line[i] in d <==> i < |d|))
      && (d != {} ==> q.suspended)
  {
    var d := DropsOf(t.rows, s, limits, now);
    forall id | id in d
      ensures id in q.line && q.suspended
    {
      assert Fits(id, t.rows[id], q);
    }
    forall i, j | 0 <= i < j < |q.line| && q.line[j] in d
      ensures q.line[i] in d
    {
      var a, b := t.rows[q.line[i]], t.rows[q.line[j]];
      assert Fits(q.line[i], a, q);
      var newerA, newerB := Newer(t.rows, s, a.sequence, limits, now), Newer(t.rows, s, b.sequence, limits, now);
      assert newerB <= newerA;
      SubsetSize(newerB, newerA);
    }
    PrefixSet(q.line, d);
  }

  lemma SubsetSize<T>(a: set<T>, b: set<T>)
    requires a <= b
    ensures |a| <= |b|
  {
    assert b == a + (b - a);
  }

  lemma TrimFits(t: Table, op: Op, s: string, q: Queue, n: nat)
    requires op.Trim? && op.subscriber == s && q.Sound() && RowsFit(t.rows, s, q)
    requires q.suspended && n <= |q.line|
    requires forall i :: 0 <= i < n ==> q.line[i] in DropsOf(t.rows, s, op.limits, op.now)
    ensures RowsFit(Apply(t, op).rows, s, q.After(Cut(n)))
  {
    var rows2 := Apply(t, op).rows;
    forall id | id in rows2 && rows2[id].subscriber == s
      ensures Fits(id, rows2[id], q.After(Cut(n)))
    {
      assert Fits(id, t.rows[id], q);
    }
  }

  lemma TrimElsewhere(t: Table, op: Op, s: string)
    requires op.Trim? && (op.subscriber != s || DropsOf(t.rows, s, op.limits, op.now) == {})
    ensures Untouched(t, Apply(t, op), s)
  {
  }

  lemma TrimKeepsTail(t: Table, op: Op, s: string, q: Queue, n: nat)
    requires op.Trim? && LineStored(t.rows, s, q) && n <= |q.line|
    requires forall i :: n <= i < |q.line| ==> q.line[i] !in DropsOf(t.rows, s, op.limits, op.now)
    ensures forall i :: n <= i < |q.line| ==> q.line[i] in Apply(t, op).rows
  {
  }

  lemma TrimMoves(t: Table, op: Op, s: string, q: Queue)
    requires op.Trim? && Mirrors(t, s, q)
    ensures q.Allows(MoveOf(t, op, s, q))
    ensures Mirrors(Apply(t, op), s, q.After(MoveOf(t, op, s, q)))
  {
    DropsArePrefix(t, s, q, op.limits, op.now);
    var d := DropsOf(t.rows, s, op.limits, op.now);
    if op.subscriber != s || d == {} {
      TrimElsewhere(t, op, s);
      ElsewhereStays(t, op, s, q);
    } else {
      TrimFits(t, op, s, q, |d|);
      OthersKeep(t, op);
      EndedAfter(t, op, s);
      TrimKeepsTail(t, op, s, q, |d|);
      Reshaped(t, Apply(t, op), s, q, q.After(Cut(|d|)), |d|);
    }
  }

  /** One legal change of the tables is one allowed move of the queue of every subscriber. */
  lemma Simulates(t: Table, op: Op, s: string, q: Queue)
    requires Mirrors(t, s, q) && Legal(t, op)
    ensures q.Allows(MoveOf(t, op, s, q))
    ensures Mirrors(Apply(t, op), s, q.After(MoveOf(t, op, s, q)))
  {
    match op
    case Insert(d, now) =>
      if d.subscriber == s { InsertMoves(t, d, now, s, q); } else { ElsewhereStays(t, op, s, q); }
    case Trim(_, _, _) => TrimMoves(t, op, s, q);
    case Claim(_, _, _) => ClaimMoves(t, op, s, q);
    case Finish(_, _, _, _, _) => FinishMoves(t, op, s, q);
    case Retry(_, _, _, _, _, _) => RetryMoves(t, op, s, q);
    case Suspend(_, _, _, _) => SuspendMoves(t, op, s, q);
    case Reopen(_, _) => ReopenMoves(t, op, s, q);
    case Recover(_) => RecoverMoves(t, op, s, q);
  }
}
