/** What holds in every state that a store can reach, and between any two of its changes. */
module StoreRuns {
  import opened Deliveries
  import opened StoreSpec
  import opened Queues
  import opened Refinement

  /** The queue of `s` after the first `n` changes of a history. Its contract is the refinement
      theorem: all along every legal history the tables mirror the queue that made the
      corresponding moves. */
  ghost function QueueAfter(h: seq<Op>, ts: seq<Table>, n: nat, s: string): (q: Queue)
    requires Passes(h, ts) && n <= |h|
    ensures Mirrors(ts[n], s, q)
  {
    if n == 0 then
      NEW
    else
      var q := QueueAfter(h, ts, n - 1, s);
      assert Legal(ts[n - 1], h[n - 1]);
      Simulates(ts[n - 1], h[n - 1], s, q);
      q.After(MoveOf(ts[n - 1], h[n - 1], s, q))
  }

  /** A reached table mirrors a queue. */
  lemma ReachedMirrors(h: seq<Op>, t: Table, s: string) returns (q: Queue)
    requires Reached(h, t)
    ensures Mirrors(t, s, q)
  {
    var ts :| Passes(h, ts) && ts[|h|] == t;
    q := QueueAfter(h, ts, |h|, s);
  }

  // ---- The window ----

  function WaitingRows(t: Table, s: string): set<string> {
    set id | id in t.rows && t.rows[id].subscriber == s && Waiting(t.rows[id])
  }

  function WaitingSequences(t: Table, s: string): set<int> {
    set id | id in WaitingRows(t, s) :: t.rows[id].sequence
  }

  /** The sequence of the subscriber's first row that has not ended, read off the tables. */
  function Frontier(t: Table, s: string): int {
    t.Last(s) - |WaitingRows(t, s)| + 1
  }

  function StoredRows(t: Table, s: string): set<string> {
    set id | id in t.rows && t.rows[id].subscriber == s
  }

  function Ids(line: seq<string>): set<string> {
    set id | id in line
  }

  /** A line without repetitions has as many ids as places. */
  lemma {:induction false} LineSize(line: seq<string>)
    requires forall i, j :: 0 <= i < j < |line| ==> line[i] != line[j]
    ensures |Ids(line)| == |line|
  {
    if line != [] {
      var init, last := line[..|line| - 1], line[|line| - 1];
      LineSize(init);
      assert Ids(line) == Ids(init) + {last};
    }
  }

  /** The rows in line are the waiting rows, one for one. */
  lemma LineIsWaiting(t: Table, s: string, q: Queue)
    requires Mirrors(t, s, q)
    ensures Ids(q.line) == WaitingRows(t, s)
    ensures |WaitingRows(t, s)| == |q.line|
  {
    LineSize(q.line);
    forall id
      ensures id in WaitingRows(t, s) <==> id in Ids(q.line)
    {
      if id in WaitingRows(t, s) {
        assert Fits(id, t.rows[id], q);
      }
      if id in Ids(q.line) {
        assert Fits(id, t.rows[id], q);
      }
    }
  }

  lemma FrontIsFrontier(t: Table, s: string, q: Queue)
    requires Mirrors(t, s, q)
    ensures q.Front() == Frontier(t, s)
  {
    LineIsWaiting(t, s, q);
  }

  /** The sequences of a subscriber's unfinished and retained rows are exactly an interval that
      ends at its counter; sequences are unique; only the lowest row may be in flight, and only
      it may have been tried; every ended row lies below. */
  lemma Window(h: seq<Op>, t: Table, s: string)
    requires Reached(h, t)
    ensures forall n :: n in WaitingSequences(t, s) <==> Frontier(t, s) <= n <= t.Last(s)
    ensures Distinct(t.rows, s)
    ensures forall id :: id in StoredRows(t, s) ==> PlacedByWindow(t.rows[id], Frontier(t, s))
  {
    var q := ReachedMirrors(h, t, s);
    FrontIsFrontier(t, s, q);
    SequencesAreInterval(t, s, q);
    forall id | id in StoredRows(t, s)
      ensures PlacedByWindow(t.rows[id], q.Front())
    {
      RowInWindow(t, s, q, id);
    }
  }

  lemma SequencesAreInterval(t: Table, s: string, q: Queue)
    requires q.Sound() && t.Last(s) == q.issued && LineStored(t.rows, s, q) && RowsFit(t.rows, s, q)
    ensures forall n :: n in WaitingSequences(t, s) <==> q.Front() <= n <= t.Last(s)
  {
    forall n: int | q.Front() <= n <= t.Last(s)
      ensures n in WaitingSequences(t, s)
    {
      var id := q.line[n - q.Front()];
      assert Fits(id, t.rows[id], q);
      assert id in WaitingRows(t, s);
    }
    forall n | n in WaitingSequences(t, s)
      ensures q.Front() <= n <= t.Last(s)
    {
      var id :| id in WaitingRows(t, s) && t.rows[id].sequence == n;
      assert Fits(id, t.rows[id], q);
    }
  }

  /** How a row lies in a window that starts at sequence `front`. */
  predicate PlacedByWindow(d: Delivery, front: int) {
    && (d.status == InFlight ==> d.sequence == front)
    && (Waiting(d) && d.sequence > front ==> d.attempt == 0)
    && (!Waiting(d) ==> d.sequence < front)
  }

  lemma RowInWindow(t: Table, s: string, q: Queue, id: string)
    requires q.Sound() && RowsFit(t.rows, s, q) && id in StoredRows(t, s)
    ensures PlacedByWindow(t.rows[id], q.Front())
  {
    assert Fits(id, t.rows[id], q);
  }

  /** A suspended subscriber has nothing pending or in flight, and every retained row still has
      its whole retry budget; a running one has nothing retained. */
  lemma Modes(h: seq<Op>, t: Table, s: string, id: string)
    requires Reached(h, t) && id in StoredRows(t, s)
    ensures var d := t.rows[id];
      if t.MetaOf(s).suspended
      then !Unfinished(d) && (d.status == Retained ==> d.attempt == 0)
      else d.status != Retained
  {
    var q := ReachedMirrors(h, t, s);
    assert Fits(id, t.rows[id], q);
  }

  /** A running subscriber, whether it has rows or not, has no gap on record. */
  lemma NoGapWhileRunning(h: seq<Op>, t: Table, s: string)
    requires Reached(h, t) && !t.MetaOf(s).suspended
    ensures t.MetaOf(s) == RUNNING
  {
    var q := ReachedMirrors(h, t, s);
  }

  /** Only a reopening ends a suspension. */
  lemma {:induction false} SuspendedUntilReopened(h: seq<Op>, ts: seq<Table>, i: nat, j: nat, s: string)
    requires Passes(h, ts) && i <= j <= |h| && ts[i].MetaOf(s).suspended
    requires forall k :: i <= k < j && h[k].Reopen? ==> h[k].subscriber != s
    ensures ts[j].MetaOf(s).suspended
    decreases j
  {
    if i < j {
      SuspendedUntilReopened(h, ts, i, j - 1, s);
      assert Legal(ts[j - 1], h[j - 1]);
    }
  }

  /** From a suspension to the next reopening none of the subscriber's rows is pending or in flight. */
  lemma NothingWhileSuspended(h: seq<Op>, ts: seq<Table>, i: nat, j: nat, s: string, id: string)
    requires Passes(h, ts) && i < j <= |h| && h[i].Suspend?
    requires h[i].id in ts[i].rows && ts[i].rows[h[i].id].subscriber == s
    requires forall k :: i < k < j && h[k].Reopen? ==> h[k].subscriber != s
    ensures ts[j].MetaOf(s).suspended
    ensures id in StoredRows(ts[j], s) ==> !Unfinished(ts[j].rows[id])
  {
    assert Legal(ts[i], h[i]);
    SuspendedUntilReopened(h, ts, i + 1, j, s);
    if id in StoredRows(ts[j], s) {
      var q := QueueAfter(h, ts, j, s);
      assert Fits(id, ts[j].rows[id], q);
    }
  }

  // ---- Order over a whole run ----

  /** One change moves the frontier past a row that it ends or drops, and never back. */
  lemma FrontierStep(t: Table, op: Op, s: string, q: Queue)
    requires Mirrors(t, s, q) && Legal(t, op)
    ensures Frontier(t, s) <= Frontier(Apply(t, op), s)
    ensures (op.Finish? || op.Suspend?) && t.rows[op.id].subscriber == s ==>
      Frontier(t, s) == t.rows[op.id].sequence && Frontier(Apply(t, op), s) == Frontier(t, s) + 1
  {
    var m := MoveOf(t, op, s, q);
    Simulates(t, op, s, q);
    MoveKeepsSound(q, m);
    FrontIsFrontier(t, s, q);
    FrontIsFrontier(Apply(t, op), s, q.After(m));
    if (op.Finish? || op.Suspend?) && t.rows[op.id].subscriber == s {
      InFlightIsHead(t.rows, s, q, op.id);
    }
  }

  /** What is in flight is at the frontier, and alone there. */
  lemma InFlightAtFrontier(h: seq<Op>, t: Table, a: string)
    requires Reached(h, t) && a in t.rows && t.rows[a].status == InFlight
    ensures t.rows[a].sequence == Frontier(t, t.rows[a].subscriber)
    ensures forall b ::
      b in t.rows && t.rows[b].status == InFlight && t.rows[b].subscriber == t.rows[a].subscriber ==> a == b
  {
    var s := t.rows[a].subscriber;
    var q := ReachedMirrors(h, t, s);
    FrontIsFrontier(t, s, q);
    InFlightIsHead(t.rows, s, q, a);
    forall b | b in t.rows && t.rows[b].status == InFlight && t.rows[b].subscriber == s
      ensures a == b
    {
      InFlightIsHead(t.rows, s, q, b);
    }
  }

  lemma OneRowPerSequence(h: seq<Op>, t: Table, a: string, b: string)
    requires Reached(h, t) && a in t.rows && b in t.rows
    ensures t.rows[a].subscriber == t.rows[b].subscriber && t.rows[a].sequence == t.rows[b].sequence ==> a == b
  {
    var q := ReachedMirrors(h, t, t.rows[a].subscriber);
  }

  lemma SequenceIssued(h: seq<Op>, t: Table, id: string)
    requires Reached(h, t) && id in t.rows
    ensures t.rows[id].sequence <= t.Last(t.rows[id].subscriber)
  {
    var q := ReachedMirrors(h, t, t.rows[id].subscriber);
    assert Fits(id, t.rows[id], q);
  }

  lemma FrontierStepAt(h: seq<Op>, ts: seq<Table>, n: nat, s: string)
    requires Passes(h, ts) && n < |h|
    ensures Frontier(ts[n], s) <= Frontier(ts[n + 1], s)
  {
    var q := QueueAfter(h, ts, n, s);
    assert Legal(ts[n], h[n]);
    FrontierStep(ts[n], h[n], s, q);
  }

  /** The frontier never moves back, whatever happens in between: retries, recoveries, forced
      takeovers, suspensions, drops and reopenings included. */
  lemma {:induction false} FrontNeverFalls(h: seq<Op>, ts: seq<Table>, i: nat, j: nat, s: string)
    requires Passes(h, ts) && i <= j <= |h|
    ensures Frontier(ts[i], s) <= Frontier(ts[j], s)
    decreases j
  {
    if i < j {
      FrontNeverFalls(h, ts, i, j - 1, s);
      FrontierStepAt(h, ts, j - 1, s);
    }
  }

  /** Change `i` of the history hands row `id` to a worker. */
  ghost predicate Claims(h: seq<Op>, ts: seq<Table>, i: nat, id: string) {
    i < |h| && i < |ts| && h[i].Claim? && id in h[i].picks && id in ts[i].rows
  }

  /** Change `i` of the history ends row `id`. */
  ghost predicate Ends(h: seq<Op>, ts: seq<Table>, i: nat, id: string) {
    i < |h| && i < |ts| && (h[i].Finish? || h[i].Suspend?) && h[i].id == id && id in ts[i].rows
  }

  /** Claims and completions happen at the front, and a completion moves the front past its row. */
  lemma AtFront(h: seq<Op>, ts: seq<Table>, i: nat, id: string)
    requires Passes(h, ts) && (Claims(h, ts, i, id) || Ends(h, ts, i, id))
    ensures var d := ts[i].rows[id];
      && Frontier(ts[i], d.subscriber) == d.sequence
      && (Ends(h, ts, i, id) ==> Frontier(ts[i + 1], d.subscriber) == d.sequence + 1)
  {
    var s := ts[i].rows[id].subscriber;
    var q := QueueAfter(h, ts, i, s);
    assert Legal(ts[i], h[i]);
    FrontIsFrontier(ts[i], s, q);
    FrontierStep(ts[i], h[i], s, q);
    if h[i].Claim? {
      ClaimableIsHead(ts[i], s, q, id, h[i].now);
    }
  }

  /** Durable order: over any run the claims of a subscriber never go back in sequence, its
      completions strictly increase, and nothing is claimed at or below a completed sequence. */
  lemma DurableOrder(h: seq<Op>, ts: seq<Table>, i: nat, a: string, j: nat, b: string)
    requires Passes(h, ts) && i < j
    requires (Claims(h, ts, i, a) || Ends(h, ts, i, a)) && (Claims(h, ts, j, b) || Ends(h, ts, j, b))
    requires ts[i].rows[a].subscriber == ts[j].rows[b].subscriber
    ensures var x, y := ts[i].rows[a].sequence, ts[j].rows[b].sequence;
      if Ends(h, ts, i, a) then x < y else x <= y
  {
    var s := ts[i].rows[a].subscriber;
    AtFront(h, ts, i, a);
    AtFront(h, ts, j, b);
    FrontNeverFalls(h, ts, i, j, s);
    FrontNeverFalls(h, ts, i + 1, j, s);
  }

  lemma EndedStays(t: Table, op: Op, id: string)
    requires Legal(t, op) && id in t.rows && !Waiting(t.rows[id])
    ensures id in Apply(t, op).rows && Apply(t, op).rows[id] == t.rows[id]
  {
  }

  /** A row that has been delivered or dead-lettered stays exactly as it is. */
  lemma {:induction false} EndedIsFinal(h: seq<Op>, ts: seq<Table>, i: nat, j: nat, id: string)
    requires Passes(h, ts) && i <= j <= |h| && id in ts[i].rows && !Waiting(ts[i].rows[id])
    ensures id in ts[j].rows && ts[j].rows[id] == ts[i].rows[id]
    decreases j
  {
    if i < j {
      EndedIsFinal(h, ts, i, j - 1, id);
      assert Legal(ts[j - 1], h[j - 1]);
      EndedStays(ts[j - 1], h[j - 1], id);
    }
  }

  // ---- Conservation ----

  /** What the reopenings of `s` among the first `n` changes reported as dropped, added up. */
  ghost function Reported(h: seq<Op>, ts: seq<Table>, n: nat, s: string): nat
    requires n <= |h| && |ts| == |h| + 1
  {
    if n == 0 then 0 else
    Reported(h, ts, n - 1, s) + if h[n - 1].Reopen? && h[n - 1].subscriber == s then ts[n - 1].MetaOf(s).dropped else 0
  }

  /** Sequences handed out that are neither stored nor counted as dropped. */
  function Unaccounted(t: Table, s: string): int {
    t.Last(s) - |StoredRows(t, s)| - t.MetaOf(s).dropped
  }

  lemma UnaccountedIsReported(t: Table, s: string, q: Queue)
    requires Mirrors(t, s, q)
    ensures Unaccounted(t, s) == q.reported
  {
    LineIsWaiting(t, s, q);
    assert StoredRows(t, s) == Ended(t.rows, s) + WaitingRows(t, s);
  }

  /** Only a reopening takes drops off the record, by reporting them. */
  lemma ReportStep(t: Table, op: Op, s: string, q: Queue)
    requires Mirrors(t, s, q) && Legal(t, op)
    ensures Unaccounted(Apply(t, op), s) ==
      Unaccounted(t, s) + if op.Reopen? && op.subscriber == s then t.MetaOf(s).dropped else 0
  {
    Simulates(t, op, s, q);
    UnaccountedIsReported(t, s, q);
    UnaccountedIsReported(Apply(t, op), s, q.After(MoveOf(t, op, s, q)));
  }

  lemma UnaccountedStep(h: seq<Op>, ts: seq<Table>, n: nat, s: string)
    requires Passes(h, ts) && n < |h|
    ensures Unaccounted(ts[n + 1], s) ==
      Unaccounted(ts[n], s) + if h[n].Reopen? && h[n].subscriber == s then ts[n].MetaOf(s).dropped else 0
  {
    var q := QueueAfter(h, ts, n, s);
    assert Legal(ts[n], h[n]);
    ReportStep(ts[n], h[n], s, q);
  }

  /** Every sequence ever handed out is a stored row, or was dropped since the last reopening,
      or was counted in the drops that an earlier reopening reported. */
  lemma {:induction false} Conservation(h: seq<Op>, ts: seq<Table>, n: nat, s: string)
    requires Passes(h, ts) && n <= |h|
    ensures ts[n].Last(s) == |StoredRows(ts[n], s)| + ts[n].MetaOf(s).dropped + Reported(h, ts, n, s)
  {
    if n == 0 {
      assert StoredRows(EMPTY, s) == {};
    } else {
      Conservation(h, ts, n - 1, s);
      UnaccountedStep(h, ts, n - 1, s);
    }
  }

  // ---- Retention ----

  function RetainedRows(t: Table, s: string): set<string> {
    set id | id in t.rows && t.rows[id].subscriber == s && t.rows[id].status == Retained
  }

  function Young(t: Table, s: string, limits: Limits, now: int): set<string> {
    set id | id in RetainedRows(t, s) && !Aged(t.rows[id], limits, now)
  }

  /** Retention keeps the newest: of the retained rows within the age bound exactly the
      `min(maxCount, n)` highest sequences survive, they are a suffix of the retained rows, and
      the drop count rises by exactly the number removed. */
  lemma TrimKeepsNewest(h: seq<Op>, t: Table, s: string, limits: Limits, now: int)
    requires Reached(h, t)
    ensures var kept := RetainedRows(Trimmed(t, s, limits, now), s);
      && kept <= Young(t, s, limits, now)
      && |kept| ==
         (if |Young(t, s, limits, now)| < limits.maxCount then |Young(t, s, limits, now)| else limits.maxCount)
      && (forall a, b :: a in kept && b in RetainedRows(t, s) - kept ==> t.rows[b].sequence < t.rows[a].sequence)
      && Trimmed(t, s, limits, now).MetaOf(s).dropped == t.MetaOf(s).dropped + |RetainedRows(t, s)| - |kept|
  {
    var q := ReachedMirrors(h, t, s);
    TrimmedRetained(t, s, limits, now);
    KeptAboveDropped(t, s, q, limits, now);
    KeptSize(t, s, q, limits, now);
  }

  lemma SomeLeftOut<T>(a: set<T>, b: set<T>) returns (x: T)
    requires a <= b && a != b
    ensures x in b && x !in a
  {
    assert b - a != {} by {
      assert b == a + (b - a);
    }
    x :| x in b - a;
  }

  lemma KeptSize(t: Table, s: string, q: Queue, limits: Limits, now: int)
    requires Mirrors(t, s, q)
    ensures |RetainedRows(t, s) - DropsOf(t.rows, s, limits, now)| ==
      if |Young(t, s, limits, now)| < limits.maxCount then |Young(t, s, limits, now)| else limits.maxCount
  {
    var kept := RetainedRows(t, s) - DropsOf(t.rows, s, limits, now);
    TrimmedRetained(t, s, limits, now);
    if kept != {} {
      KeptWithinBound(t, s, q, limits, now, kept);
    }
    if kept != Young(t, s, limits, now) {
      SubsetSize(kept, Young(t, s, limits, now));
      var some := SomeLeftOut(kept, Young(t, s, limits, now));
      NewerAreKept(t, s, q, limits, now, some);
    }
  }

  lemma KeptAboveDropped(t: Table, s: string, q: Queue, limits: Limits, now: int)
    requires Mirrors(t, s, q)
    ensures var drops := DropsOf(t.rows, s, limits, now);
      forall a, b :: a in RetainedRows(t, s) - drops && b in drops ==> t.rows[b].sequence < t.rows[a].sequence
  {
    DropsArePrefix(t, s, q, limits, now);
    var drops := DropsOf(t.rows, s, limits, now);
    forall a, b | a in RetainedRows(t, s) - drops && b in drops
      ensures t.rows[b].sequence < t.rows[a].sequence
    {
      assert Fits(a, t.rows[a], q) && Fits(b, t.rows[b], q);
    }
  }

  lemma TrimmedRetained(t: Table, s: string, limits: Limits, now: int)
    ensures RetainedRows(Trimmed(t, s, limits, now), s) == RetainedRows(t, s) - DropsOf(t.rows, s, limits, now)
    ensures DropsOf(t.rows, s, limits, now) <= RetainedRows(t, s)
    ensures RetainedRows(t, s) - DropsOf(t.rows, s, limits, now) <= Young(t, s, limits, now)
    ensures Trimmed(t, s, limits, now).MetaOf(s).dropped == t.MetaOf(s).dropped + |DropsOf(t.rows, s, limits, now)|
  {
  }

  /** The lowest survivor has every other survivor above it, so there are at most `maxCount`. */
  lemma KeptWithinBound(t: Table, s: string, q: Queue, limits: Limits, now: int, kept: set<string>)
    requires Mirrors(t, s, q) && kept == RetainedRows(t, s) - DropsOf(t.rows, s, limits, now) && kept != {}
    ensures |kept| <= limits.maxCount
  {
    DropsArePrefix(t, s, q, limits, now);
    var k := |DropsOf(t.rows, s, limits, now)|;
    var some :| some in kept;
    assert Fits(some, t.rows[some], q);
    var low := q.line[k];
    assert Fits(low, t.rows[low], q);
    forall id | id in kept
      ensures id == low || id in Newer(t.rows, s, t.rows[low].sequence, limits, now)
    {
      assert Fits(id, t.rows[id], q);
    }
    var newer := Newer(t.rows, s, t.rows[low].sequence, limits, now);
    assert kept - {low} <= newer;
    SubsetSize(kept - {low}, newer);
  }

  /** If a young row was dropped, the rows above the highest dropped row are survivors. */
  lemma NewerAreKept(t: Table, s: string, q: Queue, limits: Limits, now: int, some: string)
    requires Mirrors(t, s, q) && some in Young(t, s, limits, now) && some in DropsOf(t.rows, s, limits, now)
    ensures |RetainedRows(t, s) - DropsOf(t.rows, s, limits, now)| >= limits.maxCount
  {
    DropsArePrefix(t, s, q, limits, now);
    var drops := DropsOf(t.rows, s, limits, now);
    assert Fits(some, t.rows[some], q);
    var high := q.line[|drops| - 1];
    assert Fits(high, t.rows[high], q);
    assert t.rows[some].createdAt <= t.rows[high].createdAt;
    var newer := Newer(t.rows, s, t.rows[high].sequence, limits, now);
    forall id | id in newer
      ensures id in RetainedRows(t, s) - drops
    {
      assert Fits(id, t.rows[id], q);
    }
    SubsetSize(newer, RetainedRows(t, s) - drops);
  }
}
