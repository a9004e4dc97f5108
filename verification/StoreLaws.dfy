/** What the changes of a history mean for the rows, read off the tables before and after, and how
    long it holds: how a row ends, when it may be claimed again, and what it carries. */
module StoreLaws {
  import opened Deliveries
  import opened StoreSpec
  import opened StoreRuns
  import opened Claiming
  import opened Retention
  import opened Batches

  // ---- One change ----

  lemma StoredAt(h: seq<Op>, ts: seq<Table>, i: nat)
    requires Passes(h, ts) && i < |h| && h[i].Insert?
    ensures Enqueued(ts[i], ts[i + 1].rows, ts[i + 1].seqs, h[i].d, h[i].now) && ts[i + 1].subs == ts[i].subs
    ensures h[i].d.id !in ts[i].rows
  {
    assert Legal(ts[i], h[i]);
  }

  /** A claim takes only rows that are first in line and due, and touches no other. */
  lemma ClaimedAt(h: seq<Op>, ts: seq<Table>, i: nat, id: string)
    requires Passes(h, ts) && i < |h| && h[i].Claim? && (id in ts[i].rows || id in h[i].picks)
    ensures id in ts[i].rows && id in ts[i + 1].rows
    ensures if id in h[i].picks
      then FirstAndDue(ts[i].rows, ts[i].subs, id, h[i].now)
        && TakenBy(ts[i].rows[id], ts[i + 1].rows[id], h[i].owner, h[i].picks[id], h[i].now)
      else ts[i + 1].rows[id] == ts[i].rows[id]
  {
    assert Legal(ts[i], h[i]);
    FirstAndDueIsClaimable(ts[i], id, h[i].now);
  }

  lemma ReopenedAt(h: seq<Op>, ts: seq<Table>, i: nat, id: string)
    requires Passes(h, ts) && i < |h| && h[i].Reopen? && id in ts[i].rows
    ensures id in ts[i + 1].rows && PutBackInLine(ts[i].rows[id], ts[i + 1].rows[id], h[i].subscriber, h[i].now)
  {
    assert Legal(ts[i], h[i]);
    ReopenPutsBack(ts[i], h[i].subscriber, h[i].now);
  }

  /** A released row keeps its attempts and the time of its next one. */
  lemma RecoveredAt(h: seq<Op>, ts: seq<Table>, i: nat, id: string)
    requires Passes(h, ts) && i < |h| && h[i].Recover? && id in ts[i].rows
    ensures id in ts[i + 1].rows
    ensures var d := ts[i].rows[id];
      ts[i + 1].rows[id] == if id in h[i].ids
                            then d.(status := Pending, owner := "", generation := 0, claimedAt := Never) else d
  {
    assert Legal(ts[i], h[i]);
  }

  // ---- How a row ends ----

  /** From the change that ends it on, a row is stored with the status and the error it ended with:
      the ones of its mark, or dead-lettered when its subscriber was suspended over it. */
  lemma EndedAs(h: seq<Op>, ts: seq<Table>, i: nat, j: nat)
    requires Passes(h, ts) && i < j <= |h| && (h[i].Finish? || h[i].Suspend?)
    ensures var id := h[i].id;
      && id in ts[j].rows && ts[j].rows[id].lastError == h[i].error
      && ts[j].rows[id].status == (if h[i].Finish? then h[i].status else DeadLettered)
      && ts[j].rows[id].owner == "" && ts[j].rows[id].generation == 0 && ts[j].rows[id].claimedAt == Never
  {
    assert Legal(ts[i], h[i]);
    EndedIsFinal(h, ts, i + 1, j, h[i].id);
  }

  // ---- When it may be claimed again ----

  /** The row waits for its next attempt, as the retry has left it. */
  predicate WaitsFor(t: Table, op: Op, id: string) {
    op.Retry? && id in t.rows && t.rows[id].status == Pending
    && t.rows[id].nextAttempt == op.next && t.rows[id].attempt == op.attempt && t.rows[id].lastError == op.error
  }

  lemma RetryMakesWait(t: Table, op: Op)
    requires Legal(t, op) && op.Retry?
    ensures WaitsFor(Apply(t, op), op, op.id) && Apply(t, op).rows[op.id].subscriber == t.rows[op.id].subscriber
    ensures Apply(t, op).rows[op.id].sequence == t.rows[op.id].sequence
  {
  }

  /** As long as it is not claimed, a row that waits at the front of its line stays as it is. */
  lemma WaitKept(h: seq<Op>, t: Table, retry: Op, id: string, op: Op)
    requires Reached(h, t) && WaitsFor(t, retry, id) && Legal(t, op) && !(op.Claim? && id in op.picks)
    requires t.rows[id].sequence == Frontier(t, t.rows[id].subscriber)
    ensures WaitsFor(Apply(t, op), retry, id) && Apply(t, op).rows[id].subscriber == t.rows[id].subscriber
    ensures Apply(t, op).rows[id].sequence == t.rows[id].sequence
  {
    if op.Suspend? {
      InFlightAtFrontier(h, t, op.id);
      OneRowPerSequence(h, t, op.id, id);
    }
  }

  /** A waiting row is not behind the front. */
  lemma NotBehind(h: seq<Op>, t: Table, id: string)
    requires Reached(h, t) && id in t.rows && Waiting(t.rows[id])
    ensures Frontier(t, t.rows[id].subscriber) <= t.rows[id].sequence
  {
    Window(h, t, t.rows[id].subscriber);
    assert id in WaitingRows(t, t.rows[id].subscriber);
    assert t.rows[id].sequence in WaitingSequences(t, t.rows[id].subscriber);
  }

  lemma {:induction false} StillWaits(h: seq<Op>, ts: seq<Table>, i: nat, j: nat, id: string)
    requires Passes(h, ts) && i < j <= |h| && h[i].Retry? && h[i].id == id
    requires forall k :: i < k < j && h[k].Claim? ==> id !in h[k].picks
    ensures id in ts[i].rows && WaitsFor(ts[j], h[i], id)
    ensures ts[j].rows[id].subscriber == ts[i].rows[id].subscriber
    ensures ts[j].rows[id].sequence == ts[i].rows[id].sequence == Frontier(ts[j], ts[i].rows[id].subscriber)
    decreases j
  {
    assert Legal(ts[i], h[i]);
    var s := ts[i].rows[id].subscriber;
    if j == i + 1 {
      PrefixReached(h, ts, i);
      PrefixReached(h, ts, i + 1);
      InFlightAtFrontier(h[..i], ts[i], id);
      RetryMakesWait(ts[i], h[i]);
      FrontNeverFalls(h, ts, i, i + 1, s);
      NotBehind(h[..i + 1], ts[i + 1], id);
    } else {
      StillWaits(h, ts, i, j - 1, id);
      assert Legal(ts[j - 1], h[j - 1]);
      PrefixReached(h, ts, j - 1);
      PrefixReached(h, ts, j);
      WaitKept(h[..j - 1], ts[j - 1], h[i], id, h[j - 1]);
      FrontNeverFalls(h, ts, j - 1, j, s);
      NotBehind(h[..j], ts[j], id);
    }
  }

  /** Backoff: after a retry the row is claimed for the first time not before the time that the retry
      has set, and its attempts then go on from the retry's; whatever happens in between, be it
      recovery, suspension of others, resumption or retention. */
  lemma RetryWaits(h: seq<Op>, ts: seq<Table>, i: nat, j: nat, id: string)
    requires Passes(h, ts) && i < j < |h| && h[i].Retry? && h[i].id == id && h[j].Claim? && id in h[j].picks
    requires forall k :: i < k < j && h[k].Claim? ==> id !in h[k].picks
    ensures h[i].next.At? ==> h[i].next.ns <= h[j].now
    ensures id in ts[j + 1].rows && ts[j + 1].rows[id].attempt == h[i].attempt + 1
    ensures ts[j + 1].rows[id].claimedAt == At(h[j].now)
  {
    StillWaits(h, ts, i, j, id);
    ClaimedAt(h, ts, j, id);
  }

  // ---- What it carries ----

  /** From its insertion on, as long as it is stored, a row carries what was enqueued, under the
      sequence and the time that it got then. */
  lemma {:induction false} CarriesBody(h: seq<Op>, ts: seq<Table>, i: nat, j: nat)
    requires Passes(h, ts) && i < j <= |h| && h[i].Insert?
    requires forall k :: i < k <= j ==> h[i].d.id in ts[k].rows
    ensures var d, d2 := h[i].d, ts[j].rows[h[i].d.id];
      && d2.id == d.id && d2.subscriber == d.subscriber && d2.partition == d.partition && d2.body == d.body
      && d2.createdAt == h[i].now
      && d2.sequence == if d.subscriber in ts[i].seqs then ts[i].seqs[d.subscriber] + 1 else 1
    decreases j
  {
    if j == i + 1 {
      StoredAt(h, ts, i);
    } else {
      CarriesBody(h, ts, i, j - 1);
      assert Legal(ts[j - 1], h[j - 1]);
      CarriedOn(ts[j - 1], h[j - 1], h[i].d.id);
    }
  }

  lemma CarriedOn(t: Table, op: Op, id: string)
    requires Legal(t, op) && id in t.rows && id in Apply(t, op).rows
    ensures var d, d2 := t.rows[id], Apply(t, op).rows[id];
      && d2.id == d.id && d2.subscriber == d.subscriber && d2.partition == d.partition && d2.body == d.body
      && d2.createdAt == d.createdAt && d2.sequence == d.sequence
  {
  }
}
