/** The in-memory claim: head map, candidate scan, sort and claim loop, and why together they
    take exactly the first eligible rows (store/memory/memory.go). */
module Claiming {
  import opened Deliveries
  import opened StoreSpec
  import opened Refinement
  import opened StoreRuns
  import opened Sorting
  import opened Retention

  /** A row that a claim over `parts` may take. */
  ghost predicate Eligible(t: Table, id: string, parts: set<int>, now: int) {
    Claimable(t, id, now) && t.rows[id].partition in parts
  }

  ghost function EligibleIds(t: Table, parts: set<int>, now: int): set<string> {
    set id | id in t.rows && Eligible(t, id, parts, now)
  }

  /** The claim is exact: it returns, stamped and in subscriber order, the first
      `min(limit, n)` of the `n` eligible rows, at most one of any subscriber. */
  ghost predicate ExactClaim(t: Table, out: seq<Delivery>, parts: set<int>, limit: int,
                             owner: string, generation: nat, now: int) {
    var eligible := EligibleIds(t, parts, now);
    && |out| == (if |eligible| < limit then |eligible| else limit)
    && (forall d :: d in out ==> d.id in eligible && d == Claimed(t.rows[d.id], owner, generation, now))
    && (forall i, j :: 0 <= i < j < |out| ==> Before(out[i].subscriber, out[j].subscriber))
    && (forall id, d :: id in eligible && id !in IdSet(out) && d in out ==> Before(d.subscriber, t.rows[id].subscriber))
  }

  function IdSet(ds: seq<Delivery>): set<string> {
    set d | d in ds :: d.id
  }

  // ---- The head map ----

  /** `head` gives the lowest unfinished sequence of every subscriber that has one. */
  ghost predicate Heads(rows: map<string, Delivery>, todo: set<string>, head: map<string, int>) {
    && (forall id :: id in rows && id !in todo && Unfinished(rows[id]) ==>
          rows[id].subscriber in head && head[rows[id].subscriber] <= rows[id].sequence)
    && (forall s :: s in head ==>
          exists id :: id in rows && id !in todo && Unfinished(rows[id]) && rows[id].subscriber == s
            && rows[id].sequence == head[s])
  }

  method FindHeads(rows: map<string, Delivery>) returns (head: map<string, int>)
    ensures Heads(rows, {}, head)
  {
    head := map[];
    var todo := rows.Keys;
    while todo != {}
      invariant todo <= rows.Keys && Heads(rows, todo, head)
      decreases todo
    {
      var id :| id in todo;
      var d := rows[id];
      HeadsOneMore(rows, todo, head, id);
      todo := todo - {id};
      if Unfinished(d) && (d.subscriber !in head || d.sequence < head[d.subscriber]) {
        head := head[d.subscriber := d.sequence];
      }
    }
  }

  lemma HeadsOneMore(rows: map<string, Delivery>, todo: set<string>, head: map<string, int>, id: string)
    requires Heads(rows, todo, head) && id in todo && id in rows
    ensures var d := rows[id];
      if Unfinished(d) && (d.subscriber !in head || d.sequence < head[d.subscriber])
      then Heads(rows, todo - {id}, head[d.subscriber := d.sequence])
      else Heads(rows, todo - {id}, head)
  {
  }

  /** Being at the head in the map is having no earlier pending or in-flight row, the form that
      the SQL store uses. */
  lemma HeadMapIsHeadOfLine(rows: map<string, Delivery>, head: map<string, int>, id: string)
    requires Heads(rows, {}, head) && id in rows && Unfinished(rows[id])
    ensures rows[id].subscriber in head
    ensures head[rows[id].subscriber] == rows[id].sequence <==> HeadOfLine(rows, id)
  {
  }

  // ---- The candidate scan ----

  /** `cs` lists, without repetition, the eligible rows that are not left to do. */
  ghost predicate Scanned(cs: seq<Candidate>, t: Table, todo: set<string>, parts: set<int>, now: int) {
    && NoRepeats(cs)
    && (forall c :: c in cs ==>
          c.id in t.rows && c.id !in todo && Eligible(t, c.id, parts, now) && c == CandidateOf(c.id, t.rows[c.id]))
    && (forall id :: id in t.rows && id !in todo && Eligible(t, id, parts, now) ==> CandidateOf(id, t.rows[id]) in cs)
  }

  lemma ScannedOneMore(cs: seq<Candidate>, t: Table, todo: set<string>, parts: set<int>, now: int, id: string)
    requires Scanned(cs, t, todo, parts, now) && id in todo && id in t.rows
    ensures if Eligible(t, id, parts, now)
            then Scanned(cs + [CandidateOf(id, t.rows[id])], t, todo - {id}, parts, now)
            else Scanned(cs, t, todo - {id}, parts, now)
  {
  }

  method FindCandidates(t: Table, head: map<string, int>, parts: set<int>, now: int) returns (cs: seq<Candidate>)
    requires Heads(t.rows, {}, head)
    ensures Scanned(cs, t, {}, parts, now)
  {
    cs := [];
    var todo := t.rows.Keys;
    while todo != {}
      invariant todo <= t.rows.Keys && Scanned(cs, t, todo, parts, now)
      decreases todo
    {
      var id :| id in todo;
      ScannedOneMore(cs, t, todo, parts, now, id);
      todo := todo - {id};
      var d := t.rows[id];
      if d.status != Pending { continue; }
      HeadMapIsHeadOfLine(t.rows, head, id);
      if t.MetaOf(d.subscriber).suspended { continue; }
      if !Due(d, now) { continue; }
      if d.partition !in parts { continue; }
      if head[d.subscriber] != d.sequence { continue; }
      cs := cs + [CandidateOf(id, d)];
    }
  }

  // ---- The sorted candidates ----

  /** The order of claim candidates: by subscriber, then by sequence. */
  predicate CandidateLess(a: Candidate, b: Candidate) {
    if a.subscriber != b.subscriber then Before(a.subscriber, b.subscriber) else a.sequence < b.sequence
  }

  lemma CandidateOrder()
    ensures StrictWeak(CandidateLess)
  {
    forall a: Candidate, b: Candidate | CandidateLess(a, b)
      ensures !CandidateLess(b, a)
    {
      BeforeOrder(a.subscriber, b.subscriber, "");
    }
    forall a: Candidate, b: Candidate, c: Candidate
      ensures Carries(CandidateLess, a, b, c)
    {
      BeforeOrder(a.subscriber, b.subscriber, c.subscriber);
      BeforeOrder(b.subscriber, c.subscriber, a.subscriber);
      BeforeOrder(a.subscriber, c.subscriber, b.subscriber);
    }
  }

  /** Two claimable rows of one subscriber are the same row, so no candidate is ever skipped
      because its subscriber has been served. */
  lemma OneClaimablePerSubscriber(h: seq<Op>, t: Table, a: string, b: string, now: int)
    requires Reached(h, t) && Claimable(t, a, now) && Claimable(t, b, now)
    requires t.rows[a].subscriber == t.rows[b].subscriber
    ensures a == b
  {
    var s := t.rows[a].subscriber;
    var q := ReachedMirrors(h, t, s);
    ClaimableIsHead(t, s, q, a, now);
    ClaimableIsHead(t, s, q, b, now);
  }

  /** The candidates in claim order: all eligible rows, by strictly increasing subscriber. */
  ghost predicate Ranked(sorted: seq<Candidate>, t: Table, parts: set<int>, now: int) {
    && Scanned(sorted, t, {}, parts, now)
    && forall i, j :: 0 <= i < j < |sorted| ==> Before(sorted[i].subscriber, sorted[j].subscriber)
  }

  lemma SortingRanks(h: seq<Op>, cs: seq<Candidate>, sorted: seq<Candidate>, t: Table, parts: set<int>, now: int)
    requires Reached(h, t) && Scanned(cs, t, {}, parts, now)
    requires Sorted(sorted, CandidateLess) && NoRepeats(sorted) && forall c :: c in sorted <==> c in cs
    ensures Ranked(sorted, t, parts, now)
  {
    CandidateOrder();
    forall i, j | 0 <= i < j < |sorted|
      ensures Before(sorted[i].subscriber, sorted[j].subscriber)
    {
      SortedApart(sorted, CandidateLess, i, j);
      var a, b := sorted[i], sorted[j];
      assert a in cs && b in cs;
      if a.subscriber == b.subscriber {
        OneClaimablePerSubscriber(h, t, a.id, b.id, now);
      }
      BeforeOrder(a.subscriber, b.subscriber, "");
    }
  }

  // ---- The claim loop ----

  function ClaimRows(rows: map<string, Delivery>, ids: set<string>, owner: string, generation: nat,
                     now: int): map<string, Delivery> {
    map id | id in rows :: if id in ids then Claimed(rows[id], owner, generation, now) else rows[id]
  }

  /** After `n` steps of the loop: the first `n` candidates are claimed and returned. */
  ghost predicate Taken(rows: map<string, Delivery>, out: seq<Delivery>, t: Table, sorted: seq<Candidate>, n: nat,
                        owner: string, generation: nat, now: int) {
    && n <= |sorted| && |out| == n
    && rows == ClaimRows(t.rows, CandidateIds(sorted[..n]), owner, generation, now)
    && forall i :: 0 <= i < n ==>
      sorted[i].id in t.rows && out[i] == Claimed(t.rows[sorted[i].id], owner, generation, now)
  }

  lemma NothingTaken(t: Table, sorted: seq<Candidate>, owner: string, generation: nat, now: int)
    ensures Taken(t.rows, [], t, sorted, 0, owner, generation, now)
  {
  }

  lemma TakenOneMore(rows: map<string, Delivery>, out: seq<Delivery>, t: Table, sorted: seq<Candidate>, n: nat,
                     owner: string, generation: nat, now: int, parts: set<int>)
    requires Ranked(sorted, t, parts, now) && Taken(rows, out, t, sorted, n, owner, generation, now) && n < |sorted|
    ensures sorted[n].id in rows && rows[sorted[n].id] == t.rows[sorted[n].id]
    ensures var d := Claimed(rows[sorted[n].id], owner, generation, now);
      Taken(rows[sorted[n].id := d], out + [d], t, sorted, n + 1, owner, generation, now)
  {
    var id := sorted[n].id;
    assert sorted[n] in sorted;
    NotTakenBefore(sorted, t, parts, now, n);
    IdsOneMore(sorted, n, {});
    assert {} + CandidateIds(sorted[..n]) == CandidateIds(sorted[..n]);
    assert {} + CandidateIds(sorted[..n + 1]) == CandidateIds(sorted[..n + 1]);
    var d := Claimed(rows[id], owner, generation, now);
    assert rows[id := d] == ClaimRows(t.rows, CandidateIds(sorted[..n + 1]), owner, generation, now);
  }

  lemma NotTakenBefore(sorted: seq<Candidate>, t: Table, parts: set<int>, now: int, n: nat)
    requires Ranked(sorted, t, parts, now) && n < |sorted|
    ensures sorted[n].id !in CandidateIds(sorted[..n])
  {
  }

  function Subscribers(cs: seq<Candidate>, n: nat): set<string>
    requires n <= |cs|
  {
    if n == 0 then {} else Subscribers(cs, n - 1) + {cs[n - 1].subscriber}
  }

  /** No earlier candidate is of the same subscriber. */
  lemma {:induction false} NotServed(sorted: seq<Candidate>, t: Table, parts: set<int>, now: int, m: nat, n: nat)
    requires Ranked(sorted, t, parts, now) && m <= n < |sorted|
    ensures sorted[n].subscriber !in Subscribers(sorted, m)
  {
    if m > 0 {
      NotServed(sorted, t, parts, now, m - 1, n);
      BeforeOrder(sorted[m - 1].subscriber, sorted[n].subscriber, "");
    }
  }

  lemma CandidateAtHead(sorted: seq<Candidate>, t: Table, parts: set<int>, now: int, n: nat, head: map<string, int>)
    requires Ranked(sorted, t, parts, now) && n < |sorted| && Heads(t.rows, {}, head)
    ensures sorted[n].id in t.rows
    ensures var d := t.rows[sorted[n].id]; d.subscriber in head && head[d.subscriber] == d.sequence
  {
  }

  function PartitionSet(partitions: seq<int>): set<int> {
    set p | p in partitions
  }

  function Stamps(out: seq<Delivery>, generation: nat): map<string, nat> {
    map id | id in IdSet(out) :: generation
  }

  /** The eligible rows, one candidate each. */
  lemma EligibleCount(sorted: seq<Candidate>, t: Table, parts: set<int>, now: int)
    requires Ranked(sorted, t, parts, now)
    ensures CandidateIds(sorted) == EligibleIds(t, parts, now) && |EligibleIds(t, parts, now)| == |sorted|
  {
    forall id | id in EligibleIds(t, parts, now)
      ensures id in CandidateIds(sorted)
    {
      assert CandidateOf(id, t.rows[id]) in sorted;
    }
    forall i, j | 0 <= i < j < |sorted|
      ensures sorted[i].id != sorted[j].id
    {
      NotTakenBefore(sorted, t, parts, now, j);
      assert sorted[i] in sorted[..j];
    }
    CandidateCount(sorted);
  }

  lemma TakenIds(rows: map<string, Delivery>, out: seq<Delivery>, h: seq<Op>, t: Table, sorted: seq<Candidate>, n: nat,
                 owner: string, generation: nat, now: int, parts: set<int>)
    requires Reached(h, t) && Ranked(sorted, t, parts, now) && Taken(rows, out, t, sorted, n, owner, generation, now)
    ensures IdSet(out) == CandidateIds(sorted[..n])
    ensures forall i :: 0 <= i < n ==> out[i].id == sorted[i].id && out[i].subscriber == sorted[i].subscriber
  {
    forall i | 0 <= i < n
      ensures out[i].id == sorted[i].id && out[i].subscriber == sorted[i].subscriber
    {
      assert sorted[i] in sorted;
      var s := t.rows[sorted[i].id].subscriber;
      var q := ReachedMirrors(h, t, s);
      assert Fits(sorted[i].id, t.rows[sorted[i].id], q);
    }
    forall c | c in sorted[..n]
      ensures c.id in IdSet(out)
    {
      var i :| 0 <= i < n && sorted[i] == c;
      assert out[i] in out;
    }
    forall d | d in out
      ensures d.id in CandidateIds(sorted[..n])
    {
      var i :| 0 <= i < n && out[i] == d;
      assert sorted[i] in sorted[..n];
    }
  }

  /** An eligible row that the loop did not reach comes after every row that it took. */
  lemma LeftOutIsLater(out: seq<Delivery>, t: Table, sorted: seq<Candidate>, parts: set<int>, now: int, id: string,
                       i: nat)
    requires Ranked(sorted, t, parts, now) && |out| <= |sorted| && i < |out|
    requires forall j :: 0 <= j < |out| ==> out[j].id == sorted[j].id && out[j].subscriber == sorted[j].subscriber
    requires id in EligibleIds(t, parts, now) && id !in IdSet(out)
    ensures Before(out[i].subscriber, t.rows[id].subscriber)
  {
  }

  /** What the loop has taken when it stops is an exact claim. */
  lemma TakenIsExact(rows: map<string, Delivery>, out: seq<Delivery>, h: seq<Op>, t: Table, sorted: seq<Candidate>,
                     parts: set<int>, limit: int, owner: string, generation: nat, now: int)
    requires Reached(h, t) && Ranked(sorted, t, parts, now)
    requires Taken(rows, out, t, sorted, |out|, owner, generation, now)
    requires |out| == if |sorted| < limit then |sorted| else limit
    ensures ExactClaim(t, out, parts, limit, owner, generation, now)
  {
    EligibleCount(sorted, t, parts, now);
    TakenIds(rows, out, h, t, sorted, |out|, owner, generation, now, parts);
    forall d | d in out
      ensures d.id in EligibleIds(t, parts, now) && d == Claimed(t.rows[d.id], owner, generation, now)
    {
      var i :| 0 <= i < |out| && out[i] == d;
      assert sorted[i] in sorted;
    }
    forall id, d | id in EligibleIds(t, parts, now) && id !in IdSet(out) && d in out
      ensures Before(d.subscriber, t.rows[id].subscriber)
    {
      var i :| 0 <= i < |out| && out[i] == d;
      LeftOutIsLater(out, t, sorted, parts, now, id, i);
    }
  }

  /** It is also a legal change of the tables. */
  lemma TakenIsClaim(rows: map<string, Delivery>, out: seq<Delivery>, h: seq<Op>, t: Table, sorted: seq<Candidate>,
                     parts: set<int>, owner: string, generation: nat, now: int)
    requires Reached(h, t) && Ranked(sorted, t, parts, now) && owner != "" && generation != 0
    requires Taken(rows, out, t, sorted, |out|, owner, generation, now)
    ensures Legal(t, Op.Claim(Stamps(out, generation), owner, now))
    ensures t.(rows := rows) == Apply(t, Op.Claim(Stamps(out, generation), owner, now))
  {
    TakenIds(rows, out, h, t, sorted, |out|, owner, generation, now, parts);
    forall id | id in IdSet(out)
      ensures Claimable(t, id, now)
    {
      var i :| 0 <= i < |out| && sorted[i].id == id;
      assert sorted[i] in sorted;
    }
    assert rows == Apply(t, Op.Claim(Stamps(out, generation), owner, now)).rows;
  }

  // ---- A claim, read off the maps ----

  /** The row is pending and due, its subscriber is not suspended, and nothing earlier of the
      subscriber is pending or in flight. */
  ghost predicate FirstAndDue(rows: map<string, Delivery>, subs: map<string, Meta>, id: string, now: int) {
    && id in rows && rows[id].status == Pending
    && (rows[id].nextAttempt.At? ==> rows[id].nextAttempt.ns <= now)
    && (rows[id].subscriber in subs ==> !subs[rows[id].subscriber].suspended)
    && forall j :: j in rows && rows[j].subscriber == rows[id].subscriber && rows[j].sequence < rows[id].sequence ==>
         rows[j].status != Pending && rows[j].status != InFlight
  }

  lemma FirstAndDueIsClaimable(t: Table, id: string, now: int)
    ensures FirstAndDue(t.rows, t.subs, id, now) <==> Claimable(t, id, now)
  {
    if FirstAndDue(t.rows, t.subs, id, now) {
      forall j | j in t.rows && t.rows[j].subscriber == t.rows[id].subscriber && Unfinished(t.rows[j])
        ensures t.rows[id].sequence <= t.rows[j].sequence
      {
      }
    }
  }

  /** A claim of these partitions may take the row. */
  ghost predicate Takable(rows: map<string, Delivery>, subs: map<string, Meta>, id: string, partitions: seq<int>,
                          now: int) {
    FirstAndDue(rows, subs, id, now) && rows[id].partition in partitions
  }

  lemma TakableIsEligible(t: Table, id: string, partitions: seq<int>, now: int)
    ensures Takable(t.rows, t.subs, id, partitions, now) <==> Eligible(t, id, PartitionSet(partitions), now)
  {
    FirstAndDueIsClaimable(t, id, now);
  }

  /** The row `d` in the hands of the claimant. */
  predicate TakenBy(d: Delivery, d2: Delivery, owner: string, generation: nat, now: int) {
    d2 == Delivery(d.id, d.subscriber, d.partition, d.body, d.sequence, InFlight, d.attempt + 1, d.nextAttempt,
                   d.lastError, owner, generation, At(now), d.createdAt)
  }

  predicate AllBefore(out: seq<Delivery>, s: string) {
    forall d :: d in out ==> Before(d.subscriber, s)
  }

  /** What a claim has taken and left: only takable rows, stamped, all other rows untouched, and
      what it has left takable comes later in subscriber order than everything in a full batch. */
  ghost predicate FairShare(rows: map<string, Delivery>, subs: map<string, Meta>, rows2: map<string, Delivery>,
                            out: seq<Delivery>, partitions: seq<int>, limit: int, owner: string, generation: nat,
                            now: int) {
    && rows2.Keys == rows.Keys && |out| <= limit
    && (forall d :: d in out ==>
          && Takable(rows, subs, d.id, partitions, now) && rows2[d.id] == d
          && TakenBy(rows[d.id], d, owner, generation, now))
    && (forall id :: id in rows && rows2[id] !in out ==> rows2[id] == rows[id])
    && (forall id :: Takable(rows, subs, id, partitions, now) && rows2[id] !in out ==>
          |out| == limit && AllBefore(out, rows[id].subscriber))
  }

  lemma ExactTakes(t: Table, rows2: map<string, Delivery>, out: seq<Delivery>, d: Delivery, partitions: seq<int>,
                   limit: int, owner: string, generation: nat, now: int)
    requires ExactClaim(t, out, PartitionSet(partitions), limit, owner, generation, now) && d in out
    requires rows2 == Apply(t, Claim(Stamps(out, generation), owner, now)).rows
    ensures Takable(t.rows, t.subs, d.id, partitions, now) && d.id in rows2 && rows2[d.id] == d
    ensures TakenBy(t.rows[d.id], d, owner, generation, now)
  {
    TakableIsEligible(t, d.id, partitions, now);
    assert d.id in IdSet(out);
  }

  lemma ExactLeaves(t: Table, rows2: map<string, Delivery>, out: seq<Delivery>, id: string, partitions: seq<int>,
                    limit: int, owner: string, generation: nat, now: int)
    requires ExactClaim(t, out, PartitionSet(partitions), limit, owner, generation, now)
    requires rows2 == Apply(t, Claim(Stamps(out, generation), owner, now)).rows
    requires id in rows2 && rows2[id] !in out
    ensures rows2[id] == t.rows[id]
    ensures Takable(t.rows, t.subs, id, partitions, now) ==>
      |out| == limit && AllBefore(out, t.rows[id].subscriber)
  {
    TakableIsEligible(t, id, partitions, now);
    if Takable(t.rows, t.subs, id, partitions, now) && |out| < limit {
      AllTaken(t, out, PartitionSet(partitions), limit, owner, generation, now);
    }
  }

  lemma ExactIsFair(t: Table, rows2: map<string, Delivery>, out: seq<Delivery>, partitions: seq<int>, limit: int,
                    owner: string, generation: nat, now: int)
    requires ExactClaim(t, out, PartitionSet(partitions), limit, owner, generation, now)
    requires rows2 == Apply(t, Claim(Stamps(out, generation), owner, now)).rows
    ensures FairShare(t.rows, t.subs, rows2, out, partitions, limit, owner, generation, now)
  {
    forall d | d in out
      ensures Takable(t.rows, t.subs, d.id, partitions, now) && d.id in rows2 && rows2[d.id] == d
      ensures TakenBy(t.rows[d.id], d, owner, generation, now)
    {
      ExactTakes(t, rows2, out, d, partitions, limit, owner, generation, now);
    }
    forall id | id in rows2 && rows2[id] !in out
      ensures rows2[id] == t.rows[id]
      ensures Takable(t.rows, t.subs, id, partitions, now) ==>
        |out| == limit && AllBefore(out, t.rows[id].subscriber)
    {
      ExactLeaves(t, rows2, out, id, partitions, limit, owner, generation, now);
    }
  }

  /** A batch that is not full leaves no eligible row. */
  lemma AllTaken(t: Table, out: seq<Delivery>, parts: set<int>, limit: int, owner: string, generation: nat, now: int)
    requires ExactClaim(t, out, parts, limit, owner, generation, now) && |out| < limit
    ensures EligibleIds(t, parts, now) == IdSet(out)
  {
    var ids := seq(|out|, i requires 0 <= i < |out| => out[i].id);
    forall i, j | 0 <= i < j < |out|
      ensures ids[i] != ids[j]
    {
      BeforeOrder(out[i].subscriber, out[j].subscriber, "");
      assert out[i] in out && out[j] in out;
    }
    LineSize(ids);
    forall id
      ensures id in IdSet(out) <==> id in Ids(ids)
    {
      if id in IdSet(out) {
        var d :| d in out && d.id == id;
        var i :| 0 <= i < |out| && out[i] == d;
        assert ids[i] == id;
      }
    }
    assert IdSet(out) == Ids(ids);
    assert IdSet(out) <= EligibleIds(t, parts, now);
    SubsetOfSize(IdSet(out), EligibleIds(t, parts, now));
  }

  lemma SubsetOfSize<T>(a: set<T>, b: set<T>)
    requires a <= b && |a| == |b|
    ensures a == b
  {
    assert |b - a| == 0;
  }
}
