/** Why dropping the aged rows, and then the lowest ones until the bound is met, is retention. */
module Retention {
  import opened Deliveries
  import opened StoreSpec
  import opened Sorting
  import opened Refinement

  datatype Candidate = Candidate(id: string, sequence: int, subscriber: string)

  function ChargedSubs(t: Table, s: string, n: nat): map<string, Meta> {
    if n == 0 then t.subs else t.subs[s := Charged(t, s, n)]
  }

  /** The candidates of a sorted list, by id. */
  function CandidateIds(cs: seq<Candidate>): set<string> {
    set c | c in cs :: c.id
  }

  /** `cs` lists the keepable rows of `s` in ascending sequence order. */
  ghost predicate ListsKeepable(cs: seq<Candidate>, rows: map<string, Delivery>, s: string, limits: Limits, now: int) {
    && (forall c :: c in cs ==>
      c.id in rows && Keepable(rows[c.id], s, limits, now) && c.sequence == rows[c.id].sequence)
    && (forall id :: id in rows && Keepable(rows[id], s, limits, now) ==> id in CandidateIds(cs))
    && (forall i, j :: 0 <= i < j < |cs| ==> cs[i].sequence < cs[j].sequence)
  }

  function AgedOf(rows: map<string, Delivery>, s: string, limits: Limits, now: int): set<string> {
    set id | id in rows && rows[id].subscriber == s && rows[id].status == Retained && Aged(rows[id], limits, now)
  }

  lemma OneCandidateMore(cs: seq<Candidate>, init: seq<Candidate>, last: Candidate)
    requires cs != [] && init == cs[..|cs| - 1] && last == cs[|cs| - 1]
    requires forall i, j :: 0 <= i < j < |cs| ==> cs[i].id != cs[j].id
    ensures CandidateIds(cs) == CandidateIds(init) + {last.id} && last.id !in CandidateIds(init)
  {
    forall c | c in init
      ensures c.id != last.id
    {
      var i :| 0 <= i < |init| && init[i] == c;
    }
    assert cs == init + [last];
  }

  lemma {:induction false} CandidateCount(cs: seq<Candidate>)
    requires forall i, j :: 0 <= i < j < |cs| ==> cs[i].id != cs[j].id
    ensures |CandidateIds(cs)| == |cs|
  {
    if cs != [] {
      var init, last := cs[..|cs| - 1], cs[|cs| - 1];
      CandidateCount(init);
      OneCandidateMore(cs, init, last);
    }
  }

  lemma NewerIsAbove(cs: seq<Candidate>, i: nat, rows: map<string, Delivery>, s: string, limits: Limits, now: int,
                     id: string)
    requires ListsKeepable(cs, rows, s, limits, now) && i < |cs|
    ensures id in Newer(rows, s, cs[i].sequence, limits, now) <==> id in CandidateIds(cs[i + 1..])
  {
    var above := cs[i + 1..];
    if id in CandidateIds(above) {
      var c :| c in above && c.id == id;
      assert c in cs;
    }
    if id in CandidateIds(cs) {
      var j :| 0 <= j < |cs| && cs[j].id == id;
      assert cs[j] in cs && cs[i] in cs;
      if j > i {
        assert above[j - i - 1] == cs[j];
      }
    }
  }

  /** In an ascending list the rank of a row from the top is the number of newer rows. */
  lemma RankIsNewer(cs: seq<Candidate>, i: nat, rows: map<string, Delivery>, s: string, limits: Limits, now: int)
    requires ListsKeepable(cs, rows, s, limits, now) && i < |cs|
    ensures |Newer(rows, s, cs[i].sequence, limits, now)| == |cs| - 1 - i
  {
    var above, newer := cs[i + 1..], Newer(rows, s, cs[i].sequence, limits, now);
    forall id
      ensures id in newer <==> id in CandidateIds(above)
    {
      NewerIsAbove(cs, i, rows, s, limits, now, id);
    }
    assert newer == CandidateIds(above);
    DifferentIds(cs, rows, s, limits, now);
    CandidateCount(above);
  }

  lemma DifferentIds(cs: seq<Candidate>, rows: map<string, Delivery>, s: string, limits: Limits, now: int)
    requires ListsKeepable(cs, rows, s, limits, now)
    ensures forall i, j :: 0 <= i < j < |cs| ==> cs[i].id != cs[j].id
  {
    forall i, j | 0 <= i < j < |cs|
      ensures cs[i].id != cs[j].id
    {
      assert cs[i] in cs && cs[j] in cs;
    }
  }

  /** Dropping the aged rows and then the lowest until `maxCount` are left drops what retention asks for. */
  lemma LoopDropsExactly(cs: seq<Candidate>, k: nat, rows: map<string, Delivery>, s: string, limits: Limits, now: int)
    requires ListsKeepable(cs, rows, s, limits, now) && k <= |cs|
    requires |cs| - k <= limits.maxCount && (k > 0 ==> |cs| - k == limits.maxCount)
    ensures DropsOf(rows, s, limits, now) == AgedOf(rows, s, limits, now) + CandidateIds(cs[..k])
  {
    forall i | 0 <= i < |cs|
      ensures cs[i].id in DropsOf(rows, s, limits, now) <==> i < k
      ensures cs[i].id in CandidateIds(cs[..k]) <==> i < k
    {
      RankIsNewer(cs, i, rows, s, limits, now);
      assert cs[i] in cs;
      if i < k {
        assert cs[..k][i] == cs[i];
      }
      if c :| c in cs[..k] && c.id == cs[i].id {
        var j :| 0 <= j < k && cs[j] == c;
        assert cs[j] in cs;
      }
    }
    forall id | id in rows && Keepable(rows[id], s, limits, now)
      ensures exists i :: 0 <= i < |cs| && cs[i].id == id
    {
    }
    forall id | id in CandidateIds(cs[..k])
      ensures id in DropsOf(rows, s, limits, now)
    {
      var i :| 0 <= i < k && cs[..k][i].id == id;
    }
  }

  function ChargeOnce(subs: map<string, Meta>, s: string): map<string, Meta> {
    var m := if s in subs then subs[s] else RUNNING;
    subs[s := Meta(m.suspended, true, m.dropped + 1)]
  }

  /** The tables that are left of `t` when the rows `gone` of `s` have been dropped. */
  ghost predicate Shed(rows: map<string, Delivery>, subs: map<string, Meta>, t: Table, s: string, gone: set<string>) {
    rows == t.rows - gone && subs == ChargedSubs(t, s, |gone|)
  }

  lemma ShedOneMore(rows: map<string, Delivery>, subs: map<string, Meta>, t: Table, s: string, gone: set<string>,
                    id: string)
    requires Shed(rows, subs, t, s, gone) && id in t.rows && id !in gone
    ensures id in rows && rows[id] == t.rows[id]
    ensures Shed(rows - {id}, ChargeOnce(subs, s), t, s, gone + {id})
  {
    assert rows - {id} == t.rows - (gone + {id});
  }

  lemma ShedAllIsTrimmed(rows: map<string, Delivery>, subs: map<string, Meta>, t: Table, s: string, limits: Limits,
                         now: int)
    requires Shed(rows, subs, t, s, DropsOf(t.rows, s, limits, now))
    ensures t.(rows := rows, subs := subs) == Trimmed(t, s, limits, now)
  {
  }

  lemma IdsOneMore(cs: seq<Candidate>, k: nat, others: set<string>)
    requires k < |cs|
    ensures others + CandidateIds(cs[..k + 1]) == others + CandidateIds(cs[..k]) + {cs[k].id}
    ensures cs[k..][1..] == cs[k + 1..]
  {
  }

  lemma CollectedOneMore(cs: seq<Candidate>, rows: map<string, Delivery>, todo: set<string>, s: string,
                         limits: Limits, now: int, id: string)
    requires Collected(cs, rows, todo, s, limits, now) && id in todo && id in rows
    ensures if Keepable(rows[id], s, limits, now)
            then Collected(cs + [CandidateOf(id, rows[id])], rows, todo - {id}, s, limits, now)
            else Collected(cs, rows, todo - {id}, s, limits, now)
  {
  }

  /** The aged rows among those already looked at, one more looked at. */
  lemma AgedOneMore(rows: map<string, Delivery>, todo: set<string>, s: string, limits: Limits, now: int, id: string)
    requires id in todo && id in rows
    ensures AgedOf(rows, s, limits, now) - (todo - {id}) == AgedOf(rows, s, limits, now) - todo +
      if rows[id].subscriber == s && rows[id].status == Retained && Aged(rows[id], limits, now) then {id} else {}
  {
  }

  function CandidateOf(id: string, d: Delivery): Candidate {
    Candidate(id, d.sequence, d.subscriber)
  }

  predicate BySequence(a: Candidate, b: Candidate) {
    a.sequence < b.sequence
  }

  /** `cs` lists, without repetition, the keepable rows of `s` that are not left to do. */
  ghost predicate Collected(cs: seq<Candidate>, rows: map<string, Delivery>, todo: set<string>, s: string,
                            limits: Limits, now: int) {
    && NoRepeats(cs)
    && (forall c :: c in cs ==>
          c.id in rows && c.id !in todo && Keepable(rows[c.id], s, limits, now) && c == CandidateOf(c.id, rows[c.id]))
    && (forall id :: id in rows && id !in todo && Keepable(rows[id], s, limits, now) ==>
      CandidateOf(id, rows[id]) in cs)
  }

  lemma SweepStarts(t: Table, s: string, limits: Limits, now: int)
    ensures Shed(t.rows, t.subs, t, s, AgedOf(t.rows, s, limits, now) - t.rows.Keys)
    ensures Collected([], t.rows, t.rows.Keys, s, limits, now)
  {
  }

  lemma SortedListsKeepable(cs: seq<Candidate>, sorted: seq<Candidate>, rows: map<string, Delivery>, s: string,
                            limits: Limits, now: int)
    requires Collected(cs, rows, {}, s, limits, now) && Distinct(rows, s)
    requires NoRepeats(sorted) && Sorted(sorted, BySequence) && forall c :: c in sorted <==> c in cs
    ensures ListsKeepable(sorted, rows, s, limits, now)
  {
    assert StrictWeak(BySequence) by {
      assert forall a: Candidate, b: Candidate, c: Candidate :: Carries(BySequence, a, b, c);
    }
    forall i, j | 0 <= i < j < |sorted|
      ensures sorted[i].sequence < sorted[j].sequence
    {
      SortedApart(sorted, BySequence, i, j);
      assert sorted[i] in cs && sorted[j] in cs;
    }
    forall id | id in rows && Keepable(rows[id], s, limits, now)
      ensures id in CandidateIds(sorted)
    {
      assert CandidateOf(id, rows[id]) in sorted;
    }
  }

  lemma NotYetGone(cs: seq<Candidate>, k: nat, rows: map<string, Delivery>, s: string, limits: Limits, now: int)
    requires ListsKeepable(cs, rows, s, limits, now) && k < |cs|
    ensures cs[k].id in rows && rows[cs[k].id].subscriber == s
    ensures cs[k].id !in AgedOf(rows, s, limits, now) + CandidateIds(cs[..k])
  {
  }

  // ---- Operations that end with retention, read off the maps ----

  /** The retained rows of `s` that are no older than `maxAge` and newer than sequence `n`. */
  function NewerYoung(rows: map<string, Delivery>, s: string, n: int, maxAge: int, now: int): set<string> {
    set id | id in rows && rows[id].subscriber == s && rows[id].status == Retained
      && now - rows[id].createdAt <= maxAge && rows[id].sequence > n
  }

  /** The row is a retained row of `s` that is too old, or has `maxCount` newer ones beside it. */
  predicate Outlived(rows: map<string, Delivery>, id: string, s: string, maxCount: nat, maxAge: int, now: int)
    requires id in rows
  {
    && rows[id].subscriber == s && rows[id].status == Retained
    && (now - rows[id].createdAt > maxAge || |NewerYoung(rows, s, rows[id].sequence, maxAge, now)| >= maxCount)
  }

  /** `rows2` is `rows` without those. */
  ghost predicate KeepsNewest(rows: map<string, Delivery>, rows2: map<string, Delivery>, s: string, maxCount: nat,
                              maxAge: int, now: int) {
    && (forall id :: id in rows2 ==> id in rows && rows2[id] == rows[id])
    && (forall id :: id in rows ==> (id !in rows2 <==> Outlived(rows, id, s, maxCount, maxAge, now)))
  }

  /** The record of `s` when `n` of its rows have been dropped. */
  predicate ChargedFor(subs: map<string, Meta>, subs2: map<string, Meta>, s: string, n: nat) {
    if n == 0 then subs2 == subs
    else if s in subs then subs2 == subs[s := Meta(subs[s].suspended, true, subs[s].dropped + n)]
    else subs2 == subs[s := Meta(false, true, n)]
  }

  lemma DropsOutlived(rows: map<string, Delivery>, id: string, s: string, limits: Limits, now: int)
    requires id in rows
    ensures id in DropsOf(rows, s, limits, now) <==> Outlived(rows, id, s, limits.maxCount, limits.maxAge, now)
  {
    assert Newer(rows, s, rows[id].sequence, limits, now) == NewerYoung(rows, s, rows[id].sequence, limits.maxAge, now);
  }

  lemma TrimOutlives(t: Table, s: string, limits: Limits, now: int)
    ensures KeepsNewest(t.rows, Trimmed(t, s, limits, now).rows, s, limits.maxCount, limits.maxAge, now)
  {
    forall id | id in t.rows
      ensures id in DropsOf(t.rows, s, limits, now) <==> Outlived(t.rows, id, s, limits.maxCount, limits.maxAge, now)
    {
      DropsOutlived(t.rows, id, s, limits, now);
    }
  }

  lemma KeysWithout(rows: map<string, Delivery>, drops: set<string>)
    requires drops <= rows.Keys
    ensures rows.Keys - (rows - drops).Keys == drops
  {
  }

  lemma DropsAreCharged(t: Table, s: string, drops: set<string>)
    ensures ChargedFor(t.subs, if drops == {} then t.subs else t.subs[s := Charged(t, s, |drops|)], s, |drops|)
  {
  }

  lemma TrimCharges(t: Table, s: string, limits: Limits, now: int)
    ensures var t2 := Trimmed(t, s, limits, now);
      ChargedFor(t.subs, t2.subs, s, |t.rows.Keys - t2.rows.Keys|) && t2.seqs == t.seqs
  {
    var drops := DropsOf(t.rows, s, limits, now);
    KeysWithout(t.rows, drops);
    DropsAreCharged(t, s, drops);
  }

  /** The rows with one of them dead-lettered and everything pending of its subscriber retained. */
  function ParkedRows(rows: map<string, Delivery>, id: string, error: string): map<string, Delivery>
    requires id in rows
  {
    map j | j in rows ::
      if j == id
      then rows[j].(status := DeadLettered, lastError := error, owner := "", generation := 0, claimedAt := Never)
      else if rows[j].subscriber == rows[id].subscriber && rows[j].status == Pending
      then rows[j].(status := Retained, owner := "", generation := 0, claimedAt := Never)
      else rows[j]
  }

  /** After an exhausted delivery: the row is dead-lettered, its subscriber suspended, everything
      pending of it retained, within bounds. */
  ghost predicate Exhausted(rows: map<string, Delivery>, subs: map<string, Meta>, rows2: map<string, Delivery>,
                            subs2: map<string, Meta>, id: string, error: string, limits: Limits, now: int) {
    && id in rows
    && KeepsNewest(ParkedRows(rows, id, error), rows2, rows[id].subscriber, limits.maxCount, limits.maxAge, now)
    && ChargedFor(Closed(subs, rows[id].subscriber), subs2, rows[id].subscriber, |rows.Keys - rows2.Keys|)
  }

  function Closed(subs: map<string, Meta>, s: string): map<string, Meta> {
    subs[s := if s in subs then Meta(true, subs[s].gap, subs[s].dropped) else Meta(true, false, 0)]
  }

  lemma SuspendParks(t: Table, id: string, owner: string, generation: nat, error: string)
    requires id in t.rows
    ensures var t2 := Apply(t, Suspend(id, owner, generation, error));
      t2.rows == ParkedRows(t.rows, id, error) && t2.subs == Closed(t.subs, t.rows[id].subscriber) && t2.seqs == t.seqs
  {
  }

  lemma SuspendExhausts(t: Table, t2: Table, id: string, owner: string, generation: nat, error: string, limits: Limits,
                        now: int)
    requires id in t.rows
    requires t2 == Trimmed(Apply(t, Suspend(id, owner, generation, error)), t.rows[id].subscriber, limits, now)
    ensures Exhausted(t.rows, t.subs, t2.rows, t2.subs, id, error, limits, now) && t2.seqs == t.seqs
  {
    SuspendParks(t, id, owner, generation, error);
    ParkedAndTrimmed(t, Apply(t, Suspend(id, owner, generation, error)), id, error, limits, now);
  }

  lemma ParkedAndTrimmed(t: Table, t1: Table, id: string, error: string, limits: Limits, now: int)
    requires id in t.rows && t1.rows == ParkedRows(t.rows, id, error)
    requires t1.subs == Closed(t.subs, t.rows[id].subscriber) && t1.seqs == t.seqs
    ensures var t2 := Trimmed(t1, t.rows[id].subscriber, limits, now);
      Exhausted(t.rows, t.subs, t2.rows, t2.subs, id, error, limits, now) && t2.seqs == t.seqs
  {
    TrimOutlives(t1, t.rows[id].subscriber, limits, now);
    TrimCharges(t1, t.rows[id].subscriber, limits, now);
    assert t1.rows.Keys == t.rows.Keys;
  }

  /** After a resume: retention has been applied, what is still retained is pending from now on,
      with its attempts, and the record starts anew. */
  ghost predicate Resumed(rows: map<string, Delivery>, subs: map<string, Meta>, rows2: map<string, Delivery>,
                          subs2: map<string, Meta>, s: string, limits: Limits, now: int) {
    && (forall id :: id in rows2 ==> id in rows && PutBackInLine(rows[id], rows2[id], s, now))
    && (forall id :: id in rows ==> (id !in rows2 <==> Outlived(rows, id, s, limits.maxCount, limits.maxAge, now)))
    && subs2 == subs[s := Meta(false, false, 0)]
  }

  predicate PutBackInLine(d: Delivery, d2: Delivery, s: string, now: int) {
    if d.subscriber == s && d.status == Retained
    then d2 == d.(status := Pending, nextAttempt := At(now), owner := "", generation := 0, claimedAt := Never)
    else d2 == d
  }

  /** The gap that a resume reports: what was on record, and what its retention has dropped. */
  predicate GapReported(rows: map<string, Delivery>, subs: map<string, Meta>, rows2: map<string, Delivery>, s: string,
                        occurred: bool, dropped: nat) {
    var n := |rows.Keys - rows2.Keys|;
    if s in subs then dropped == subs[s].dropped + n && (occurred <==> subs[s].gap || n > 0)
    else dropped == n && (occurred <==> n > 0)
  }

  lemma ReopenPutsBack(t: Table, s: string, now: int)
    ensures var t2 := Apply(t, Reopen(s, now));
      && t2.rows.Keys == t.rows.Keys && (forall id :: id in t.rows ==> PutBackInLine(t.rows[id], t2.rows[id], s, now))
      && t2.subs == t.subs[s := Meta(false, false, 0)]
  {
  }

  /** Charging somebody does not matter once his record starts anew. */
  lemma ChargedThenCleared(subs: map<string, Meta>, subs1: map<string, Meta>, s: string, n: nat)
    requires ChargedFor(subs, subs1, s, n)
    ensures subs1[s := Meta(false, false, 0)] == subs[s := Meta(false, false, 0)]
  {
  }

  lemma PutsBackTheRest(rows: map<string, Delivery>, rows1: map<string, Delivery>, rows2: map<string, Delivery>,
                        s: string, limits: Limits, now: int)
    requires KeepsNewest(rows, rows1, s, limits.maxCount, limits.maxAge, now) && rows2.Keys == rows1.Keys
    requires forall id :: id in rows1 ==> PutBackInLine(rows1[id], rows2[id], s, now)
    ensures forall id :: id in rows2 ==> id in rows && PutBackInLine(rows[id], rows2[id], s, now)
    ensures forall id :: id in rows ==>
      (id !in rows2 <==> Outlived(rows, id, s, limits.maxCount, limits.maxAge, now))
  {
  }

  lemma ReopenResumes(t: Table, t1: Table, t2: Table, s: string, limits: Limits, now: int)
    requires t1 == Trimmed(t, s, limits, now) && t2 == Apply(t1, Reopen(s, now))
    ensures Resumed(t.rows, t.subs, t2.rows, t2.subs, s, limits, now)
    ensures GapReported(t.rows, t.subs, t2.rows, s, t1.MetaOf(s).gap, t1.MetaOf(s).dropped)
  {
    TrimOutlives(t, s, limits, now);
    TrimCharges(t, s, limits, now);
    ReopenPutsBack(t1, s, now);
    PutsBackTheRest(t.rows, t1.rows, t2.rows, s, limits, now);
    ChargedThenCleared(t.subs, t1.subs, s, |t.rows.Keys - t1.rows.Keys|);
    GapIsOnRecord(t, t1, s);
  }

  lemma GapIsOnRecord(t: Table, t1: Table, s: string)
    requires ChargedFor(t.subs, t1.subs, s, |t.rows.Keys - t1.rows.Keys|)
    ensures GapReported(t.rows, t.subs, t1.rows, s, t1.MetaOf(s).gap, t1.MetaOf(s).dropped)
  {
  }
}
