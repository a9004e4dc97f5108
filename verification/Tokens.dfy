/** Claim-owner tokens: how they are printed (partition.go) and the two parsers that read them
    back (partition.go for workers, store/postgres/ownership.go for distributed claims). */
module Tokens {
  import opened Deliveries

  const PREFIX := "worker-"
  const INT64_MAX := 0x7fff_ffff_ffff_ffff

  predicate Int64(n: int) {
    -INT64_MAX - 1 <= n <= INT64_MAX
  }

  // ---- Decimal numbers ----

  predicate IsDigit(c: char) {
    '0' <= c <= '9'
  }

  function Digit(n: nat): char
    requires n < 10
  {
    '0' + n as char
  }

  function DigitValue(c: char): nat
    requires IsDigit(c)
  {
    c as int - '0' as int
  }

  function DigitsOf(n: nat): (s: string)
    ensures s != [] && forall i :: 0 <= i < |s| ==> IsDigit(s[i])
  {
    if n < 10 then [Digit(n)] else DigitsOf(n / 10) + [Digit(n % 10)]
  }

  /** `%d`. */
  function Itoa(n: int): string {
    if n < 0 then "-" + DigitsOf(-n) else DigitsOf(n)
  }

  function ValueOf(s: string): nat
    requires forall i :: 0 <= i < |s| ==> IsDigit(s[i])
  {
    if s == [] then 0 else 10 * ValueOf(s[..|s| - 1]) + DigitValue(s[|s| - 1])
  }

  /** Length of the longest prefix of digits. */
  function DigitRun(s: string): (k: nat)
    ensures k <= |s| && forall i :: 0 <= i < k ==> IsDigit(s[i])
  {
    if s == [] || !IsDigit(s[0]) then 0 else
    var k := 1 + DigitRun(s[1..]);
    assert forall i :: 1 <= i < k ==> s[i] == s[1..][i - 1];
    k
  }

  /** `Sscanf` with `%d`: an optional sign and the longest run of digits, within 64 bits. */
  function ScanInt(s: string): Option<int> {
    var signed := s != [] && (s[0] == '-' || s[0] == '+');
    var body := if signed then s[1..] else s;
    var k := DigitRun(body);
    var v := ValueOf(body[..k]);
    var n: int := (if signed && s[0] == '-' then -1 else 1) * v;
    if k > 0 && Int64(n) then Some(n) else None
  }

  lemma {:induction false} DigitsValue(n: nat)
    ensures ValueOf(DigitsOf(n)) == n
  {
    if n >= 10 {
      DigitsValue(n / 10);
      var s := DigitsOf(n);
      assert s[..|s| - 1] == DigitsOf(n / 10);
    }
  }

  lemma {:induction false} AllDigitsRun(s: string)
    requires forall i :: 0 <= i < |s| ==> IsDigit(s[i])
    ensures DigitRun(s) == |s|
  {
    if s != [] {
      AllDigitsRun(s[1..]);
    }
  }

  lemma ScanPrinted(n: int)
    requires Int64(n)
    ensures ScanInt(Itoa(n)) == Some(n)
  {
    var m := if n < 0 then -n else n;
    var ds := DigitsOf(m);
    DigitsValue(m);
    AllDigitsRun(ds);
    assert ds[..|ds|] == ds;
    if n < 0 {
      assert Itoa(n)[1..] == ds;
    }
  }

  /** `worker-%d`, accepted only in the form in which it is printed. */
  function ParseWorker(s: string): Option<int> {
    if !(PREFIX <= s) then None else
    match ScanInt(s[|PREFIX|..])
    case None => None
    case Some(n) => if s == PREFIX + Itoa(n) then Some(n) else None
  }

  lemma ParseWorkerExact(s: string, n: int)
    ensures ParseWorker(s) == Some(n) <==> Int64(n) && s == PREFIX + Itoa(n)
  {
    if Int64(n) && s == PREFIX + Itoa(n) {
      assert s[|PREFIX|..] == Itoa(n);
      ScanPrinted(n);
    }
  }

  // ---- Worker index: the last "worker-" decides ----

  predicate MatchesAt(s: string, sub: string, i: nat) {
    i + |sub| <= |s| && s[i..i + |sub|] == sub
  }

  /** The largest index at or below `i` where `sub` occurs, or -1. */
  function LastIndexFrom(s: string, sub: string, i: int): (k: int)
    requires -1 <= i <= |s|
    ensures -1 <= k <= i && (k >= 0 ==> MatchesAt(s, sub, k))
    ensures forall j: nat :: k < j <= i ==> !MatchesAt(s, sub, j)
    decreases i + 1
  {
    if i < 0 then -1 else if MatchesAt(s, sub, i) then i else LastIndexFrom(s, sub, i - 1)
  }

  function ParseOwnerIndex(owner: string): Option<int> {
    var i := LastIndexFrom(owner, PREFIX, |owner|);
    if i < 0 then None
    else if i > 0 && owner[i - 1] != '/' then None
    else ParseWorker(owner[i..])
  }

  function OwnerID(w: int): string {
    PREFIX + Itoa(w)
  }

  function ClaimOwnerID(node: string, incarnation: string, w: int): string {
    if node == "" then OwnerID(w) else node + "/" + incarnation + "/" + OwnerID(w)
  }

  lemma MatchStarts(s: string, i: nat)
    ensures MatchesAt(s, PREFIX, i) ==> s[i] == 'w'
  {
  }

  lemma NoW(w: nat, i: nat)
    requires 0 < i < |OwnerID(w)|
    ensures OwnerID(w)[i] != 'w'
  {
  }

  /** A printed number has no 'w', so the prefix does not occur past its own start. */
  lemma PrefixOccursLast(head: string, w: nat)
    ensures LastIndexFrom(head + OwnerID(w), PREFIX, |head + OwnerID(w)|) == |head|
  {
    var s := head + OwnerID(w);
    assert MatchesAt(s, PREFIX, |head|) by {
      assert s[|head|..|head| + |PREFIX|] == PREFIX;
    }
    forall j | |head| < j <= |s|
      ensures !MatchesAt(s, PREFIX, j)
    {
      if j < |s| {
        assert s[j] == OwnerID(w)[j - |head|];
        NoW(w, j - |head|);
        MatchStarts(s, j);
      }
    }
  }

  /** For every node and incarnation whatever, a worker reads its own index back from its token. */
  lemma WorkerIndexRoundTrip(node: string, incarnation: string, w: nat)
    requires Int64(w)
    ensures ParseOwnerIndex(ClaimOwnerID(node, incarnation, w)) == Some(w)
  {
    var head := if node == "" then "" else node + "/" + incarnation + "/";
    var s := head + OwnerID(w);
    assert ClaimOwnerID(node, incarnation, w) == s;
    PrefixOccursLast(head, w);
    assert s[|head|..] == OwnerID(w);
    ParseWorkerExact(OwnerID(w), w);
  }

  // ---- Logical node: exactly three parts ----

  predicate SlashFree(s: string) {
    '/' !in s
  }

  function Split(s: string): (parts: seq<string>)
    ensures parts != []
  {
    if s == "" then [""]
    else if s[0] == '/' then [""] + Split(s[1..])
    else var rest := Split(s[1..]); [[s[0]] + rest[0]] + rest[1..]
  }

  function ParseDistributedOwner(owner: string): Option<string> {
    var parts := Split(owner);
    if |parts| != 3 || parts[0] == "" || parts[1] == "" || ParseWorker(parts[2]) == None then None
    else Some(parts[0])
  }

  lemma {:induction false} SplitOnce(a: string, rest: string)
    requires SlashFree(a)
    ensures Split(a) == [a]
    ensures Split(a + "/" + rest) == [a] + Split(rest)
  {
    var s := a + "/" + rest;
    if a == "" {
      assert s[1..] == rest;
    } else {
      SplitOnce(a[1..], rest);
      assert s[1..] == a[1..] + "/" + rest;
      assert [a[0]] + a[1..] == a;
    }
  }

  lemma {:induction false} DigitsSlashFree(n: nat)
    ensures SlashFree(DigitsOf(n))
  {
  }

  lemma TokenSplits(node: string, incarnation: string, w: int)
    requires SlashFree(node) && SlashFree(incarnation)
    ensures Split(node + "/" + incarnation + "/" + OwnerID(w)) == [node, incarnation, OwnerID(w)]
  {
    DigitsSlashFree(if w < 0 then -w else w);
    assert node + "/" + incarnation + "/" + OwnerID(w) == node + "/" + (incarnation + "/" + OwnerID(w));
    SplitOnce(node, incarnation + "/" + OwnerID(w));
    SplitOnce(incarnation, OwnerID(w));
    SplitOnce(OwnerID(w), "");
  }

  /** Putting the slashes back gives the string, and no part contains one. */
  function Join(parts: seq<string>): string
    requires parts != []
  {
    if |parts| == 1 then parts[0] else parts[0] + "/" + Join(parts[1..])
  }

  lemma {:induction false} SplitJoins(s: string)
    ensures Join(Split(s)) == s && forall i :: 0 <= i < |Split(s)| ==> SlashFree(Split(s)[i])
  {
    if s != "" {
      SplitJoins(s[1..]);
      var rest := Split(s[1..]);
      assert s == [s[0]] + s[1..];
      assert Split(s)[1..] == if s[0] == '/' then rest else rest[1..];
    }
  }

  /** The distributed parser accepts exactly the tokens `node/incarnation/worker-N` with
      non-empty, slash-free node and incarnation, and returns their node. */
  lemma DistributedOwnerExact(owner: string, node: string)
    ensures ParseDistributedOwner(owner) == Some(node) <==>
      exists incarnation, w :: TokenOf(owner, node, incarnation, w)
  {
    if ParseDistributedOwner(owner) == Some(node) {
      var parts := Split(owner);
      SplitJoins(owner);
      assert Join(parts[1..]) == parts[1] + "/" + parts[2] by {
        assert parts[1..][1..] == [parts[2]];
      }
      var w := ParseWorker(parts[2]).value;
      ParseWorkerExact(parts[2], w);
      assert owner == parts[0] + "/" + parts[1] + "/" + OwnerID(w);
      assert TokenOf(owner, node, parts[1], w);
    }
    if incarnation, w :| TokenOf(owner, node, incarnation, w) {
      TokenSplits(node, incarnation, w);
      ParseWorkerExact(OwnerID(w), w);
    }
  }

  ghost predicate TokenOf(owner: string, node: string, incarnation: string, w: int) {
    && node != "" && incarnation != "" && SlashFree(node) && SlashFree(incarnation) && Int64(w)
    && owner == ClaimOwnerID(node, incarnation, w)
  }

  /** Tokens of different workers, incarnations or nodes never collide. */
  lemma TokensDistinct(a: string, i: string, v: nat, b: string, j: string, w: nat)
    requires SlashFree(a) && SlashFree(i) && SlashFree(b) && SlashFree(j)
    requires Int64(v) && Int64(w) && ClaimOwnerID(a, i, v) == ClaimOwnerID(b, j, w)
    ensures a == b && v == w && (a != "" ==> i == j)
  {
    WorkerIndexRoundTrip(a, i, v);
    WorkerIndexRoundTrip(b, j, w);
    TokenSplits(a, i, v);
    TokenSplits(b, j, w);
    DigitsSlashFree(v);
    SplitOnce(OwnerID(v), "");
    if a == "" {
      assert Split(ClaimOwnerID(a, i, v)) == [OwnerID(v)];
    } else {
      assert Split(ClaimOwnerID(a, i, v)) == [a, i, OwnerID(v)];
    }
    if b != "" {
      assert Split(ClaimOwnerID(b, j, w)) == [b, j, OwnerID(w)];
    }
  }

  // ---- What is printed ----

  /** Decimal digits, most significant first. */
  lemma PrintedDigits()
    ensures Itoa(0) == "0" && Itoa(7) == "7" && Itoa(9) == "9" && Itoa(-4) == "-4"
    ensures Itoa(12) == "12" && Itoa(305) == "305"
  {
    assert DigitsOf(12) == DigitsOf(1) + [Digit(2)];
    assert DigitsOf(30) == DigitsOf(3) + [Digit(0)];
    assert DigitsOf(305) == DigitsOf(30) + [Digit(5)];
  }

  lemma PrintedTokens()
    ensures ClaimOwnerID("", "x", 12) == "worker-12"
    ensures ClaimOwnerID("n", "x", 12) == "n/x/worker-12"
  {
    PrintedDigits();
    assert "n" + "/" + "x" + "/" + "worker-12" == "n/x/worker-12";
  }
}
