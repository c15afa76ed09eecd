/**
 The offline checker (`cmd/register-verify/main.go`): a chain of signed checkpoints and a transaction
 log, checked with nothing but the register's public key.
 */
module Auditor {
  import opened Outcomes
  import Checkpoints

  // ---- sorting ---------------------------------------------------------------------

  ghost predicate Ascending(keys: seq<nat>) {
    forall i, j :: 0 <= i < j < |keys| ==> keys[i] <= keys[j]
  }

  function KeysOf<T>(key: T -> nat, list: seq<T>): (keys: seq<nat>)
    ensures |keys| == |list|
    ensures forall i :: 0 <= i < |list| ==> keys[i] == key(list[i])
  {
    seq(|list|, i requires 0 <= i < |list| => key(list[i]))
  }

  /** `sort.Slice` by a key; which order entries with equal keys come out in is left open to callers. */
  method Sort<T(==)>(key: T -> nat, list: seq<T>) returns (sorted: seq<T>)
    ensures multiset(sorted) == multiset(list)
    ensures Ascending(KeysOf(key, sorted))
  {
    sorted := [];
    var rest := list;
    while rest != []
      invariant multiset(sorted) + multiset(rest) == multiset(list)
      invariant Ascending(KeysOf(key, sorted))
      decreases |rest|
    {
      assert rest == [rest[0]] + rest[1..];
      sorted := InsertByKey(key, sorted, rest[0]);
      rest := rest[1..];
    }
  }

  method InsertByKey<T(==)>(key: T -> nat, sorted: seq<T>, x: T) returns (longer: seq<T>)
    requires Ascending(KeysOf(key, sorted))
    ensures multiset(longer) == multiset(sorted) + multiset{x}
    ensures Ascending(KeysOf(key, longer))
  {
    var at := Place(key, sorted, x);
    longer := sorted[..at] + [x] + sorted[at..];
    InsertAscending(KeysOf(key, sorted), at, key(x));
    KeysInsert(key, sorted, at, x);
    assert sorted == sorted[..at] + sorted[at..];
  }

  method Place<T>(key: T -> nat, sorted: seq<T>, x: T) returns (at: nat)
    ensures at <= |sorted|
    ensures forall i :: 0 <= i < at ==> key(sorted[i]) <= key(x)
    ensures at < |sorted| ==> key(x) < key(sorted[at])
  {
    at := 0;
    while at < |sorted| && key(sorted[at]) <= key(x)
      invariant at <= |sorted|
      invariant forall i :: 0 <= i < at ==> key(sorted[i]) <= key(x)
    {
      at := at + 1;
    }
  }

  lemma KeysInsert<T>(key: T -> nat, sorted: seq<T>, at: nat, x: T)
    requires at <= |sorted|
    ensures KeysOf(key, sorted[..at] + [x] + sorted[at..]) ==
            KeysOf(key, sorted)[..at] + [key(x)] + KeysOf(key, sorted)[at..]
  {
  }

  lemma InsertAscending(keys: seq<nat>, at: nat, k: nat)
    requires Ascending(keys) && at <= |keys|
    requires forall i :: 0 <= i < at ==> keys[i] <= k
    requires at < |keys| ==> k <= keys[at]
    ensures Ascending(keys[..at] + [k] + keys[at..])
  {
    var longer := keys[..at] + [k] + keys[at..];
    forall i | 0 <= i < |longer|
      ensures i < at ==> longer[i] == keys[i] <= k
      ensures i > at ==> longer[i] == keys[i - 1] >= k
    {
    }
  }

  lemma SameMembers<T>(a: seq<T>, b: seq<T>)
    requires multiset(a) == multiset(b)
    ensures |a| == |b|
    ensures forall x :: x in a <==> x in b
  {
    assert |multiset(a)| == |multiset(b)|;
    forall x
      ensures x in a <==> x in b
    {
      assert x in a <==> x in multiset(a);
      assert x in b <==> x in multiset(b);
    }
  }

  // ---- the checkpoint chain ------------------------------------------------------------

  predicate Contradict(a: Checkpoints.Signed, b: Checkpoints.Signed) {
    a.checkpoint.version == b.checkpoint.version && a.checkpoint.root != b.checkpoint.root
  }

  /** Two signed statements about one version that cannot both be true. */
  ghost predicate Forked(list: seq<Checkpoints.Signed>) {
    exists a, b :: a in list && b in list && Contradict(a, b)
  }

  ghost predicate AllGenuine(key: nat, list: seq<Checkpoints.Signed>) {
    forall sc :: sc in list ==> Checkpoints.VerifyCheckpoint(key, sc)
  }

  lemma ForkedSame(a: seq<Checkpoints.Signed>, b: seq<Checkpoints.Signed>)
    requires multiset(a) == multiset(b)
    ensures Forked(a) ==> Forked(b)
  {
    SameMembers(a, b);
  }

  datatype ChainReport = ChainReport(unsigned: seq<nat>, forks: seq<nat>, clean: bool, first: nat, last: nat)

  /** The sort key of a checkpoint. */
  function VersionOf(sc: Checkpoints.Signed): nat {
    sc.checkpoint.version
  }

  /** Some entry of this version is not signed by the key. */
  ghost predicate UnsignedAt(key: nat, list: seq<Checkpoints.Signed>, v: nat) {
    exists sc :: sc in list && sc.checkpoint.version == v && sc.signature != Checkpoints.SignedBy(key, sc.checkpoint)
  }

  /** What the scan knows of the entries it has passed: the root last seen for each version. */
  ghost predicate SeenOk(seen: map<nat, string>, passed: seq<Checkpoints.Signed>, forks: seq<nat>) {
    && (forall sc :: sc in passed ==> sc.checkpoint.version in seen)
    && (forall sc :: sc in passed && sc.checkpoint.root != seen[sc.checkpoint.version] ==>
          sc.checkpoint.version in forks)
    && (forall v :: v in seen ==> exists sc :: sc in passed && sc.checkpoint.version == v && sc.checkpoint.root == seen[v])
    && (forall v :: v in forks ==> ForkedAt(passed, v))
  }

  ghost predicate ForkedAt(list: seq<Checkpoints.Signed>, v: nat) {
    exists a, b :: a in list && b in list && Contradict(a, b) && a.checkpoint.version == v
  }

  lemma SeenStep(
    seen: map<nat, string>, passed: seq<Checkpoints.Signed>, forks: seq<nat>, sc: Checkpoints.Signed)
    requires SeenOk(seen, passed, forks)
    ensures
      var v := sc.checkpoint.version;
      var more := if v in seen && seen[v] != sc.checkpoint.root then forks + [v] else forks;
      SeenOk(seen[v := sc.checkpoint.root], passed + [sc], more)
  {
    var v := sc.checkpoint.version;
    var longer := passed + [sc];
    var now := seen[v := sc.checkpoint.root];
    var more := if v in seen && seen[v] != sc.checkpoint.root then forks + [v] else forks;
    forall e | e in longer && e.checkpoint.root != now[e.checkpoint.version]
      ensures e.checkpoint.version in more
    {
      if e in passed && e.checkpoint.version == v && seen[v] != sc.checkpoint.root {
        assert v == more[|forks|];
      }
    }
    forall u | u in now
      ensures exists e :: e in longer && e.checkpoint.version == u && e.checkpoint.root == now[u]
    {
      if u == v {
        assert longer[|passed|] == sc;
      } else {
        var e :| e in passed && e.checkpoint.version == u && e.checkpoint.root == seen[u];
        assert e in longer;
      }
    }
    forall u | u in more
      ensures ForkedAt(longer, u)
    {
      if u in forks {
        ForkedMore(passed, sc, u);
      } else {
        var e :| e in passed && e.checkpoint.version == v && e.checkpoint.root == seen[v];
        assert e in longer && sc in longer && Contradict(e, sc);
      }
    }
  }

  lemma ForkedMore(list: seq<Checkpoints.Signed>, sc: Checkpoints.Signed, v: nat)
    requires ForkedAt(list, v)
    ensures ForkedAt(list + [sc], v)
  {
    var a, b :| a in list && b in list && Contradict(a, b) && a.checkpoint.version == v;
    assert a in list + [sc] && b in list + [sc];
  }

  lemma ForksFound(seen: map<nat, string>, list: seq<Checkpoints.Signed>, forks: seq<nat>)
    requires SeenOk(seen, list, forks)
    ensures forks != [] <==> Forked(list)
    ensures forall v :: v in forks <==> ForkedAt(list, v)
  {
    forall v | ForkedAt(list, v)
      ensures v in forks
    {
      var a, b :| a in list && b in list && Contradict(a, b) && a.checkpoint.version == v;
      assert a.checkpoint.root != seen[v] || b.checkpoint.root != seen[v];
    }
    if Forked(list) {
      var a, b :| a in list && b in list && Contradict(a, b);
      assert ForkedAt(list, a.checkpoint.version);
    }
    if forks != [] {
      assert ForkedAt(list, forks[0]);
      var a, b :| a in list && b in list && Contradict(a, b) && a.checkpoint.version == forks[0];
    }
  }

  /**
   `verifyChain` over the entries as given, in any order: it reports a fork at exactly the versions
   two entries claim with different roots, and comes out clean exactly when there is none and every
   signature verifies.
   */
  method VerifyChain(key: nat, list: seq<Checkpoints.Signed>) returns (r: Option<ChainReport>)
    ensures r.None? <==> list == []
    ensures r.Some? ==>
      && (r.value.forks != [] <==> Forked(list))
      && (forall v :: v in r.value.forks <==> ForkedAt(list, v))
      && (r.value.unsigned == [] <==> AllGenuine(key, list))
      && (forall v :: v in r.value.unsigned <==> UnsignedAt(key, list, v))
      && (r.value.clean <==> AllGenuine(key, list) && !Forked(list))
      && (forall sc :: sc in list ==> r.value.first <= sc.checkpoint.version <= r.value.last)
  {
    if list == [] {
      return None;
    }
    var sorted := Sort(VersionOf, list);
    SameMembers(sorted, list);
    ForkedSame(sorted, list);
    ForkedSame(list, sorted);
    var unsigned, forks, clean := ScanChain(key, sorted);
    forall sc | sc in list
      ensures sorted[0].checkpoint.version <= sc.checkpoint.version <= sorted[|sorted| - 1].checkpoint.version
    {
      var i :| 0 <= i < |sorted| && sorted[i] == sc;
      var keys := KeysOf(VersionOf, sorted);
      assert keys[0] <= keys[i] <= keys[|keys| - 1];
    }
    r := Some(ChainReport(
      unsigned, forks, clean, sorted[0].checkpoint.version, sorted[|sorted| - 1].checkpoint.version));
  }

  lemma UnsignedStep(key: nat, list: seq<Checkpoints.Signed>, sc: Checkpoints.Signed)
    ensures forall v :: UnsignedAt(key, list + [sc], v) <==>
      UnsignedAt(key, list, v) || (v == sc.checkpoint.version && !Checkpoints.VerifyCheckpoint(key, sc))
  {
    forall v
      ensures UnsignedAt(key, list + [sc], v) <==>
        UnsignedAt(key, list, v) || (v == sc.checkpoint.version && !Checkpoints.VerifyCheckpoint(key, sc))
    {
      assert sc in list + [sc];
      if UnsignedAt(key, list, v) {
        var e :| e in list && e.checkpoint.version == v && e.signature != Checkpoints.SignedBy(key, e.checkpoint);
        assert e in list + [sc];
      }
    }
  }

  method ScanChain(key: nat, list: seq<Checkpoints.Signed>)
    returns (unsigned: seq<nat>, forks: seq<nat>, clean: bool)
    ensures forks != [] <==> Forked(list)
    ensures forall v :: v in forks <==> ForkedAt(list, v)
    ensures unsigned == [] <==> AllGenuine(key, list)
    ensures forall v :: v in unsigned <==> UnsignedAt(key, list, v)
    ensures clean <==> unsigned == [] && forks == []
  {
    var seen: map<nat, string> := map[];
    unsigned, forks, clean := [], [], true;
    for i := 0 to |list|
      invariant SeenOk(seen, list[..i], forks)
      invariant unsigned == [] <==> AllGenuine(key, list[..i])
      invariant forall v :: v in unsigned <==> UnsignedAt(key, list[..i], v)
      invariant clean <==> unsigned == [] && forks == []
    {
      assert list[..i + 1] == list[..i] + [list[i]];
      SeenStep(seen, list[..i], forks, list[i]);
      UnsignedStep(key, list[..i], list[i]);
      if !Checkpoints.VerifyCheckpoint(key, list[i]) {
        unsigned := unsigned + [list[i].checkpoint.version];
        clean := false;
      }
      var cp := list[i].checkpoint;
      if cp.version in seen && seen[cp.version] != cp.root {
        forks := forks + [cp.version];
        clean := false;
      }
      seen := seen[cp.version := cp.root];
    }
    assert list[..|list|] == list;
    ForksFound(seen, list, forks);
  }

  // ---- the transaction log -----------------------------------------------------------------

  const U64: nat := 0x1_0000_0000_0000_0000

  datatype Transaction = Transaction(txSeq: nat, versionBefore: nat, versionAfter: nat)

  /** Counts are the program's 64-bit ones: a repeated number reads as all but one entry missing. */
  datatype Gap =
    | Twice(txSeq: nat)
    | Missing(count: nat, after: nat, before: nat)
    | Spans(txSeq: nat, versionBefore: nat, versionAfter: nat)

  function SeqOf(t: Transaction): nat {
    t.txSeq
  }

  predicate OneCommit(t: Transaction) {
    t.versionAfter != 0 ==> t.versionAfter == t.versionBefore + 1
  }

  ghost predicate Distinct(log: seq<Transaction>) {
    forall i, j :: 0 <= i < j < |log| ==> log[i].txSeq != log[j].txSeq
  }

  ghost predicate Within(log: seq<Transaction>, lo: nat) {
    forall t :: t in log ==> lo <= t.txSeq < lo + |log|
  }

  /** No number missing and none twice: as many distinct numbers as the window they lie in holds. */
  ghost predicate Dense(log: seq<Transaction>) {
    Distinct(log) && exists lo :: Within(log, lo)
  }

  ghost predicate Consecutive(log: seq<Transaction>) {
    forall i :: 0 < i < |log| ==> log[i].txSeq == log[i - 1].txSeq + 1
  }

  lemma {:induction false} ConsecutiveAt(log: seq<Transaction>, i: nat)
    requires Consecutive(log) && i < |log|
    ensures log[i].txSeq == log[0].txSeq + i
  {
    if i > 0 {
      ConsecutiveAt(log, i - 1);
    }
  }

  lemma {:induction false} StrictlyAt(log: seq<Transaction>, i: nat, j: nat)
    requires Ascending(KeysOf(SeqOf, log)) && Distinct(log) && i <= j < |log|
    ensures log[i].txSeq + (j - i) <= log[j].txSeq
    decreases j
  {
    if i < j {
      StrictlyAt(log, i, j - 1);
      var keys := KeysOf(SeqOf, log);
      assert keys[j - 1] <= keys[j] && log[j - 1].txSeq != log[j].txSeq;
    }
  }

  lemma ConsecutiveDense(log: seq<Transaction>)
    requires log != [] && Consecutive(log)
    ensures Dense(log)
  {
    forall i | 0 <= i < |log|
      ensures log[i].txSeq == log[0].txSeq + i
    {
      ConsecutiveAt(log, i);
    }
    assert Within(log, log[0].txSeq);
  }

  lemma DenseConsecutive(log: seq<Transaction>)
    requires log != [] && Ascending(KeysOf(SeqOf, log)) && Dense(log)
    ensures Consecutive(log)
  {
    var lo :| Within(log, lo);
    assert log[0] in log && log[|log| - 1] in log;
    forall i | 0 < i < |log|
      ensures log[i].txSeq == log[i - 1].txSeq + 1
    {
      StrictlyAt(log, 0, i - 1);
      StrictlyAt(log, i - 1, i);
      StrictlyAt(log, i, |log| - 1);
    }
  }

  /** Sorted, a log is dense exactly when each number follows the one before. */
  lemma DenseSorted(log: seq<Transaction>)
    requires log != [] && Ascending(KeysOf(SeqOf, log))
    ensures Dense(log) <==> Consecutive(log)
  {
    if Consecutive(log) {
      ConsecutiveDense(log);
    }
    if Dense(log) {
      DenseConsecutive(log);
    }
  }

  lemma {:induction false} TwicePositions(log: seq<Transaction>, t: Transaction) returns (i: nat, j: nat)
    requires multiset(log)[t] >= 2
    ensures i < j < |log| && log[i] == t && log[j] == t
    decreases |log|
  {
    assert log != [] && log == [log[0]] + log[1..];
    if log[0] == t {
      assert t in multiset(log[1..]);
      var k :| 0 <= k < |log[1..]| && log[1..][k] == t;
      i, j := 0, k + 1;
    } else {
      var a, b := TwicePositions(log[1..], t);
      i, j := a + 1, b + 1;
    }
  }

  lemma TwiceCounted(log: seq<Transaction>, i: nat, j: nat)
    requires i < j < |log| && log[i] == log[j]
    ensures multiset(log)[log[i]] >= 2
  {
    assert log == log[..j] + log[j..];
    assert log[..j][i] == log[i] && log[j..][0] == log[j];
    assert multiset(log) == multiset(log[..j]) + multiset(log[j..]);
  }

  lemma DistinctSame(a: seq<Transaction>, b: seq<Transaction>)
    requires multiset(a) == multiset(b) && Distinct(a)
    ensures Distinct(b)
  {
    SameMembers(a, b);
    forall i, j | 0 <= i < j < |b|
      ensures b[i].txSeq != b[j].txSeq
    {
      if b[i] == b[j] {
        TwiceCounted(b, i, j);
        var p, q := TwicePositions(a, b[i]);
        assert false;
      }
      assert b[i] in b && b[j] in b;
      var p :| 0 <= p < |a| && a[p] == b[i];
      var q :| 0 <= q < |a| && a[q] == b[j];
      assert if p < q then a[p].txSeq != a[q].txSeq else a[q].txSeq != a[p].txSeq;
    }
  }

  lemma DenseSame(a: seq<Transaction>, b: seq<Transaction>)
    requires multiset(a) == multiset(b) && Dense(a)
    ensures Dense(b)
  {
    DistinctSame(a, b);
    SameMembers(a, b);
    var lo :| Within(a, lo);
    assert Within(b, lo);
  }

  /** What a gap reported says of a log, entry by entry. */
  ghost predicate GapIn(log: seq<Transaction>, g: Gap) {
    match g
    case Twice(n) => exists i, j :: 0 <= i < j < |log| && log[i].txSeq == n && log[j].txSeq == n
    case Missing(count, after, before) =>
      count == (before - after - 1) % U64 && before != after + 1
      && exists i {:trigger log[i]} :: 0 < i < |log| && log[i - 1].txSeq == after && log[i].txSeq == before
    case Spans(n, from, to) => Transaction(n, from, to) in log && to != 0 && to != from + 1
  }

  /** What one more entry reports. */
  ghost predicate GapAt(log: seq<Transaction>, i: nat, g: Gap)
    requires i < |log|
  {
    match g
    case Twice(n) => n == log[i].txSeq && exists k :: 0 <= k < i && log[k].txSeq == n
    case Missing(count, after, before) =>
      i > 0 && count == (before - after - 1) % U64 && before != after + 1 && log[i - 1].txSeq == after && log[i].txSeq == before
    case Spans(n, from, to) => Transaction(n, from, to) == log[i] && to != 0 && to != from + 1
  }

  lemma GapStep(log: seq<Transaction>, i: nat)
    requires i < |log|
    ensures forall g :: GapIn(log[..i + 1], g) <==> GapIn(log[..i], g) || GapAt(log, i, g)
  {
    var longer, shorter := log[..i + 1], log[..i];
    assert longer == shorter + [log[i]];
    forall g
      ensures GapIn(longer, g) <==> GapIn(shorter, g) || GapAt(log, i, g)
    {
      match g
      case Twice(n) =>
        if GapIn(shorter, g) {
          var a, b :| 0 <= a < b < |shorter| && shorter[a].txSeq == n && shorter[b].txSeq == n;
          assert longer[a].txSeq == n && longer[b].txSeq == n;
        }
        if GapAt(log, i, g) {
          var k :| 0 <= k < i && log[k].txSeq == n;
          assert longer[k].txSeq == n && longer[i].txSeq == n;
        }
        if GapIn(longer, g) {
          var a, b :| 0 <= a < b < |longer| && longer[a].txSeq == n && longer[b].txSeq == n;
          assert b < i ==> shorter[a].txSeq == n && shorter[b].txSeq == n;
          assert log[a].txSeq == n;
        }
      case Missing(_, after, before) =>
        if GapIn(shorter, g) {
          var k {:trigger shorter[k]} :| 0 < k < |shorter| && shorter[k - 1].txSeq == after && shorter[k].txSeq == before;
          assert longer[k] == shorter[k] && longer[k - 1] == shorter[k - 1];
        }
        if GapAt(log, i, g) {
          assert longer[i - 1].txSeq == after && longer[i].txSeq == before;
        }
        if GapIn(longer, g) {
          var k {:trigger longer[k]} :| 0 < k < |longer| && longer[k - 1].txSeq == after && longer[k].txSeq == before;
          assert k < i ==> shorter[k] == longer[k] && shorter[k - 1] == longer[k - 1];
        }
      case Spans(_, _, _) =>
    }
  }

  /** What the scan reports at one entry, knowing whether its number came before. */
  method ReportAt(log: seq<Transaction>, i: nat, twice: bool) returns (more: seq<Gap>)
    requires i < |log| && Ascending(KeysOf(SeqOf, log))
    requires twice <==> exists k :: 0 <= k < i && log[k].txSeq == log[i].txSeq
    ensures forall g :: g in more <==> GapAt(log, i, g)
  {
    var t := log[i];
    more := [];
    if twice {
      ghost var k :| 0 <= k < i && log[k].txSeq == t.txSeq;
      assert KeysOf(SeqOf, log)[k] <= KeysOf(SeqOf, log)[i - 1] <= KeysOf(SeqOf, log)[i];
      more := more + [Twice(t.txSeq)];
    }
    if i > 0 && t.txSeq != log[i - 1].txSeq + 1 {
      more := more + [Missing((t.txSeq - log[i - 1].txSeq - 1) % U64, log[i - 1].txSeq, t.txSeq)];
    }
    if t.versionAfter != 0 && t.versionAfter != t.versionBefore + 1 {
      more := more + [Spans(t.txSeq, t.versionBefore, t.versionAfter)];
    }
  }

  /** The gaps reported are those of the log. */
  ghost predicate ReportsOn(log: seq<Transaction>, gaps: seq<Gap>) {
    forall g :: g in gaps <==> GapIn(log, g)
  }

  lemma ReportsGrow(log: seq<Transaction>, i: nat, gaps: seq<Gap>, more: seq<Gap>)
    requires i < |log| && ReportsOn(log[..i], gaps) && forall g :: g in more <==> GapAt(log, i, g)
    ensures ReportsOn(log[..i + 1], gaps + more)
  {
    GapStep(log, i);
  }

  /** The numbers that came before an entry. */
  ghost predicate SeenBefore(log: seq<Transaction>, i: nat, seen: set<nat>)
    requires i <= |log|
  {
    forall n :: n in seen <==> exists k :: 0 <= k < i && log[k].txSeq == n
  }

  lemma SeenGrows(log: seq<Transaction>, i: nat, seen: set<nat>)
    requires i < |log| && SeenBefore(log, i, seen)
    ensures SeenBefore(log, i + 1, seen + {log[i].txSeq})
  {
  }

  /** Nothing is reported exactly of consecutive logs of single commits. */
  lemma NoGaps(log: seq<Transaction>, gaps: seq<Gap>)
    requires ReportsOn(log, gaps)
    ensures gaps == [] <==> Consecutive(log) && forall t :: t in log ==> OneCommit(t)
  {
    assert gaps != [] ==> gaps[0] in gaps;
    if Consecutive(log) && forall t :: t in log ==> OneCommit(t) {
      forall g
        ensures !GapIn(log, g)
      {
        forall i | 0 <= i < |log|
          ensures log[i].txSeq == log[0].txSeq + i
        {
          ConsecutiveAt(log, i);
        }
      }
    }
    if gaps == [] {
      forall i | 0 < i < |log|
        ensures log[i].txSeq == log[i - 1].txSeq + 1
      {
        var count: nat := (log[i].txSeq - log[i - 1].txSeq - 1) % U64;
        assert !GapIn(log, Missing(count, log[i - 1].txSeq, log[i].txSeq));
      }
      forall t | t in log
        ensures OneCommit(t)
      {
        assert !GapIn(log, Spans(t.txSeq, t.versionBefore, t.versionAfter));
      }
    }
  }

  method ScanLog(log: seq<Transaction>) returns (gaps: seq<Gap>)
    requires Ascending(KeysOf(SeqOf, log))
    ensures ReportsOn(log, gaps)
    ensures gaps == [] <==> Consecutive(log) && forall t :: t in log ==> OneCommit(t)
  {
    var seen: set<nat> := {};
    gaps := [];
    for i := 0 to |log|
      invariant SeenBefore(log, i, seen)
      invariant ReportsOn(log[..i], gaps)
    {
      var more := ReportAt(log, i, log[i].txSeq in seen);
      ReportsGrow(log, i, gaps, more);
      SeenGrows(log, i, seen);
      gaps := gaps + more;
      seen := seen + {log[i].txSeq};
    }
    assert log[..|log|] == log;
    NoGaps(log, gaps);
  }

  method HighestVersion(log: seq<Transaction>) returns (v: nat)
    ensures v == Highest(log)
  {
    v := 0;
    for i := 0 to |log|
      invariant v == Highest(log[..i])
    {
      assert log[..i + 1][..i] == log[..i];
      if log[i].versionAfter > v {
        v := log[i].versionAfter;
      }
    }
    assert log[..|log|] == log;
  }

  function Highest(log: seq<Transaction>): (v: nat)
    ensures forall t :: t in log ==> t.versionAfter <= v
    ensures v == 0 || exists t :: t in log && t.versionAfter == v
  {
    if log == [] then 0
    else
      var before := Highest(log[..|log| - 1]);
      assert log == log[..|log| - 1] + [log[|log| - 1]];
      assert log[|log| - 1] in log;
      if log[|log| - 1].versionAfter > before then log[|log| - 1].versionAfter else before
  }

  datatype LogReport = LogReport(gaps: seq<Gap>, short: seq<nat>, lowest: nat, highest: nat)

  /** A checkpoint that attests more entries than the log holds, at a version the log reaches. */
  predicate Attested(cp: Checkpoints.Checkpoint, highest: nat, reached: nat) {
    cp.txSeq != 0 && cp.txSeq > highest && cp.version <= reached
  }

  /** The gaps reported are those of the log put in order. */
  ghost predicate Reports(log: seq<Transaction>, gaps: seq<Gap>) {
    exists sorted :: multiset(sorted) == multiset(log) && Ascending(KeysOf(SeqOf, sorted)) && ReportsOn(sorted, gaps)
  }

  /** `verifyLogCompleteness` over the entries as given, in any order. */
  method VerifyLog(log: seq<Transaction>, anchors: seq<Checkpoints.Signed>) returns (r: Option<LogReport>)
    ensures r.None? <==> log == []
    ensures r.Some? ==>
      && (r.value.gaps == [] <==>
            Dense(log) && forall t :: t in log ==> t.versionAfter == 0 || t.versionAfter == t.versionBefore + 1)
      && Reports(log, r.value.gaps)
      && (forall t :: t in log ==> r.value.lowest <= t.txSeq <= r.value.highest)
      && (exists t :: t in log && t.txSeq == r.value.highest)
      && (r.value.short == [] <==> forall sc :: sc in anchors ==>
            !Attested(sc.checkpoint, r.value.highest, Highest(log)))
      && (forall v :: v in r.value.short <==> ShortAt(anchors, r.value.highest, Highest(log), v))
  {
    if log == [] {
      return None;
    }
    var sorted := Sort(SeqOf, log);
    SameMembers(sorted, log);
    DenseSorted(sorted);
    if Dense(sorted) {
      DenseSame(sorted, log);
    }
    if Dense(log) {
      DenseSame(log, sorted);
    }
    var gaps := ScanLog(sorted);
    var lowest, highest := sorted[0].txSeq, sorted[|sorted| - 1].txSeq;
    forall t | t in log
      ensures lowest <= t.txSeq <= highest
    {
      var i :| 0 <= i < |sorted| && sorted[i] == t;
      var keys := KeysOf(SeqOf, sorted);
      assert keys[0] <= keys[i] <= keys[|keys| - 1];
    }
    assert sorted[|sorted| - 1] in log;
    var reached := HighestVersion(sorted);
    HighestSame(sorted, log);
    var short := ScanAnchors(anchors, highest, reached);
    r := Some(LogReport(gaps, short, lowest, highest));
  }

  lemma HighestSame(a: seq<Transaction>, b: seq<Transaction>)
    requires multiset(a) == multiset(b)
    ensures Highest(a) == Highest(b)
  {
    SameMembers(a, b);
  }

  /** A checkpoint of this version counts more entries than the log holds, and the log reaches it. */
  ghost predicate ShortAt(anchors: seq<Checkpoints.Signed>, highest: nat, reached: nat, v: nat) {
    exists sc :: sc in anchors && sc.checkpoint.version == v && highest < sc.checkpoint.txSeq && v <= reached
  }

  method ScanAnchors(anchors: seq<Checkpoints.Signed>, highest: nat, reached: nat) returns (short: seq<nat>)
    ensures short == [] <==> forall sc :: sc in anchors ==> !Attested(sc.checkpoint, highest, reached)
    ensures forall v :: v in short <==> ShortAt(anchors, highest, reached, v)
  {
    short := [];
    for i := 0 to |anchors|
      invariant short == [] <==> forall k :: 0 <= k < i ==> !Attested(anchors[k].checkpoint, highest, reached)
      invariant forall v :: v in short <==>
        exists k :: 0 <= k < i && anchors[k].checkpoint.version == v && highest < anchors[k].checkpoint.txSeq && v <= reached
    {
      var cp := anchors[i].checkpoint;
      if cp.txSeq == 0 {
        continue;
      }
      if cp.txSeq > highest && cp.version <= reached {
        short := short + [cp.version];
      }
    }
  }

  // ---- what the completeness test can see --------------------------------------------------------

  /** A log as the register writes it: numbered from one, each action the next commit. */
  ghost predicate Written(log: seq<Transaction>) {
    && (forall i :: 0 <= i < |log| ==>
          log[i].txSeq == i + 1 && log[i].versionAfter == log[i].versionBefore + 1)
    && (forall i :: 0 < i < |log| ==> log[i - 1].versionAfter <= log[i].versionBefore)
  }

  /** A checkpoint over that log: it counts the entries committed up to its version. */
  ghost predicate Counts(log: seq<Transaction>, cp: Checkpoints.Checkpoint) {
    && cp.txSeq <= |log|
    && (forall i :: 0 <= i < |log| ==> (log[i].versionAfter <= cp.version <==> i < cp.txSeq))
  }

  lemma {:induction false} WrittenAscends(log: seq<Transaction>, i: nat, j: nat)
    requires Written(log) && i < j < |log|
    ensures log[i].versionAfter < log[j].versionAfter
    decreases j
  {
    if i < j - 1 {
      WrittenAscends(log, i, j - 1);
    }
  }

  /**
   The program's comment promises that the log cannot be shorter than a checkpoint says it was. The
   test does not deliver that: an honest log with any number of entries cut off its end is never
   flagged, whatever honest checkpoints it is held against, because a checkpoint that attests the
   missing entries is at a version the shortened log no longer reaches.
   */
  lemma TruncationUnseen(log: seq<Transaction>, kept: nat, cp: Checkpoints.Checkpoint)
    requires Written(log) && Counts(log, cp) && 0 < kept <= |log|
    ensures !Attested(cp, log[kept - 1].txSeq, Highest(log[..kept]))
  {
    var shorter := log[..kept];
    if cp.txSeq > kept {
      var t :| t in shorter && t.versionAfter == Highest(shorter);
      var i :| 0 <= i < kept && shorter[i] == t;
      WrittenAscends(log, i, cp.txSeq - 1);
      assert log[cp.txSeq - 1].versionAfter <= cp.version;
    }
  }

  /** The first entries of a log in which every action is the next commit. */
  function FirstEntries(n: nat): seq<Transaction> {
    seq(n, i requires 0 <= i < n => Transaction(i + 1, i, i + 1))
  }

  /** What the checkpoint at the end of such a log says. */
  function FinalCheckpoint(n: nat): Checkpoints.Checkpoint {
    Checkpoints.Checkpoint(n, "", "", 0, "", n, None)
  }

  /** One entry is left of `n`, the checkpoint still counts `n`, and every part of the test passes. */
  lemma ShortLogPasses(n: nat)
    requires n > 1
    ensures Written(FirstEntries(n)) && Counts(FirstEntries(n), FinalCheckpoint(n))
    ensures
      var left := FirstEntries(n)[..1];
      && FinalCheckpoint(n).txSeq == n > |left|
      && Dense(left) && (forall t :: t in left ==> OneCommit(t))
      && !Attested(FinalCheckpoint(n), left[0].txSeq, Highest(left))
  {
    var log := FirstEntries(n);
    assert Within(log[..1], 1);
    TruncationUnseen(log, 1, FinalCheckpoint(n));
  }

  /** What the test does catch: entries renumbered or removed while a later version stays in the log. */
  lemma LaterVersionSeen(log: seq<Transaction>, cp: Checkpoints.Checkpoint, t: Transaction)
    requires t in log && cp.version <= t.versionAfter
    requires forall e :: e in log ==> e.txSeq < cp.txSeq
    ensures forall highest :: (exists e :: e in log && e.txSeq == highest) ==> Attested(cp, highest, Highest(log))
  {
    assert t.versionAfter <= Highest(log);
    assert cp.txSeq != 0;
  }
}
