/**
 The two explicit ways content leaves the register (`internal/register/retention.go`): pruning
 versions past their window, and destroying one subject's key.
 */
module RetentionPolicy {
  import opened Outcomes
  import opened Tables
  import opened Packs
  import opened RecordBuild
  import opened RecordInvariant
  import opened RecordSafety
  import opened History
  import Canon

  const DAY: int := 86400
  const PAGE: nat := 5000

  // ---- pruning: what is asked for ---------------------------------------------------------

  function Horizon(policy: Policy, at: int): int {
    at - policy.windowDays * DAY
  }

  /** The `WHERE` clause of the prune query; an empty object id means every record of the class. */
  predicate Eligible(rec: Records, policy: Policy, at: int, objectId: Id, k: (Id, nat)) {
    && k in rec.versions && k.0 in rec.objects
    && rec.objects[k.0].cls == policy.cls
    && rec.versions[k].createdAt < Horizon(policy, at)
    && !rec.versions[k].pruned
    && k.1 < rec.objects[k.0].head
    && (objectId != "" ==> k.0 == objectId)
    && (policy.piiOnly ==> rec.versions[k].scope != NoScope)
  }

  /** `ORDER BY object_id, version` */
  predicate RowBefore(a: (Id, nat), b: (Id, nat)) {
    a != b && (Canon.Before(a.0, b.0) || (a.0 == b.0 && a.1 < b.1))
  }

  ghost predicate InOrder(rows: seq<(Id, nat)>) {
    forall i, j :: 0 <= i < j < |rows| ==> RowBefore(rows[i], rows[j])
  }

  /** The answer to the prune query: eligible versions in order, and of those that are missing none comes before the end of a full page. */
  ghost predicate IsPage(rec: Records, policy: Policy, at: int, objectId: Id, rows: seq<(Id, nat)>) {
    && |rows| <= PAGE && InOrder(rows)
    && (forall i :: 0 <= i < |rows| ==> Eligible(rec, policy, at, objectId, rows[i]))
    && (forall k :: Eligible(rec, policy, at, objectId, k) && k !in rows ==> |rows| == PAGE && ComesAfter(rows, k))
  }

  predicate ComesAfter(rows: seq<(Id, nat)>, k: (Id, nat)) {
    forall i :: 0 <= i < |rows| ==> RowBefore(rows[i], k)
  }

  lemma RowsOrdered(a: (Id, nat), b: (Id, nat), c: (Id, nat))
    ensures a == b || RowBefore(a, b) || RowBefore(b, a)
    ensures RowBefore(a, b) && RowBefore(b, c) ==> RowBefore(a, c)
  {
    Canon.BeforeTotal(a.0, b.0);
    Canon.BeforeTotal(a.0, c.0);
    if Canon.Before(a.0, b.0) && Canon.Before(b.0, c.0) {
      Canon.BeforeTransitive(a.0, b.0, c.0);
    }
  }

  function InsertRow(k: (Id, nat), rows: seq<(Id, nat)>): seq<(Id, nat)> {
    if rows == [] || RowBefore(k, rows[0]) then [k] + rows else [rows[0]] + InsertRow(k, rows[1..])
  }

  lemma {:induction false} InsertInOrder(k: (Id, nat), rows: seq<(Id, nat)>)
    requires InOrder(rows) && k !in rows
    ensures InOrder(InsertRow(k, rows)) && (forall x :: x in InsertRow(k, rows) <==> x == k || x in rows)
  {
    if rows != [] {
      var first, rest := rows[0], rows[1..];
      assert forall x :: x in rows <==> x == first || x in rest;
      if RowBefore(k, first) {
        forall i | 0 <= i < |rows|
          ensures RowBefore(k, rows[i])
        {
          RowsOrdered(k, first, rows[i]);
        }
      } else {
        RowsOrdered(k, first, k);
        InsertInOrder(k, rest);
        var more := InsertRow(k, rest);
        forall i | 0 <= i < |more|
          ensures RowBefore(first, more[i])
        {
          assert more[i] in more;
          if more[i] != k {
            var j :| 0 <= j < |rest| && rest[j] == more[i];
            assert rows[j + 1] == more[i];
          }
        }
      }
    }
  }

  /** The first page of an ordered answer. */
  lemma FirstPage(rec: Records, policy: Policy, at: int, objectId: Id, rows: seq<(Id, nat)>)
    requires InOrder(rows) && forall k :: k in rows <==> Eligible(rec, policy, at, objectId, k)
    ensures IsPage(rec, policy, at, objectId, if |rows| <= PAGE then rows else rows[..PAGE])
  {
    var page := if |rows| <= PAGE then rows else rows[..PAGE];
    forall i | 0 <= i < |page|
      ensures Eligible(rec, policy, at, objectId, page[i])
    {
      assert rows[i] in rows;
    }
    if |rows| > PAGE {
      forall k | Eligible(rec, policy, at, objectId, k) && k !in page
        ensures ComesAfter(page, k)
      {
        var j :| 0 <= j < |rows| && rows[j] == k;
        assert page == rows[..PAGE];
      }
    }
  }

  function MarkFor(policy: Policy, at: int, k: (Id, nat)): Mark {
    Mark(k.0, k.1, k.1, policy.id, Retention, at)
  }

  /** One version's pair of writes. */
  function PrunePair(policy: Policy, at: int, k: (Id, nat), i: nat): seq<Op> {
    [Rec(PruneVersion(k.0, k.1, policy.id)), Rec(PutMark(i, MarkFor(policy, at, k)))]
  }

  function PruneOps(policy: Policy, at: int, rows: seq<(Id, nat)>, i: nat): seq<Op>
    decreases |rows|
  {
    if rows == [] then [] else PrunePair(policy, at, rows[0], i) + PruneOps(policy, at, rows[1..], i + 1)
  }

  lemma {:induction false} PruneOpsLast(policy: Policy, at: int, rows: seq<(Id, nat)>, k: (Id, nat), i: nat)
    ensures PruneOps(policy, at, rows + [k], i) == PruneOps(policy, at, rows, i) + PrunePair(policy, at, k, i + |rows|)
    decreases |rows|
  {
    if rows == [] {
      assert rows + [k] == [k];
      assert PruneOps(policy, at, [k][1..], i + 1) == [];
    } else {
      assert (rows + [k])[1..] == rows[1..] + [k];
      PruneOpsLast(policy, at, rows[1..], k, i + 1);
    }
  }

  // ---- marks -----------------------------------------------------------------------------

  /** What a retention mark says, and that it was due when it was made. */
  predicate MarkOk(p: Pack, rec: Records, m: Mark) {
    m.reason.Retention? ==>
      && m.fromVersion == m.toVersion
      && (m.objectId, m.fromVersion) in rec.versions && m.objectId in rec.objects
      && m.policy in p.policies && p.policies[m.policy].id == m.policy
      && p.policies[m.policy].cls == rec.objects[m.objectId].cls
      && (var row := rec.versions[(m.objectId, m.fromVersion)];
          && row.pruned && row.policy == m.policy
          && row.createdAt < Horizon(p.policies[m.policy], m.at)
          && m.fromVersion < rec.objects[m.objectId].head)
  }

  predicate Names(m: Mark, k: (Id, nat)) {
    m.reason.Retention? && m.objectId == k.0 && m.fromVersion == k.1
  }

  ghost predicate Marked(marks: map<(TxId, nat), Mark>, k: (Id, nat)) {
    exists i :: i in marks && Names(marks[i], k)
  }

  /** Pruned versions and retention marks correspond one to one. */
  ghost predicate MarksOk(p: Pack, rec: Records) {
    && (forall i :: i in rec.marks ==> MarkOk(p, rec, rec.marks[i]))
    && (forall k :: k in rec.versions && rec.versions[k].pruned ==> Marked(rec.marks, k))
    && (forall i, j, k: (Id, nat) :: i in rec.marks && j in rec.marks && Names(rec.marks[i], k) && Names(rec.marks[j], k) ==> i == j)
  }

  /** A mark's key carries the transaction that wrote it, so a new transaction's keys are free. */
  ghost predicate MarksLogged(marks: map<(TxId, nat), Mark>, log: seq<TxId>) {
    forall i :: i in marks ==> i.0 in log
  }

  // ---- pruning: one version ------------------------------------------------------------------

  function PrunedRow(row: VersionRow, policy: string): VersionRow {
    row.(body := None, pruned := true, policy := policy)
  }

  function PrunedOne(rec: Records, policy: Policy, at: int, k: (Id, nat), mk: (TxId, nat)): Records
    requires k in rec.versions
  {
    rec.(versions := rec.versions[k := PrunedRow(rec.versions[k], policy.id)],
         marks := rec.marks[mk := MarkFor(policy, at, k)])
  }

  lemma PairLands(db: Db, tx: TxId, policy: Policy, at: int, k: (Id, nat), i: nat)
    requires k in db.rec.versions
    ensures
      Apply(db, tx, PrunePair(policy, at, k, i)) == Some(db.(rec := PrunedOne(db.rec, policy, at, k, (tx, i))))
  {
    var ops := PrunePair(policy, at, k, i);
    ApplyAppend(db, tx, [ops[0]], [ops[1]]);
    ApplySingle(db, tx, ops[0]);
    ApplySingle(ApplyOne(db, tx, ops[0]).value, tx, ops[1]);
  }

  lemma PrunedObject(p: Pack, rec: Records, deks: map<Scope, Dek>, policy: Policy, at: int, k: (Id, nat), mk: (TxId, nat), o: Id)
    requires o in rec.objects && ObjectOk(p, rec, deks, o)
    requires k in rec.versions && k.0 in rec.objects && k.1 < rec.objects[k.0].head
    ensures ObjectOk(p, PrunedOne(rec, policy, at, k, mk), deks, o)
  {
    var now, ob := PrunedOne(rec, policy, at, k, mk), rec.objects[o];
    var c := p.classes[ob.cls];
    forall v | 1 <= v <= ob.head
      ensures (o, v) in now.versions && VersionOk(c, deks, o, v, now.versions[(o, v)])
    {
      assert VersionOk(c, deks, o, v, rec.versions[(o, v)]);
    }
  }

  lemma PruneKeepsTables(p: Pack, rec: Records, policy: Policy, at: int, k: (Id, nat), mk: (TxId, nat))
    requires VersionsOwned(rec.objects, rec.versions) && ReferencesHold(p, rec.objects, rec.versions)
    requires k in rec.versions
    ensures
      var now := PrunedOne(rec, policy, at, k, mk);
      VersionsOwned(now.objects, now.versions) && ReferencesHold(p, now.objects, now.versions)
  {
    var now := PrunedOne(rec, policy, at, k, mk);
    forall j | j in now.versions
      ensures PayloadResolves(p, now.objects, j.0, now.versions[j].hash.payload)
    {
      assert PayloadResolves(p, rec.objects, j.0, rec.versions[j].hash.payload);
    }
  }

  lemma PruneOnward(rec: Records, deks: map<Scope, Dek>, policy: Policy, at: int, k: (Id, nat), mk: (TxId, nat))
    requires k in rec.versions && !rec.versions[k].pruned && mk !in rec.marks
    ensures RecordsOnward(rec, deks, PrunedOne(rec, policy, at, k, mk), deks)
  {
  }

  lemma PruneKeepsObjects(
    p: Pack, rec: Records, deks: map<Scope, Dek>, policy: Policy, at: int, k: (Id, nat), mk: (TxId, nat))
    requires ObjectsOk(p, rec, deks)
    requires k in rec.versions && k.0 in rec.objects && k.1 < rec.objects[k.0].head
    ensures ObjectsOk(p, PrunedOne(rec, policy, at, k, mk), deks)
  {
    forall o | o in rec.objects
      ensures ObjectOk(p, PrunedOne(rec, policy, at, k, mk), deks, o)
    {
      PrunedObject(p, rec, deks, policy, at, k, mk, o);
    }
  }

  lemma PruneKeepsRecords(
    p: Pack, rec: Records, deks: map<Scope, Dek>, policy: Policy, at: int, k: (Id, nat), mk: (TxId, nat))
    requires RecordsOk(p, rec, deks)
    requires k in rec.versions && k.0 in rec.objects && k.1 < rec.objects[k.0].head
    ensures RecordsOk(p, PrunedOne(rec, policy, at, k, mk), deks)
  {
    PruneKeepsObjects(p, rec, deks, policy, at, k, mk);
    PruneKeepsTables(p, rec, policy, at, k, mk);
  }

  lemma PruneKeepsMarks(p: Pack, rec: Records, policy: Policy, at: int, objectId: Id, k: (Id, nat), mk: (TxId, nat))
    requires MarksOk(p, rec) && Eligible(rec, policy, at, objectId, k) && mk !in rec.marks
    requires policy.id in p.policies && p.policies[policy.id] == policy
    ensures MarksOk(p, PrunedOne(rec, policy, at, k, mk))
  {
    var now := PrunedOne(rec, policy, at, k, mk);
    forall i | i in now.marks
      ensures MarkOk(p, now, now.marks[i])
    {
      if i != mk {
        assert MarkOk(p, rec, rec.marks[i]);
      }
    }
    forall j | j in now.versions && now.versions[j].pruned
      ensures Marked(now.marks, j)
    {
      if j == k {
        assert Names(now.marks[mk], k);
      } else {
        var i :| i in rec.marks && Names(rec.marks[i], j);
        assert i in now.marks && Names(now.marks[i], j);
      }
    }
    forall i | i in rec.marks
      ensures !Names(rec.marks[i], k)
    {
      assert MarkOk(p, rec, rec.marks[i]);
    }
  }

  // ---- pruning: the page --------------------------------------------------------------------------

  ghost predicate StillEligible(rec: Records, policy: Policy, at: int, objectId: Id, rows: seq<(Id, nat)>) {
    && (forall i, j :: 0 <= i < j < |rows| ==> rows[i] != rows[j])
    && (forall i :: 0 <= i < |rows| ==> Eligible(rec, policy, at, objectId, rows[i]))
  }

  lemma EligibleOnward(rec: Records, policy: Policy, at: int, objectId: Id, rows: seq<(Id, nat)>, mk: (TxId, nat))
    requires rows != [] && StillEligible(rec, policy, at, objectId, rows)
    ensures StillEligible(PrunedOne(rec, policy, at, rows[0], mk), policy, at, objectId, rows[1..])
  {
    var now, rest := PrunedOne(rec, policy, at, rows[0], mk), rows[1..];
    forall i | 0 <= i < |rest|
      ensures Eligible(now, policy, at, objectId, rest[i])
    {
      assert rest[i] == rows[i + 1] && Eligible(rec, policy, at, objectId, rows[i + 1]);
    }
  }

  /** What pruning a list of versions does to the version table, and to nothing else of it. */
  ghost predicate VersionsPruned(
    before: map<(Id, nat), VersionRow>, now: map<(Id, nat), VersionRow>, rows: seq<(Id, nat)>, policy: string)
  {
    forall k :: (k in now <==> k in before)
      && (k in now ==> now[k] == if k in rows then PrunedRow(before[k], policy) else before[k])
  }

  ghost predicate MarksTagged(before: map<(TxId, nat), Mark>, now: map<(TxId, nat), Mark>, tx: TxId) {
    forall mk :: mk in now ==> mk in before || mk.0 == tx
  }

  ghost predicate MarksBelow(marks: map<(TxId, nat), Mark>, tx: TxId, i: nat) {
    forall mk :: mk in marks && mk.0 == tx ==> mk.1 < i
  }

  /** A page of prunes has landed on a state: every agreement holds and the versions named are pruned. */
  ghost predicate PageLanded(p: Pack, db: Db, after: Db, tx: TxId, policy: Policy, rows: seq<(Id, nat)>) {
    && after == db.(rec := after.rec) && after.rec.objects == db.rec.objects
    && RecordsOk(p, after.rec, db.deks) && MarksOk(p, after.rec)
    && RecordsOnward(db.rec, db.deks, after.rec, db.deks)
    && VersionsPruned(db.rec.versions, after.rec.versions, rows, policy.id)
    && MarksTagged(db.rec.marks, after.rec.marks, tx)
  }

  lemma PageGrows(
    p: Pack, db: Db, mid: Db, after: Db, tx: TxId, policy: Policy, at: int, rows: seq<(Id, nat)>, i: nat)
    requires rows != [] && rows[0] in db.rec.versions && rows[0] !in rows[1..]
    requires mid == db.(rec := PrunedOne(db.rec, policy, at, rows[0], (tx, i)))
    requires RecordsOnward(db.rec, db.deks, mid.rec, mid.deks)
    requires PageLanded(p, mid, after, tx, policy, rows[1..])
    ensures PageLanded(p, db, after, tx, policy, rows)
  {
    OnwardChain(db.rec, db.deks, mid.rec, db.deks, after.rec, db.deks);
    forall k
      ensures k in after.rec.versions <==> k in db.rec.versions
      ensures k in after.rec.versions ==>
        after.rec.versions[k] ==
        if k in rows then PrunedRow(db.rec.versions[k], policy.id) else db.rec.versions[k]
    {
      assert k in rows <==> k == rows[0] || k in rows[1..];
      assert k in after.rec.versions <==> k in mid.rec.versions;
    }
  }

  /** A state a page can still be landed on. */
  ghost predicate PageReady(p: Pack, db: Db, tx: TxId, policy: Policy, at: int, objectId: Id, rows: seq<(Id, nat)>, i: nat) {
    && RecordsOk(p, db.rec, db.deks) && MarksOk(p, db.rec)
    && policy.id in p.policies && p.policies[policy.id] == policy
    && StillEligible(db.rec, policy, at, objectId, rows) && MarksBelow(db.rec.marks, tx, i)
  }

  lemma NextMark(marks: map<(TxId, nat), Mark>, tx: TxId, i: nat, m: Mark)
    requires MarksBelow(marks, tx, i)
    ensures (tx, i) !in marks && MarksBelow(marks[(tx, i) := m], tx, i + 1)
  {
  }

  lemma HeadOnce(rec: Records, policy: Policy, at: int, objectId: Id, rows: seq<(Id, nat)>)
    requires StillEligible(rec, policy, at, objectId, rows) && rows != []
    ensures Eligible(rec, policy, at, objectId, rows[0]) && rows[0] !in rows[1..]
  {
  }

  lemma PageStep(p: Pack, db: Db, tx: TxId, policy: Policy, at: int, objectId: Id, rows: seq<(Id, nat)>, i: nat)
    requires PageReady(p, db, tx, policy, at, objectId, rows, i) && rows != []
    ensures rows[0] in db.rec.versions && rows[0] !in rows[1..]
    ensures
      var mid := db.(rec := PrunedOne(db.rec, policy, at, rows[0], (tx, i)));
      && PageReady(p, mid, tx, policy, at, objectId, rows[1..], i + 1)
      && RecordsOnward(db.rec, db.deks, mid.rec, mid.deks)
  {
    var k := rows[0];
    HeadOnce(db.rec, policy, at, objectId, rows);
    NextMark(db.rec.marks, tx, i, MarkFor(policy, at, k));
    PruneKeepsRecords(p, db.rec, db.deks, policy, at, k, (tx, i));
    PruneKeepsMarks(p, db.rec, policy, at, objectId, k, (tx, i));
    PruneOnward(db.rec, db.deks, policy, at, k, (tx, i));
    EligibleOnward(db.rec, policy, at, objectId, rows, (tx, i));
  }

  lemma {:induction false} PageLands(
    p: Pack, db: Db, tx: TxId, policy: Policy, at: int, objectId: Id, rows: seq<(Id, nat)>, i: nat)
    requires PageReady(p, db, tx, policy, at, objectId, rows, i)
    ensures Apply(db, tx, PruneOps(policy, at, rows, i)).Some?
    ensures PageLanded(p, db, Apply(db, tx, PruneOps(policy, at, rows, i)).value, tx, policy, rows)
    decreases |rows|
  {
    if rows == [] {
      OnwardSelf(db.rec, db.deks);
    } else {
      PageStep(p, db, tx, policy, at, objectId, rows, i);
      var mid := db.(rec := PrunedOne(db.rec, policy, at, rows[0], (tx, i)));
      PairLands(db, tx, policy, at, rows[0], i);
      ApplyAppend(db, tx, PrunePair(policy, at, rows[0], i), PruneOps(policy, at, rows[1..], i + 1));
      PageLands(p, mid, tx, policy, at, objectId, rows[1..], i + 1);
      PageGrows(p, db, mid, Apply(mid, tx, PruneOps(policy, at, rows[1..], i + 1)).value, tx, policy, at, rows, i);
    }
  }

  // ---- counting --------------------------------------------------------------------------------------

  function PrunedBy(rec: Records, policy: string): set<(Id, nat)> {
    set k | k in rec.versions && rec.versions[k].pruned && rec.versions[k].policy == policy
  }

  function MarksBy(rec: Records, policy: string): set<(TxId, nat)> {
    set i | i in rec.marks && rec.marks[i].reason.Retention? && rec.marks[i].policy == policy
  }

  function Marks(rec: Records, i: (TxId, nat)): (Id, nat) {
    if i in rec.marks then (rec.marks[i].objectId, rec.marks[i].fromVersion) else ("", 0)
  }

  /** Equal counts, from a function that is one to one and onto. */
  lemma {:induction false} CountsMatch(f: ((TxId, nat)) -> (Id, nat), xs: set<(TxId, nat)>, ys: set<(Id, nat)>)
    requires forall a, b :: a in xs && b in xs && f(a) == f(b) ==> a == b
    requires forall a :: a in xs ==> f(a) in ys
    requires forall y :: y in ys ==> exists a :: a in xs && f(a) == y
    ensures |xs| == |ys|
    decreases |xs|
  {
    if xs == {} {
      assert ys == {};
    } else {
      var a :| a in xs;
      CountsMatch(f, xs - {a}, ys - {f(a)});
    }
  }

  /** After any run, as many versions are pruned under a policy as there are retention marks naming it. */
  lemma RetentionConserves(p: Pack, rec: Records, policy: string)
    requires MarksOk(p, rec)
    ensures |PrunedBy(rec, policy)| == |MarksBy(rec, policy)|
  {
    var xs, ys := MarksBy(rec, policy), PrunedBy(rec, policy);
    var f := (i: (TxId, nat)) => Marks(rec, i);
    forall i | i in xs
      ensures f(i) in ys && Names(rec.marks[i], f(i))
    {
      assert MarkOk(p, rec, rec.marks[i]);
    }
    forall a, b | a in xs && b in xs && f(a) == f(b)
      ensures a == b
    {
      assert Names(rec.marks[a], f(a)) && Names(rec.marks[b], f(a));
    }
    forall y | y in ys
      ensures exists a :: a in xs && f(a) == y
    {
      var a :| a in rec.marks && Names(rec.marks[a], y);
      assert MarkOk(p, rec, rec.marks[a]);
      assert a in xs && f(a) == y;
    }
    CountsMatch(f, xs, ys);
  }

  // ---- erasure -----------------------------------------------------------------------------------------

  function EraseOps(o: Id, head: nat, policy: string, at: int): seq<Op> {
    [DestroyKey(SubjectKey(o), at),
     Rec(EraseObject(o, at)),
     Rec(PutMark(0, Mark(o, 1, head, policy, ErasureRequest, at)))]
  }

  /** The checks of `Erase`, in its order. */
  function PlanErasure(p: Pack, db: Db, o: Id, policyId: string, at: int): Result<seq<Op>, Refusal> {
    if policyId !in p.policies then Err(Refused("policy"))
    else if !p.policies[policyId].erasure then Err(Refused("policy does not permit erasure"))
    else if o !in db.rec.objects then Err(Refused("not registered"))
    else
      var ob := db.rec.objects[o];
      if ob.cls !in p.classes then Err(Refused("class"))
      else if ob.cls != p.policies[policyId].cls then Err(Refused("policy covers another class"))
      else if !p.classes[ob.cls].encryption.EncSubject? then Err(Refused("no key per subject"))
      else if ob.erased then Err(Refused("already erased"))
      else if SubjectKey(o) !in db.deks then Err(Refused("nothing to erase"))
      else Ok(EraseOps(o, ob.head, policyId, at))
  }

  function ErasedDb(db: Db, tx: TxId, o: Id, policy: string, at: int): Db
    requires o in db.rec.objects && SubjectKey(o) in db.deks
  {
    var ob, dek := db.rec.objects[o], db.deks[SubjectKey(o)];
    db.(rec := db.rec.(
          objects := db.rec.objects[o := ob.(erased := true, updatedAt := at, updatedTx := tx)],
          marks := db.rec.marks[(tx, 0) := Mark(o, 1, ob.head, policy, ErasureRequest, at)]),
        deks := db.deks[SubjectKey(o) := dek.(opWrap := NoWrap, recWrap := NoWrap, destroyedAt := at)])
  }

  lemma ErasureLands(p: Pack, db: Db, tx: TxId, o: Id, policyId: string, at: int)
    requires PlanErasure(p, db, o, policyId, at).Ok?
    ensures Apply(db, tx, PlanErasure(p, db, o, policyId, at).value) == Some(ErasedDb(db, tx, o, policyId, at))
  {
    var ops := PlanErasure(p, db, o, policyId, at).value;
    assert ops == [ops[0]] + ([ops[1]] + [ops[2]]);
    ApplyAppend(db, tx, [ops[0]], [ops[1]] + [ops[2]]);
    ApplySingle(db, tx, ops[0]);
    var one := ApplyOne(db, tx, ops[0]).value;
    ApplyAppend(one, tx, [ops[1]], [ops[2]]);
    ApplySingle(one, tx, ops[1]);
    ApplySingle(ApplyOne(one, tx, ops[1]).value, tx, ops[2]);
  }

  lemma ErasedOwn(p: Pack, db: Db, tx: TxId, o: Id, policyId: string, at: int)
    requires PlanErasure(p, db, o, policyId, at).Ok? && at > 0 && ObjectOk(p, db.rec, db.deks, o)
    ensures
      var now := ErasedDb(db, tx, o, policyId, at);
      ObjectOk(p, now.rec, now.deks, o)
  {
    var now, ob := ErasedDb(db, tx, o, policyId, at), db.rec.objects[o];
    var c := p.classes[ob.cls];
    forall v | 1 <= v <= ob.head
      ensures (o, v) in now.rec.versions && VersionOk(c, now.deks, o, v, now.rec.versions[(o, v)])
    {
      assert VersionOk(c, db.deks, o, v, db.rec.versions[(o, v)]);
    }
  }

  lemma TouchKeepsTables(p: Pack, rec: Records, o: Id, ob: ObjectRow)
    requires o in rec.objects && ob.cls == rec.objects[o].cls && ob.naturalKey == rec.objects[o].naturalKey
    requires ob.head == rec.objects[o].head
    requires VersionsOwned(rec.objects, rec.versions) && QueriesOwned(p, rec.objects, rec.query)
    requires KeysUnique(rec.objects) && KeysAgree(p, rec.objects, rec.keys)
    ensures
      var now := rec.objects[o := ob];
      VersionsOwned(now, rec.versions) && QueriesOwned(p, now, rec.query) && KeysUnique(now) && KeysAgree(p, now, rec.keys)
  {
    var now := rec.objects[o := ob];
    forall k | k in rec.keys
      ensures EntryRight(p, now, k, rec.keys[k])
    {
      assert EntryRight(p, rec.objects, k, rec.keys[k]);
    }
    forall q | q in now
      ensures Indexed(p, rec.keys, q, now[q])
    {
      assert Indexed(p, rec.keys, q, rec.objects[q]);
    }
  }

  lemma TouchKeepsReferences(p: Pack, rec: Records, o: Id, ob: ObjectRow)
    requires o in rec.objects && ob.cls == rec.objects[o].cls
    requires ReferencesHold(p, rec.objects, rec.versions)
    ensures ReferencesHold(p, rec.objects[o := ob], rec.versions)
  {
    var now := rec.objects[o := ob];
    forall k | k in rec.versions
      ensures PayloadResolves(p, now, k.0, rec.versions[k].hash.payload)
    {
      assert PayloadResolves(p, rec.objects, k.0, rec.versions[k].hash.payload);
      if k.0 in rec.objects && rec.objects[k.0].cls in p.classes {
        ReferencesGrow(p, rec.objects, now, p.classes[rec.objects[k.0].cls], rec.versions[k].hash.payload);
      }
    }
  }

  lemma ErasedOther(p: Pack, db: Db, tx: TxId, o: Id, policyId: string, at: int, q: Id)
    requires PlanErasure(p, db, o, policyId, at).Ok? && q in db.rec.objects && q != o && ObjectOk(p, db.rec, db.deks, q)
    ensures
      var now := ErasedDb(db, tx, o, policyId, at);
      ObjectOk(p, now.rec, now.deks, q)
  {
    var now := ErasedDb(db, tx, o, policyId, at);
    ObjectOffKey(p, db.rec, db.deks, now.rec, now.deks, q, SubjectKey(o));
  }

  lemma ErasedOthers(p: Pack, db: Db, tx: TxId, o: Id, policyId: string, at: int)
    requires PlanErasure(p, db, o, policyId, at).Ok? && at > 0 && ObjectsOk(p, db.rec, db.deks)
    ensures
      var now := ErasedDb(db, tx, o, policyId, at);
      ObjectsOk(p, now.rec, now.deks)
  {
    var now := ErasedDb(db, tx, o, policyId, at);
    forall q | q in now.rec.objects
      ensures ObjectOk(p, now.rec, now.deks, q)
    {
      assert ObjectOk(p, db.rec, db.deks, q);
      if q == o {
        ErasedOwn(p, db, tx, o, policyId, at);
      } else {
        ErasedOther(p, db, tx, o, policyId, at, q);
      }
    }
  }

  lemma ErasedKeys(p: Pack, db: Db, tx: TxId, o: Id, policyId: string, at: int)
    requires PlanErasure(p, db, o, policyId, at).Ok? && at > 0 && DeksOk(db.deks)
    requires SubjectsOwned(p, db.rec.objects, db.deks)
    ensures
      var now := ErasedDb(db, tx, o, policyId, at);
      DeksOk(now.deks) && SubjectsOwned(p, now.rec.objects, now.deks)
  {
    var now := ErasedDb(db, tx, o, policyId, at);
    forall s | s in now.deks
      ensures DekOk(s, now.deks[s]) && SubjectOwned(p, now.rec.objects, s)
    {
      assert DekOk(s, db.deks[s]) && SubjectOwned(p, db.rec.objects, s);
    }
  }

  lemma ErasureOnward(p: Pack, db: Db, tx: TxId, o: Id, policyId: string, at: int)
    requires PlanErasure(p, db, o, policyId, at).Ok? && at > 0 && (tx, 0) !in db.rec.marks
    requires ObjectOk(p, db.rec, db.deks, o)
    ensures
      var now := ErasedDb(db, tx, o, policyId, at);
      && RecordsOnward(db.rec, db.deks, now.rec, now.deks)
      && now.rec.objects[o].erased && !now.deks[SubjectKey(o)].Live()
  {
    var now := ErasedDb(db, tx, o, policyId, at);
    assert SubjectOk(p.classes[db.rec.objects[o].cls], db.deks, o, db.rec.objects[o]);
    assert DekOnward(db.deks[SubjectKey(o)], now.deks[SubjectKey(o)]);
  }

  /** An erasure keeps every agreement; it takes one key and sets one flag. */
  lemma ErasureKeeps(p: Pack, db: Db, tx: TxId, o: Id, policyId: string, at: int)
    requires RecordsOk(p, db.rec, db.deks) && PlanErasure(p, db, o, policyId, at).Ok? && at > 0
    ensures
      var now := ErasedDb(db, tx, o, policyId, at);
      RecordsOk(p, now.rec, now.deks)
  {
    ErasedOthers(p, db, tx, o, policyId, at);
    ErasedKeys(p, db, tx, o, policyId, at);
    TouchKeepsTables(p, db.rec, o, ErasedDb(db, tx, o, policyId, at).rec.objects[o]);
    TouchKeepsReferences(p, db.rec, o, ErasedDb(db, tx, o, policyId, at).rec.objects[o]);
  }

  lemma ErasureKeepsMarks(p: Pack, db: Db, tx: TxId, o: Id, policyId: string, at: int)
    requires PlanErasure(p, db, o, policyId, at).Ok? && MarksOk(p, db.rec) && (tx, 0) !in db.rec.marks
    ensures MarksOk(p, ErasedDb(db, tx, o, policyId, at).rec)
  {
    var rec, now := db.rec, ErasedDb(db, tx, o, policyId, at).rec;
    forall i | i in now.marks
      ensures MarkOk(p, now, now.marks[i])
    {
      if i != (tx, 0) {
        assert MarkOk(p, rec, rec.marks[i]);
      }
    }
    forall k | k in now.versions && now.versions[k].pruned
      ensures Marked(now.marks, k)
    {
      var i :| i in rec.marks && Names(rec.marks[i], k);
      assert i in now.marks && Names(now.marks[i], k);
    }
  }

  /** Nothing but a prune or an erasure touches the marks, so landing records keeps them too. */
  lemma MarksFollow(p: Pack, rec: Records, deks: map<Scope, Dek>, now: Records, more: map<Scope, Dek>)
    requires MarksOk(p, rec) && RecordsOnward(rec, deks, now, more) && now.marks == rec.marks
    requires forall k :: k in now.versions && now.versions[k].pruned ==> k in rec.versions && rec.versions[k].pruned
    ensures MarksOk(p, now)
  {
    forall i | i in now.marks
      ensures MarkOk(p, now, now.marks[i])
    {
      var m := rec.marks[i];
      assert MarkOk(p, rec, m);
      if m.reason.Retention? {
        assert VersionOnward(rec.versions[(m.objectId, m.fromVersion)], now.versions[(m.objectId, m.fromVersion)]);
        assert ObjectOnward(rec.objects[m.objectId], now.objects[m.objectId]);
      }
    }
  }
}
