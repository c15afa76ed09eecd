/**
 What pruning and erasing take away (`internal/register/retention.go`), said of the rows before and after and of
 what was asked, without the query and the planning that get there.
 */
module RetentionMeanings {
  import opened Outcomes
  import opened Tables
  import opened Packs
  import opened RecordBuild
  import opened RecordInvariant
  import opened Workflows
  import opened WorkflowSafety
  import opened Runs
  import opened RunSafety
  import opened PeopleMeanings
  import R = RetentionPolicy
  import Canon

  // ---- pruning -------------------------------------------------------------------------------

  /**
   A version that a policy lets go of: superseded, of the policy's class, written before the window, of the object
   asked for if one was, and sealed if the policy covers personal data alone.
   */
  predicate Due(rec: Records, policy: Policy, at: int, objectId: Id, k: (Id, nat)) {
    && k in rec.versions && k.0 in rec.objects && k.1 < rec.objects[k.0].head && rec.objects[k.0].cls == policy.cls
    && rec.versions[k].createdAt + policy.windowDays * 86400 < at
    && (objectId == "" || objectId == k.0)
    && (policy.piiOnly ==> rec.versions[k].scope != NoScope)
  }

  /** The versions a step has pruned. */
  ghost function NewlyPruned(db: Db, now: Db): set<(Id, nat)> {
    set k | k in now.rec.versions && k in db.rec.versions && now.rec.versions[k].pruned && !db.rec.versions[k].pruned
  }

  /** A pruned version keeps its commitment and says under which policy its body went. */
  predicate Emptied(was: VersionRow, row: VersionRow, policy: string) {
    row == was.(body := None, pruned := true, policy := policy)
  }

  /** By record and by version. */
  predicate Sooner(a: (Id, nat), b: (Id, nat)) {
    Canon.Before(a.0, b.0) || (a.0 == b.0 && a.1 < b.1)
  }

  /** What a prune leaves of the versions. */
  ghost predicate VersionsLeft(db: Db, now: Db, policy: Policy, at: int, objectId: Id) {
    var gone := NewlyPruned(db, now);
    && now.rec.versions.Keys == db.rec.versions.Keys
    && (forall k :: k in gone ==> Due(db.rec, policy, at, objectId, k) && Emptied(db.rec.versions[k], now.rec.versions[k], policy.id))
    && (forall k :: k in db.rec.versions && k !in gone ==> now.rec.versions[k] == db.rec.versions[k])
  }

  predicate IsPruned(rec: Records, k: (Id, nat)) {
    k in rec.versions && rec.versions[k].pruned
  }

  /** What a prune takes: all that is due, or the first 5000 of it. */
  ghost predicate EnoughTaken(db: Db, now: Db, policy: Policy, at: int, objectId: Id) {
    var gone := NewlyPruned(db, now);
    && gone != {} && |gone| <= 5000
    && (|gone| < 5000 ==> forall k :: Due(db.rec, policy, at, objectId, k) ==> IsPruned(now.rec, k))
    && (forall k, g :: Due(db.rec, policy, at, objectId, k) && !IsPruned(now.rec, k) && g in gone ==> Sooner(g, k))
  }

  lemma DueIsEligible(rec: Records, policy: Policy, at: int, objectId: Id, k: (Id, nat))
    ensures R.Eligible(rec, policy, at, objectId, k) <==> Due(rec, policy, at, objectId, k) && !rec.versions[k].pruned
  {
  }

  lemma {:induction false} OrderedCount(rows: seq<(Id, nat)>)
    requires R.InOrder(rows)
    ensures |RowSet(rows)| == |rows|
    decreases |rows|
  {
    if rows != [] {
      var n := |rows| - 1;
      OrderedCount(rows[..n]);
      assert RowSet(rows) == RowSet(rows[..n]) + {rows[n]} by {
        forall k
          ensures k in RowSet(rows) <==> k in RowSet(rows[..n]) + {rows[n]}
        {
          assert k in rows <==> k in rows[..n] || k == rows[n];
        }
      }
      assert forall i :: 0 <= i < n ==> R.RowBefore(rows[i], rows[n]) && rows[i] != rows[n];
      assert rows[n] !in rows[..n];
    }
  }

  ghost function RowSet(rows: seq<(Id, nat)>): set<(Id, nat)> {
    set k | k in rows
  }

  /** The page that landed is what was pruned. */
  lemma PageIsGone(db: Db, now: Db, policy: Policy, at: int, objectId: Id, rows: seq<(Id, nat)>)
    requires R.IsPage(db.rec, policy, at, objectId, rows)
    requires R.VersionsPruned(db.rec.versions, now.rec.versions, rows, policy.id)
    ensures NewlyPruned(db, now) == RowSet(rows) && VersionsLeft(db, now, policy, at, objectId)
  {
    forall k
      ensures k in NewlyPruned(db, now) <==> k in RowSet(rows)
    {
      if k in rows {
        var i :| 0 <= i < |rows| && rows[i] == k;
        assert R.Eligible(db.rec, policy, at, objectId, rows[i]);
      }
    }
    forall k | k in RowSet(rows)
      ensures Due(db.rec, policy, at, objectId, k) && Emptied(db.rec.versions[k], now.rec.versions[k], policy.id)
    {
      var i :| 0 <= i < |rows| && rows[i] == k;
      assert R.Eligible(db.rec, policy, at, objectId, rows[i]);
    }
  }

  lemma PageIsEnough(db: Db, now: Db, policy: Policy, at: int, objectId: Id, rows: seq<(Id, nat)>)
    requires R.IsPage(db.rec, policy, at, objectId, rows) && rows != []
    requires R.VersionsPruned(db.rec.versions, now.rec.versions, rows, policy.id)
    ensures EnoughTaken(db, now, policy, at, objectId)
  {
    PageIsGone(db, now, policy, at, objectId, rows);
    OrderedCount(rows);
    assert rows[0] in RowSet(rows);
    forall k | Due(db.rec, policy, at, objectId, k) && !IsPruned(now.rec, k)
      ensures |rows| == 5000 && R.ComesAfter(rows, k)
    {
      DueIsEligible(db.rec, policy, at, objectId, k);
    }
    forall k, g | Due(db.rec, policy, at, objectId, k) && !IsPruned(now.rec, k) && g in NewlyPruned(db, now)
      ensures Sooner(g, k)
    {
      assert R.ComesAfter(rows, k);
      var i :| 0 <= i < |rows| && rows[i] == g;
      assert R.RowBefore(rows[i], k);
    }
  }

  /** Pruning touches versions and marks. */
  lemma {:induction false} PruneTouches(db: Db, tx: TxId, policy: Policy, at: int, rows: seq<(Id, nat)>, i: nat)
    requires Apply(db, tx, R.PruneOps(policy, at, rows, i)).Some?
    ensures
      var after := Apply(db, tx, R.PruneOps(policy, at, rows, i)).value;
      after == db.(rec := db.rec.(versions := after.rec.versions, marks := after.rec.marks))
    decreases |rows|
  {
    if rows != [] {
      var pair, rest := R.PrunePair(policy, at, rows[0], i), R.PruneOps(policy, at, rows[1..], i + 1);
      ApplyAppend(db, tx, pair, rest);
      assert pair == [pair[0]] + [pair[1]];
      ApplyAppend(db, tx, [pair[0]], [pair[1]]);
      ApplySingle(db, tx, pair[0]);
      ApplySingle(ApplyOne(db, tx, pair[0]).value, tx, pair[1]);
      PruneTouches(Apply(db, tx, pair).value, tx, policy, at, rows[1..], i + 1);
    }
  }

  /** Somebody who may, under a declared policy of a declared class, when something is due. */
  ghost predicate MayPrune(p: Pack, db: Db, a: Act, at: int)
    requires a.Prune?
  {
    && "retention" in a.who.perms && a.policyId in p.policies && p.policies[a.policyId].cls in p.classes
    && exists k :: Due(db.rec, p.policies[a.policyId], at, a.objectId, k) && !IsPruned(db.rec, k)
  }

  lemma PruneExactly(p: Pack, db: Db, c: Call)
    requires c.act.Prune? && Sound(p, db, c)
    ensures Plan(p, db, c).Ok? <==> MayPrune(p, db, c.act, c.at)
  {
    var a := c.act;
    if a.policyId in p.policies {
      if a.rows == [] {
        forall k
          ensures !(Due(db.rec, p.policies[a.policyId], c.at, a.objectId, k) && !IsPruned(db.rec, k))
        {
          DueIsEligible(db.rec, p.policies[a.policyId], c.at, a.objectId, k);
        }
      } else {
        DueIsEligible(db.rec, p.policies[a.policyId], c.at, a.objectId, a.rows[0]);
        assert Due(db.rec, p.policies[a.policyId], c.at, a.objectId, a.rows[0]) && !IsPruned(db.rec, a.rows[0]);
      }
    }
  }

  lemma PruneOpsOf(p: Pack, db: Db, c: Call, plan: Planned)
    requires c.act.Prune? && Plan(p, db, c) == Ok(plan)
    ensures "retention" in c.act.who.perms && c.act.policyId in p.policies && c.act.rows != []
    ensures plan == Planned(
      Envelope(RetentionPrune, c.act.who.sub, c.at, c.act.objectId, c.message),
      R.PruneOps(p.policies[c.act.policyId], c.at, c.act.rows, 0))
  {
  }

  /**
   A prune that acts is asked for by somebody who may, under a declared policy. It empties versions that are due and
   nothing else: all of them, or the first 5000; every one is marked, and no key, object or query row is touched.
   */
  lemma PruneMeans(p: Pack, db: Db, c: Call)
    requires c.act.Prune? && RecordSide(p, db) && PackOk(p) && Sound(p, db, c) && Acts(p, db, c)
    ensures "retention" in c.act.who.perms && c.act.policyId in p.policies
    ensures
      var a, now, policy := c.act, Step(p, db, c), p.policies[c.act.policyId];
      && Entered(db, now, Envelope(RetentionPrune, a.who.sub, c.at, a.objectId, c.message))
      && VersionsLeft(db, now, policy, c.at, a.objectId) && EnoughTaken(db, now, policy, c.at, a.objectId)
      && now == db.(rec := db.rec.(versions := now.rec.versions, marks := now.rec.marks), log := now.log)
      && (forall k :: k in NewlyPruned(db, now) ==> R.Marked(now.rec.marks, k))
  {
    var a := c.act;
    var plan := ActsBy(p, db, c);
    PruneOpsOf(p, db, c, plan);
    PruneDone(p, db, TxOf(p, plan), p.policies[a.policyId], c.at, a.objectId, a.rows);
  }

  lemma PageRows(p: Pack, db: Db, tx: TxId, policy: Policy, at: int, objectId: Id, rows: seq<(Id, nat)>)
    requires PackOk(p) && RecordSide(p, db) && tx !in db.log && policy.id in p.policies && p.policies[policy.id] == policy
    requires R.IsPage(db.rec, policy, at, objectId, rows)
    requires Apply(db, tx, R.PruneOps(policy, at, rows, 0)).Some?
    ensures
      var after := Apply(db, tx, R.PruneOps(policy, at, rows, 0)).value;
      && R.VersionsPruned(db.rec.versions, after.rec.versions, rows, policy.id)
      && (forall k :: k in rows ==> R.Marked(after.rec.marks, k))
  {
    assert R.MarksBelow(db.rec.marks, tx, 0);
    R.PageLands(p, db, tx, policy, at, objectId, rows, 0);
  }

  lemma PruneDone(p: Pack, db: Db, tx: TxId, policy: Policy, at: int, objectId: Id, rows: seq<(Id, nat)>)
    requires PackOk(p) && RecordSide(p, db) && tx !in db.log && policy.id in p.policies && p.policies[policy.id] == policy
    requires R.IsPage(db.rec, policy, at, objectId, rows) && rows != []
    requires Apply(db, tx, R.PruneOps(policy, at, rows, 0)).Some?
    ensures
      var now := Logged(Apply(db, tx, R.PruneOps(policy, at, rows, 0)).value, tx);
      && VersionsLeft(db, now, policy, at, objectId) && EnoughTaken(db, now, policy, at, objectId)
      && now == db.(rec := db.rec.(versions := now.rec.versions, marks := now.rec.marks), log := now.log)
      && (forall k :: k in NewlyPruned(db, now) ==> R.Marked(now.rec.marks, k))
  {
    PageRows(p, db, tx, policy, at, objectId, rows);
    PruneTouches(db, tx, policy, at, rows, 0);
    var now := Logged(Apply(db, tx, R.PruneOps(policy, at, rows, 0)).value, tx);
    PageIsGone(db, now, policy, at, objectId, rows);
    PageIsEnough(db, now, policy, at, objectId, rows);
  }

  // ---- erasing -------------------------------------------------------------------------------------

  /** Whoever may erase may erase a record of a class with a key per subject, once, under a policy of that class that permits it. */
  predicate MayErase(p: Pack, db: Db, who: Principal, o: Id, policyId: string) {
    && "erasure" in who.perms && policyId in p.policies && p.policies[policyId].erasure
    && o in db.rec.objects && db.rec.objects[o].cls in p.classes && db.rec.objects[o].cls == p.policies[policyId].cls
    && p.classes[db.rec.objects[o].cls].encryption.EncSubject? && !db.rec.objects[o].erased && SubjectKey(o) in db.deks
  }

  lemma EraseExactly(p: Pack, db: Db, c: Call)
    requires c.act.Erase?
    ensures Plan(p, db, c).Ok? <==> MayErase(p, db, c.act.who, c.act.objectId, c.act.policyId)
    ensures Plan(p, db, c).Ok? ==>
      var o := c.act.objectId;
      Plan(p, db, c).value == Planned(
        Envelope(Erasure, c.act.who.sub, c.at, o, c.message), R.EraseOps(o, db.rec.objects[o].head, c.act.policyId, c.at))
  {
  }

  /** An erasure destroys one record's key, marks the record and the versions it covers, and touches nothing else. */
  lemma EraseMeans(p: Pack, db: Db, c: Call)
    requires c.act.Erase? && c.at > 0
    ensures Acts(p, db, c) ==>
      var a, now := c.act, Step(p, db, c);
      && MayErase(p, db, a.who, a.objectId, a.policyId)
      && Entered(db, now, Envelope(Erasure, a.who.sub, c.at, a.objectId, c.message))
      && KeysBut(db.deks, now.deks, SubjectKey(a.objectId)) && !KeyLive(now.deks, SubjectKey(a.objectId))
      && (var ob := db.rec.objects[a.objectId];
          now == db.(
            rec := db.rec.(
              objects := db.rec.objects[a.objectId := ob.(erased := true, updatedAt := c.at, updatedTx := Latest(now))],
              marks := db.rec.marks[(Latest(now), 0) := Mark(a.objectId, 1, ob.head, a.policyId, ErasureRequest, c.at)]),
            deks := now.deks, log := now.log))
  {
    EraseExactly(p, db, c);
    if Acts(p, db, c) {
      var plan := ActsBy(p, db, c);
      R.ErasureLands(p, db, TxOf(p, plan), c.act.objectId, c.act.policyId, c.at);
    }
  }
}
