/**
 A write set is built in full against one state and lands later as a whole. When that is as good as
 checking each change against the state the one before it left, and what happens when it is not.
 */
module Batch {
  import opened Outcomes
  import opened Tables
  import opened Packs
  import opened RecordBuild
  import opened RecordInvariant
  import opened RecordSafety

  // ---- building and landing many changes -----------------------------------------------

  /** A created object can be referred to by what the same write set does next. */
  function After(w: WriteCtx, d: Draft): WriteCtx {
    if d.version == 1 then w.(pending := w.pending[d.objectId := d.cls.name]) else w
  }

  /** Every change built against the same state. */
  function BuildAll(p: Pack, db: Db, w: WriteCtx, drafts: seq<Draft>): Result<seq<Op>, Refusal>
    decreases |drafts|
  {
    if drafts == [] then Ok([])
    else
      var ops :- BuildRecord(p, db, w, drafts[0]);
      var rest :- BuildAll(p, db, After(w, drafts[0]), drafts[1..]);
      Ok(ops + rest)
  }

  /** Every change built for, and landed on, the state the one before it left; nothing is pending. */
  function LandAll(p: Pack, db: Db, tx: TxId, w: WriteCtx, drafts: seq<Draft>): Result<Db, Refusal>
    decreases |drafts|
  {
    if drafts == [] then Ok(db)
    else
      var ops :- BuildRecord(p, db, w.(pending := map[]), drafts[0]);
      var next := Apply(db, tx, ops);
      if next.None? then Err(NotApplied) else LandAll(p, next.value, tx, w, drafts[1..])
  }

  // ---- what a caller can check of a batch --------------------------------------------------

  /** No two changes address one object. */
  ghost predicate Distinct(drafts: seq<Draft>) {
    forall i, j :: 0 <= i < j < |drafts| ==> drafts[i].objectId != drafts[j].objectId
  }

  predicate Mints(deks: map<Scope, Dek>, d: Draft) {
    !d.cls.encryption.EncNone? && DekScope(d.cls, d.objectId) !in deks
  }

  /** No two changes need the same key that does not exist yet. */
  ghost predicate MintsOnce(deks: map<Scope, Dek>, drafts: seq<Draft>) {
    forall i, j :: 0 <= i < j < |drafts| ==> !MintTogether(deks, drafts[i], drafts[j])
  }

  predicate MintTogether(deks: map<Scope, Dek>, a: Draft, b: Draft) {
    Mints(deks, a) && Mints(deks, b) && DekScope(a.cls, a.objectId) == DekScope(b.cls, b.objectId)
  }

  ghost predicate AllProper(p: Pack, objects: map<Id, ObjectRow>, drafts: seq<Draft>) {
    forall i :: 0 <= i < |drafts| ==>
      && Proper(p, objects, drafts[i])
      && GivenKey(p, drafts[i]) != ""
  }

  // ---- what a batch sees of the state it lands on ---------------------------------------------

  /** For one change, the state it was built against and the state it lands on look the same. */
  predicate Agrees(pre: Db, now: Db, d: Draft) {
    && (d.objectId in pre.rec.objects <==> d.objectId in now.rec.objects)
    && (d.objectId in pre.rec.objects ==> pre.rec.objects[d.objectId] == now.rec.objects[d.objectId])
    && (!d.cls.encryption.EncNone? ==>
          var s := DekScope(d.cls, d.objectId);
          && (s in pre.deks <==> s in now.deks)
          && (s in pre.deks ==> pre.deks[s] == now.deks[s]))
  }

  ghost predicate AllAgree(pre: Db, now: Db, drafts: seq<Draft>) {
    forall i :: 0 <= i < |drafts| ==> Agrees(pre, now, drafts[i])
  }

  ghost predicate PendingLanded(pending: map<Id, string>, objects: map<Id, ObjectRow>) {
    forall t :: t in pending ==> t in objects && objects[t].cls == pending[t]
  }

  lemma PendingResolves(
    p: Pack, objects: map<Id, ObjectRow>, now: map<Id, ObjectRow>, pending: map<Id, string>, c: Class, payload: Payload)
    requires ReferencesOk(p, objects, pending, c, payload)
    requires PendingLanded(pending, now) && ClassesExtend(objects, now)
    ensures ReferencesOk(p, now, map[], c, payload)
  {
    forall prop | prop in c.references && prop in payload
      ensures ReferenceOk(p, now, map[], payload[prop], c.references[prop])
    {
      assert ReferenceOk(p, objects, pending, payload[prop], c.references[prop]);
    }
  }

  lemma BuiltParts(p: Pack, db: Db, w: WriteCtx, d: Draft)
    requires BuildRecord(p, db, w, d).Ok?
    ensures p.accepts(d.cls.name, d.payload) && ReferencesOk(p, db.rec.objects, w.pending, d.cls, d.payload)
    ensures EnsureFor(db.deks, w, d).Ok?
    ensures BuildRecord(p, db, w, d).value == RecordOps(p, db.rec.objects, w, d, EnsureFor(db.deks, w, d).value)
  {
  }

  lemma Builds(p: Pack, db: Db, w: WriteCtx, d: Draft)
    requires p.accepts(d.cls.name, d.payload) && ReferencesOk(p, db.rec.objects, w.pending, d.cls, d.payload)
    requires EnsureFor(db.deks, w, d).Ok?
    ensures
      BuildRecord(p, db, w, d).Ok? <==>
      NaturalKeyFree(db.rec.objects, d.cls, d.objectId, GivenKey(p, d))
    ensures BuildRecord(p, db, w, d).Ok? ==>
      BuildRecord(p, db, w, d).value == RecordOps(p, db.rec.objects, w, d, EnsureFor(db.deks, w, d).value)
  {
  }

  lemma OpsAgree(p: Pack, pre: Db, now: Db, w: WriteCtx, d: Draft)
    requires Agrees(pre, now, d)
    ensures EnsureFor(now.deks, w, d) == EnsureFor(pre.deks, w, d)
    ensures EnsureFor(now.deks, w.(pending := map[]), d) == EnsureFor(pre.deks, w, d)
    ensures PreviousKey(pre.rec.objects, d.objectId) == PreviousKey(now.rec.objects, d.objectId)
    ensures forall e :: RecordOps(p, pre.rec.objects, w, d, e) == RecordOps(p, now.rec.objects, w.(pending := map[]), d, e)
  {
  }

  /** One change: built before, it lands as if built now. */
  lemma HeadAgrees(p: Pack, pre: Db, now: Db, tx: TxId, w: WriteCtx, d: Draft)
    requires BuildRecord(p, pre, w, d).Ok? && Agrees(pre, now, d) && Proper(p, pre.rec.objects, d)
    requires PendingLanded(w.pending, now.rec.objects) && ClassesExtend(pre.rec.objects, now.rec.objects)
    requires DeksOk(pre.deks)
    ensures
      var ops := BuildRecord(p, pre, w, d).value;
      var one := BuildRecord(p, now, w.(pending := map[]), d);
      var e := EnsureFor(now.deks, w, d);
      && (one.Ok? ==> one == Ok(ops))
      && e.Ok? && MintsFor(w, d, e.value)
      && (Apply(now, tx, ops).Some? ==>
            && one.Ok?
            && p.accepts(d.cls.name, d.payload) && ReferencesOk(p, now.rec.objects, map[], d.cls, d.payload)
            && !Taken(now.rec.objects, d.cls.name, KeyOf(p, tx, d), d.objectId)
            && !ColumnsTaken(p, now.rec.query, tx, d)
            && Apply(now, tx, ops) == Some(LandedDb(p, now, tx, w, d, e.value)))
  {
    BuiltParts(p, pre, w, d);
    OpsAgree(p, pre, now, w, d);
    var e := EnsureFor(pre.deks, w, d).value;
    DeksGrow(pre.deks, w, d, e);
    PendingResolves(p, pre.rec.objects, now.rec.objects, w.pending, d.cls, d.payload);
    Builds(p, now, w.(pending := map[]), d);
    RecordLands(p, now, tx, w, d, e, pre.rec.objects);
  }

  lemma AgreementStays(p: Pack, pre: Db, now: Db, tx: TxId, w: WriteCtx, drafts: seq<Draft>, e: Ensured)
    requires drafts != [] && Distinct(drafts) && MintsOnce(pre.deks, drafts) && AllAgree(pre, now, drafts)
    requires EnsureFor(now.deks, w, drafts[0]) == Ok(e)
    ensures AllAgree(pre, LandedDb(p, now, tx, w, drafts[0], e), drafts[1..])
  {
    var d, mid := drafts[0], LandedDb(p, now, tx, w, drafts[0], e);
    assert Agrees(pre, now, d);
    forall i | 0 <= i < |drafts[1..]|
      ensures Agrees(pre, mid, drafts[1..][i])
    {
      var other := drafts[1..][i];
      assert other == drafts[i + 1] && Agrees(pre, now, other) && other.objectId != d.objectId;
      assert !MintTogether(pre.deks, d, other);
    }
  }

  lemma TailOf(p: Pack, pre: Db, drafts: seq<Draft>)
    requires drafts != []
    ensures Distinct(drafts) ==> Distinct(drafts[1..])
    ensures MintsOnce(pre.deks, drafts) ==> MintsOnce(pre.deks, drafts[1..])
    ensures AllProper(p, pre.rec.objects, drafts) ==> AllProper(p, pre.rec.objects, drafts[1..])
  {
    var rest := drafts[1..];
    forall i | 0 <= i < |rest|
      ensures rest[i] == drafts[i + 1]
    {
    }
  }

  /** What holds between the state a batch was built against and the state it has got to. */
  ghost predicate Aligned(p: Pack, pre: Db, now: Db, w: WriteCtx, drafts: seq<Draft>) {
    && RecordsOk(p, now.rec, now.deks)
    && Distinct(drafts) && MintsOnce(pre.deks, drafts) && AllProper(p, pre.rec.objects, drafts)
    && AllAgree(pre, now, drafts)
    && PendingLanded(w.pending, now.rec.objects) && ClassesExtend(pre.rec.objects, now.rec.objects)
  }

  lemma PendingGrows(p: Pack, pre: Db, now: Db, tx: TxId, w: WriteCtx, d: Draft, e: Ensured)
    requires Agrees(pre, now, d) && Proper(p, pre.rec.objects, d)
    requires PendingLanded(w.pending, now.rec.objects) && ClassesExtend(pre.rec.objects, now.rec.objects)
    ensures
      var mid := LandedDb(p, now, tx, w, d, e);
      PendingLanded(After(w, d).pending, mid.rec.objects) && ClassesExtend(pre.rec.objects, mid.rec.objects)
  {
  }

  lemma StepAligned(p: Pack, pre: Db, now: Db, tx: TxId, w: WriteCtx, drafts: seq<Draft>, e: Ensured)
    requires DeksOk(pre.deks) && Aligned(p, pre, now, w, drafts) && drafts != []
    requires Checked(p, now, tx, w, drafts[0], e)
    ensures Aligned(p, pre, LandedDb(p, now, tx, w, drafts[0], e), After(w, drafts[0]), drafts[1..])
  {
    assert Agrees(pre, now, drafts[0]) && Proper(p, pre.rec.objects, drafts[0]);
    LandingKeeps(p, now, tx, w, drafts[0], e);
    AgreementStays(p, pre, now, tx, w, drafts, e);
    TailOf(p, pre, drafts);
    PendingGrows(p, pre, now, tx, w, drafts[0], e);
  }

  lemma HeadChecked(p: Pack, pre: Db, now: Db, tx: TxId, w: WriteCtx, drafts: seq<Draft>)
    requires DeksOk(pre.deks) && Aligned(p, pre, now, w, drafts) && drafts != []
    requires BuildRecord(p, pre, w, drafts[0]).Ok?
    ensures
      var d := drafts[0];
      var ops := BuildRecord(p, pre, w, d).value;
      var one := BuildRecord(p, now, w.(pending := map[]), d);
      && (one.Ok? ==> one == Ok(ops))
      && (Apply(now, tx, ops).Some? ==>
            && one.Ok? && EnsureFor(now.deks, w, d).Ok?
            && Checked(p, now, tx, w, d, EnsureFor(now.deks, w, d).value)
            && Apply(now, tx, ops) == Some(LandedDb(p, now, tx, w, d, EnsureFor(now.deks, w, d).value)))
  {
    var d := drafts[0];
    assert Agrees(pre, now, d) && Proper(p, pre.rec.objects, d);
    HeadAgrees(p, pre, now, tx, w, d);
  }

  lemma {:induction false} BatchLands(p: Pack, pre: Db, now: Db, tx: TxId, w: WriteCtx, drafts: seq<Draft>)
    requires DeksOk(pre.deks) && Aligned(p, pre, now, w, drafts)
    requires BuildAll(p, pre, w, drafts).Ok?
    ensures
      var after := Apply(now, tx, BuildAll(p, pre, w, drafts).value);
      var one := LandAll(p, now, tx, w, drafts);
      && (after.Some? <==> one.Ok?)
      && (after.Some? ==> one == Ok(after.value) && RecordsOk(p, after.value.rec, after.value.deks))
    decreases |drafts|
  {
    if drafts != [] {
      var d := drafts[0];
      var ops := BuildRecord(p, pre, w, d).value;
      HeadChecked(p, pre, now, tx, w, drafts);
      ApplyAppend(now, tx, ops, BuildAll(p, pre, After(w, d), drafts[1..]).value);
      var mid := Apply(now, tx, ops);
      if mid.Some? {
        StepAligned(p, pre, now, tx, w, drafts, EnsureFor(now.deks, w, d).value);
        BatchLands(p, pre, mid.value, tx, After(w, d), drafts[1..]);
        LandAllIgnoresPending(p, mid.value, tx, w, After(w, d), drafts[1..]);
      }
    }
  }

  lemma {:induction false} LandAllIgnoresPending(p: Pack, db: Db, tx: TxId, w: WriteCtx, u: WriteCtx, drafts: seq<Draft>)
    requires w.(pending := map[]) == u.(pending := map[])
    ensures LandAll(p, db, tx, w, drafts) == LandAll(p, db, tx, u, drafts)
    decreases |drafts|
  {
    if drafts != [] {
      var ops := BuildRecord(p, db, w.(pending := map[]), drafts[0]);
      if ops.Ok? && Apply(db, tx, ops.value).Some? {
        LandAllIgnoresPending(p, Apply(db, tx, ops.value).value, tx, w, u, drafts[1..]);
      }
    }
  }

  /**
   A write set built in full against one state lands exactly when landing its changes one at a time
   would, each checked afresh against what the one before left, and leaves the same state, in which
   the tables agree again. The changes address distinct objects and no key is minted twice.
   */
  lemma BatchIsSequential(p: Pack, db: Db, tx: TxId, at: int, recover: bool, drafts: seq<Draft>)
    requires RecordsOk(p, db.rec, db.deks) && AllProper(p, db.rec.objects, drafts)
    requires Distinct(drafts) && MintsOnce(db.deks, drafts)
    requires BuildAll(p, db, WriteCtx(at, recover, map[]), drafts).Ok?
    ensures
      var w := WriteCtx(at, recover, map[]);
      var after := Apply(db, tx, BuildAll(p, db, w, drafts).value);
      && (after.Some? <==> LandAll(p, db, tx, w, drafts).Ok?)
      && (after.Some? ==>
            LandAll(p, db, tx, w, drafts) == Ok(after.value) && RecordsOk(p, after.value.rec, after.value.deks))
  {
    BatchLands(p, db, db, tx, WriteCtx(at, recover, map[]), drafts);
  }
}
