/** What no step of the register ever takes back: the order between an earlier state and a later one. */
module History {
  import opened Outcomes
  import opened Tables
  import opened Packs
  import opened RecordBuild
  import opened RecordInvariant
  import opened RecordSafety
  import opened Batch

  /** An object keeps its class and its creation stamps; its head only grows; an erasure is for good. */
  predicate ObjectOnward(a: ObjectRow, b: ObjectRow) {
    && b.cls == a.cls && b.createdAt == a.createdAt && b.createdTx == a.createdTx
    && a.head <= b.head && (a.erased ==> b.erased && b.head == a.head)
  }

  /** A version row is never touched, except that a prune takes its payload and says under which policy. */
  predicate VersionOnward(a: VersionRow, b: VersionRow) {
    b == a || (!a.pruned && b.pruned && b == a.(body := None, pruned := true, policy := b.policy))
  }

  /** A key is replaced by nothing; destroying it is for good. */
  predicate DekOnward(a: Dek, b: Dek) {
    b == a || (a.Live() && !b.Live() && b.opWrap == NoWrap && b.recWrap == NoWrap)
  }

  ghost predicate ObjectsOnward(a: map<Id, ObjectRow>, b: map<Id, ObjectRow>) {
    forall o :: o in a ==> o in b && ObjectOnward(a[o], b[o])
  }

  ghost predicate VersionsOnward(a: map<(Id, nat), VersionRow>, b: map<(Id, nat), VersionRow>) {
    forall k :: k in a ==> k in b && VersionOnward(a[k], b[k])
  }

  ghost predicate DeksOnward(a: map<Scope, Dek>, b: map<Scope, Dek>) {
    forall s :: s in a ==> s in b && DekOnward(a[s], b[s])
  }

  ghost predicate MarksOnward(a: map<(TxId, nat), Mark>, b: map<(TxId, nat), Mark>) {
    forall k :: k in a ==> k in b && b[k] == a[k]
  }

  ghost predicate RecordsOnward(a: Records, deks: map<Scope, Dek>, b: Records, now: map<Scope, Dek>) {
    && ObjectsOnward(a.objects, b.objects)
    && VersionsOnward(a.versions, b.versions)
    && DeksOnward(deks, now)
    && MarksOnward(a.marks, b.marks)
  }

  lemma OnwardSelf(a: Records, deks: map<Scope, Dek>)
    ensures RecordsOnward(a, deks, a, deks)
  {
  }

  lemma OnwardChain(
    a: Records, x: map<Scope, Dek>, b: Records, y: map<Scope, Dek>, c: Records, z: map<Scope, Dek>)
    requires RecordsOnward(a, x, b, y) && RecordsOnward(b, y, c, z)
    ensures RecordsOnward(a, x, c, z)
  {
    forall o | o in a.objects
      ensures o in c.objects && ObjectOnward(a.objects[o], c.objects[o])
    {
      assert ObjectOnward(a.objects[o], b.objects[o]);
    }
    forall k | k in a.versions
      ensures k in c.versions && VersionOnward(a.versions[k], c.versions[k])
    {
      assert VersionOnward(a.versions[k], b.versions[k]);
    }
    forall s | s in x
      ensures s in z && DekOnward(x[s], z[s])
    {
      assert DekOnward(x[s], y[s]);
    }
  }

  lemma AppendOnward(versions: map<(Id, nat), VersionRow>, k: (Id, nat), row: VersionRow)
    requires k !in versions
    ensures VersionsOnward(versions, versions[k := row])
  {
  }

  lemma ExtendOnward(deks: map<Scope, Dek>, more: map<Scope, Dek>)
    requires DeksExtend(deks, more)
    ensures DeksOnward(deks, more)
  {
  }

  lemma PutOnward(objects: map<Id, ObjectRow>, o: Id, ob: ObjectRow)
    requires o in objects ==> ObjectOnward(objects[o], ob)
    ensures ObjectsOnward(objects, objects[o := ob])
  {
  }

  lemma NextVersionIsNew(objects: map<Id, ObjectRow>, versions: map<(Id, nat), VersionRow>, o: Id, v: nat)
    requires VersionsOwned(objects, versions)
    requires o in objects ==> v > objects[o].head
    ensures (o, v) !in versions
  {
  }

  lemma LandingOnward(p: Pack, db: Db, tx: TxId, w: WriteCtx, d: Draft, e: Ensured)
    requires RecordsOk(p, db.rec, db.deks) && Checked(p, db, tx, w, d, e)
    ensures
      var after := LandedDb(p, db, tx, w, d, e);
      RecordsOnward(db.rec, db.deks, after.rec, after.deks)
  {
    if d.objectId in db.rec.objects {
      assert ObjectOk(p, db.rec, db.deks, d.objectId);
    }
    DeksGrow(db.deks, w, d, e);
    ExtendOnward(db.deks, LandedDeks(db.deks, w, d, e));
    NextVersionIsNew(db.rec.objects, db.rec.versions, d.objectId, d.version);
    AppendOnward(db.rec.versions, (d.objectId, d.version), LandedVersion(tx, w.at, d, e.key));
    PutOnward(db.rec.objects, d.objectId, LandedObject(p, db.rec.objects, tx, w.at, d));
  }

  /** What landing a batch adds: exactly the new versions, with what each change said. */
  ghost predicate Recorded(now: Records, d: Draft) {
    && d.objectId in now.objects && now.objects[d.objectId].head == d.version
    && now.objects[d.objectId].cls == d.cls.name
    && (d.objectId, d.version) in now.versions
    && now.versions[(d.objectId, d.version)].hash.payload == d.payload
    && now.versions[(d.objectId, d.version)].status == d.status
  }

  lemma {:induction false} BatchOnward(p: Pack, pre: Db, now: Db, tx: TxId, w: WriteCtx, drafts: seq<Draft>)
    requires DeksOk(pre.deks) && Aligned(p, pre, now, w, drafts)
    requires BuildAll(p, pre, w, drafts).Ok? && Apply(now, tx, BuildAll(p, pre, w, drafts).value).Some?
    ensures
      var after := Apply(now, tx, BuildAll(p, pre, w, drafts).value).value;
      && RecordsOnward(now.rec, now.deks, after.rec, after.deks)
      && after == now.(rec := after.rec, deks := after.deks) && after.rec.marks == now.rec.marks
      && (forall o :: o in now.rec.objects && (forall i :: 0 <= i < |drafts| ==> drafts[i].objectId != o) ==>
            o in after.rec.objects && after.rec.objects[o] == now.rec.objects[o])
      && (forall i :: 0 <= i < |drafts| ==> Recorded(after.rec, drafts[i]))
    decreases |drafts|
  {
    if drafts == [] {
      OnwardSelf(now.rec, now.deks);
    } else {
      var d := drafts[0];
      var ops := BuildRecord(p, pre, w, d).value;
      var rest := BuildAll(p, pre, After(w, d), drafts[1..]).value;
      HeadChecked(p, pre, now, tx, w, drafts);
      ApplyAppend(now, tx, ops, rest);
      var e := EnsureFor(now.deks, w, d).value;
      var mid := LandedDb(p, now, tx, w, d, e);
      LandingOnward(p, now, tx, w, d, e);
      StepAligned(p, pre, now, tx, w, drafts, e);
      BatchOnward(p, pre, mid, tx, After(w, d), drafts[1..]);
      var after := Apply(mid, tx, rest).value;
      OnwardChain(now.rec, now.deks, mid.rec, mid.deks, after.rec, after.deks);
      RestRecorded(p, now, mid, after, tx, w, drafts, e);
    }
  }

  lemma RestRecorded(p: Pack, now: Db, mid: Db, after: Db, tx: TxId, w: WriteCtx, drafts: seq<Draft>, e: Ensured)
    requires drafts != [] && Distinct(drafts)
    requires mid == LandedDb(p, now, tx, w, drafts[0], e)
    requires VersionsOnward(mid.rec.versions, after.rec.versions)
    requires forall o :: o in mid.rec.objects && (forall i :: 0 <= i < |drafts[1..]| ==> drafts[1..][i].objectId != o) ==>
      o in after.rec.objects && after.rec.objects[o] == mid.rec.objects[o]
    requires forall i :: 0 <= i < |drafts[1..]| ==> Recorded(after.rec, drafts[1..][i])
    ensures forall o :: o in now.rec.objects && (forall i :: 0 <= i < |drafts| ==> drafts[i].objectId != o) ==>
      o in after.rec.objects && after.rec.objects[o] == now.rec.objects[o]
    ensures forall i :: 0 <= i < |drafts| ==> Recorded(after.rec, drafts[i])
  {
    var d, rest := drafts[0], drafts[1..];
    forall i | 0 <= i < |rest|
      ensures rest[i] == drafts[i + 1] && rest[i].objectId != d.objectId
    {
    }
    assert VersionOnward(mid.rec.versions[(d.objectId, d.version)], after.rec.versions[(d.objectId, d.version)]);
    assert Recorded(after.rec, d);
    forall i | 0 <= i < |drafts|
      ensures Recorded(after.rec, drafts[i])
    {
      if i > 0 {
        assert rest[i - 1] == drafts[i];
      }
    }
    forall o | o in now.rec.objects && forall i :: 0 <= i < |drafts| ==> drafts[i].objectId != o
      ensures o in after.rec.objects && after.rec.objects[o] == now.rec.objects[o]
    {
      assert drafts[0].objectId != o;
    }
  }
}
