/** Landing one record change keeps the invariant of the record tables. */
module RecordSafety {
  import opened Outcomes
  import opened Tables
  import opened Packs
  import opened RecordBuild
  import opened RecordInvariant

  // ---- what stays put ----------------------------------------------------------------

  ghost predicate DeksExtend(deks: map<Scope, Dek>, more: map<Scope, Dek>) {
    forall s :: s in deks ==> s in more && more[s] == deks[s]
  }

  lemma VersionsStable(
    c: Class, deks: map<Scope, Dek>, more: map<Scope, Dek>, versions: map<(Id, nat), VersionRow>,
    now: map<(Id, nat), VersionRow>, o: Id, head: nat)
    requires VersionsOk(c, deks, versions, o, head) && DeksExtend(deks, more)
    requires forall v :: (o, v) in versions ==> (o, v) in now && now[(o, v)] == versions[(o, v)]
    ensures VersionsOk(c, more, now, o, head)
  {
    forall v | 1 <= v <= head
      ensures (o, v) in now && VersionOk(c, more, o, v, now[(o, v)])
    {
      assert VersionOk(c, deks, o, v, versions[(o, v)]);
    }
  }

  /** An object whose own rows and keys are untouched stays as it was. */
  lemma ObjectStable(p: Pack, rec: Records, deks: map<Scope, Dek>, now: Records, more: map<Scope, Dek>, o: Id)
    requires o in rec.objects && ObjectOk(p, rec, deks, o) && DeksExtend(deks, more)
    requires o in now.objects && now.objects[o] == rec.objects[o]
    requires forall v :: (o, v) in rec.versions ==> (o, v) in now.versions && now.versions[(o, v)] == rec.versions[(o, v)]
    requires forall c :: (c, o) in rec.query ==> (c, o) in now.query && now.query[(c, o)] == rec.query[(c, o)]
    ensures ObjectOk(p, now, more, o)
  {
    var ob := rec.objects[o];
    VersionsStable(p.classes[ob.cls], deks, more, rec.versions, now.versions, o, ob.head);
  }

  /** The key tables agree about every scope but one. */
  ghost predicate AgreeOff(deks: map<Scope, Dek>, now: map<Scope, Dek>, s: Scope) {
    forall t :: t in deks && t != s ==> t in now && now[t] == deks[t]
  }

  /** An object that does not use the key that changed stays as it was. */
  lemma ObjectOffKey(p: Pack, rec: Records, deks: map<Scope, Dek>, now: Records, more: map<Scope, Dek>, o: Id, s: Scope)
    requires o in rec.objects && ObjectOk(p, rec, deks, o) && AgreeOff(deks, more, s)
    requires DekScope(p.classes[rec.objects[o].cls], o) != s
    requires o in now.objects && now.objects[o] == rec.objects[o]
    requires now.versions == rec.versions && now.query == rec.query
    ensures ObjectOk(p, now, more, o)
  {
    var ob := rec.objects[o];
    var c := p.classes[ob.cls];
    forall v | 1 <= v <= ob.head
      ensures (o, v) in now.versions && VersionOk(c, more, o, v, now.versions[(o, v)])
    {
      assert VersionOk(c, deks, o, v, rec.versions[(o, v)]);
    }
  }

  predicate ForRecords(s: Scope) {
    s.TenantKey? || s.ClassKey? || s.SubjectKey? || s.NoScope?
  }

  /** Keys that protect no record come and go without touching the records. */
  lemma RecordsOffKey(p: Pack, rec: Records, deks: map<Scope, Dek>, now: map<Scope, Dek>, s: Scope)
    requires RecordsOk(p, rec, deks) && AgreeOff(deks, now, s) && !ForRecords(s)
    requires now.Keys <= deks.Keys + {s} && (s in now ==> DekOk(s, now[s]))
    ensures RecordsOk(p, rec, now)
  {
    forall o | o in rec.objects
      ensures ObjectOk(p, rec, now, o)
    {
      ObjectOffKey(p, rec, deks, rec, now, o, s);
    }
    forall t | t in now
      ensures DekOk(t, now[t]) && SubjectOwned(p, rec.objects, t)
    {
      if t != s {
        assert DekOk(t, deks[t]) && SubjectOwned(p, rec.objects, t);
      }
    }
  }

  // ---- the changed object ------------------------------------------------------------------

  lemma VersionsAppend(
    c: Class, deks: map<Scope, Dek>, versions: map<(Id, nat), VersionRow>, o: Id, head: nat, row: VersionRow)
    requires VersionsOk(c, deks, versions, o, head) && VersionOk(c, deks, o, head + 1, row)
    ensures VersionsOk(c, deks, versions[(o, head + 1) := row], o, head + 1)
  {
    var now := versions[(o, head + 1) := row];
    forall v | 1 <= v <= head + 1
      ensures (o, v) in now && VersionOk(c, deks, o, v, now[(o, v)])
    {
      if v <= head {
        assert VersionOk(c, deks, o, v, versions[(o, v)]);
      }
    }
  }

  /** What a freshly built version row is. */
  lemma LandedVersionOk(tx: TxId, at: int, d: Draft, key: Key, deks: map<Scope, Dek>)
    requires d.cls.encryption.EncNone? || KeyFits(deks, DekScope(d.cls, d.objectId), key)
    ensures
      var row := LandedVersion(tx, at, d, key);
      VersionOk(d.cls, deks, d.objectId, d.version, row) && row.hash.payload == d.payload
  {
  }

  lemma OwnObject(
    p: Pack, rec: Records, deks: map<Scope, Dek>, more: map<Scope, Dek>, tx: TxId, at: int, d: Draft, key: Key)
    requires Proper(p, rec.objects, d)
    requires d.objectId in rec.objects ==> ObjectOk(p, rec, deks, d.objectId)
    requires DeksExtend(deks, more)
    requires d.cls.encryption.EncNone? ||
      (KeyFits(more, DekScope(d.cls, d.objectId), key) && more[DekScope(d.cls, d.objectId)].Live())
    requires GivenKey(p, d) != ""
    ensures ObjectOk(p, Landed(p, rec, tx, at, d, key), more, d.objectId)
  {
    LandedVersionOk(tx, at, d, key, more);
    var row := LandedVersion(tx, at, d, key);
    if d.objectId in rec.objects {
      VersionsStable(d.cls, deks, more, rec.versions, rec.versions, d.objectId, d.version - 1);
    }
    VersionsAppend(d.cls, more, rec.versions, d.objectId, d.version - 1, row);
  }

  // ---- the tables, one by one -----------------------------------------------------------------

  lemma ColumnsKept(
    query: map<(QueryTable, Id), QueryRow>, table: QueryTable, o: Id, q: QueryRow)
    requires ColumnsUnique(query) && !ColumnHeld(query, table, o, q.columns)
    ensures ColumnsUnique(query[(table, o) := q])
  {
    var now := query[(table, o) := q];
    forall k, l | k in now && l in now
      ensures ColumnsApart(now, k, l)
    {
      if k != (table, o) && l != (table, o) {
        assert ColumnsApart(query, k, l);
      }
    }
  }

  lemma OwnersKept(
    p: Pack, rec: Records, d: Draft, ob: ObjectRow, row: VersionRow, q: QueryRow)
    requires VersionsOwned(rec.objects, rec.versions) && QueriesOwned(p, rec.objects, rec.query)
    requires d.objectId in rec.objects ==> rec.objects[d.objectId].head <= ob.head && rec.objects[d.objectId].cls == ob.cls
    requires 1 <= d.version == ob.head && ob.cls == d.cls.name && ob.cls in p.classes && p.classes[ob.cls] == d.cls
    ensures VersionsOwned(rec.objects[d.objectId := ob], rec.versions[(d.objectId, d.version) := row])
    ensures QueriesOwned(p, rec.objects[d.objectId := ob], rec.query[(TableOf(d.cls), d.objectId) := q])
  {
  }

  lemma UniqueKept(objects: map<Id, ObjectRow>, o: Id, ob: ObjectRow)
    requires KeysUnique(objects) && !Taken(objects, ob.cls, ob.naturalKey, o)
    ensures KeysUnique(objects[o := ob])
  {
  }

  /** The change takes an object off the empty key, which the index writes do not retire. */
  predicate Leaves(objects: map<Id, ObjectRow>, d: Draft, naturalKey: Settled) {
    d.cls.naturalKey != "" && d.objectId in objects && objects[d.objectId].naturalKey == "" && naturalKey != ""
  }

  lemma EntriesRight(
    p: Pack, objects: map<Id, ObjectRow>, keys: map<(string, string), KeyRow>, d: Draft, naturalKey: Settled, at: int,
    ob: ObjectRow, k: (string, string))
    requires KeysAgree(p, objects, keys)
    requires d.cls.name in p.classes && p.classes[d.cls.name] == d.cls
    requires d.objectId in objects ==> objects[d.objectId].cls == d.cls.name
    requires !Leaves(objects, d, naturalKey)
    requires ob.cls == d.cls.name && ob.naturalKey == naturalKey
    ensures
      var now := LandedKeys(keys, PreviousKey(objects, d.objectId), d, naturalKey, at);
      k in now ==> EntryRight(p, objects[d.objectId := ob], k, now[k])
  {
    if k in keys {
      assert EntryRight(p, objects, k, keys[k]);
    }
  }

  lemma StillIndexed(
    p: Pack, objects: map<Id, ObjectRow>, keys: map<(string, string), KeyRow>, d: Draft, naturalKey: Settled, at: int,
    o: Id)
    requires o in objects && o != d.objectId && Indexed(p, keys, o, objects[o])
    requires d.objectId in objects ==> Indexed(p, keys, d.objectId, objects[d.objectId])
    requires d.objectId in objects ==> objects[d.objectId].cls == d.cls.name
    requires d.cls.name in p.classes && p.classes[d.cls.name] == d.cls
    requires !Taken(objects, d.cls.name, naturalKey, d.objectId)
    ensures Indexed(p, LandedKeys(keys, PreviousKey(objects, d.objectId), d, naturalKey, at), o, objects[o])
  {
    assert !(objects[o].cls == d.cls.name && objects[o].naturalKey == naturalKey);
  }

  /** The index follows one object from one natural key to another. */
  lemma KeysFollow(
    p: Pack, objects: map<Id, ObjectRow>, keys: map<(string, string), KeyRow>, d: Draft, naturalKey: Settled, at: int,
    ob: ObjectRow)
    requires KeysAgree(p, objects, keys)
    requires d.cls.name in p.classes && p.classes[d.cls.name] == d.cls
    requires d.objectId in objects ==> objects[d.objectId].cls == d.cls.name
    requires !Leaves(objects, d, naturalKey)
    requires ob.cls == d.cls.name && ob.naturalKey == naturalKey
    requires !Taken(objects, d.cls.name, naturalKey, d.objectId)
    ensures
      KeysAgree(p, objects[d.objectId := ob], LandedKeys(keys, PreviousKey(objects, d.objectId), d, naturalKey, at))
  {
    var now := LandedKeys(keys, PreviousKey(objects, d.objectId), d, naturalKey, at);
    forall k | k in now
      ensures EntryRight(p, objects[d.objectId := ob], k, now[k])
    {
      EntriesRight(p, objects, keys, d, naturalKey, at, ob, k);
    }
    var after := objects[d.objectId := ob];
    forall o | o in after
      ensures Indexed(p, now, o, after[o])
    {
      if o != d.objectId {
        StillIndexed(p, objects, keys, d, naturalKey, at, o);
      }
    }
  }

  ghost predicate ClassesExtend(objects: map<Id, ObjectRow>, more: map<Id, ObjectRow>) {
    forall o :: o in objects ==> o in more && more[o].cls == objects[o].cls
  }

  lemma ReferencesGrow(p: Pack, objects: map<Id, ObjectRow>, more: map<Id, ObjectRow>, c: Class, payload: Payload)
    requires ReferencesOk(p, objects, map[], c, payload) && ClassesExtend(objects, more)
    ensures ReferencesOk(p, more, map[], c, payload)
  {
    forall prop | prop in c.references && prop in payload
      ensures ReferenceOk(p, more, map[], payload[prop], c.references[prop])
    {
      assert ReferenceOk(p, objects, map[], payload[prop], c.references[prop]);
    }
  }

  lemma ReferencesKept(
    p: Pack, objects: map<Id, ObjectRow>, versions: map<(Id, nat), VersionRow>, more: map<Id, ObjectRow>, o: Id, v: nat,
    row: VersionRow)
    requires ReferencesHold(p, objects, versions) && ClassesExtend(objects, more)
    requires VersionsOwned(objects, versions)
    requires PayloadResolves(p, more, o, row.hash.payload)
    ensures ReferencesHold(p, more, versions[(o, v) := row])
  {
    var now := versions[(o, v) := row];
    forall k | k in now
      ensures PayloadResolves(p, more, k.0, now[k].hash.payload)
    {
      if k != (o, v) {
        assert k in versions && PayloadResolves(p, objects, k.0, versions[k].hash.payload);
        if objects[k.0].cls in p.classes {
          ReferencesGrow(p, objects, more, p.classes[objects[k.0].cls], versions[k].hash.payload);
        }
      }
    }
  }

  // ---- a change ready to land -------------------------------------------------------------------

  /** The checks of a build, made in the state the change lands in. */
  predicate Checked(p: Pack, db: Db, tx: TxId, w: WriteCtx, d: Draft, e: Ensured) {
    && Proper(p, db.rec.objects, d)
    && EnsureFor(db.deks, w, d) == Ok(e)
    && p.accepts(d.cls.name, d.payload) && ReferencesOk(p, db.rec.objects, map[], d.cls, d.payload)
    && !Taken(db.rec.objects, d.cls.name, KeyOf(p, tx, d), d.objectId)
    && !ColumnsTaken(p, db.rec.query, tx, d)
    && GivenKey(p, d) != ""
  }

  lemma DeksGrow(deks: map<Scope, Dek>, w: WriteCtx, d: Draft, e: Ensured)
    requires DeksOk(deks) && EnsureFor(deks, w, d) == Ok(e)
    ensures MintsFor(w, d, e)
    ensures DeksOk(LandedDeks(deks, w, d, e)) && DeksExtend(deks, LandedDeks(deks, w, d, e))
    ensures forall s :: s in LandedDeks(deks, w, d, e) ==> s in deks || s == DekScope(d.cls, d.objectId)
    ensures !d.cls.encryption.EncNone? ==>
      var s := DekScope(d.cls, d.objectId);
      && KeyFits(LandedDeks(deks, w, d, e), s, e.key)
      && LandedDeks(deks, w, d, e)[s].Live()
  {
    var s := DekScope(d.cls, d.objectId);
    if s in deks {
      assert DekOk(s, deks[s]);
    }
  }

  lemma SubjectsKept(p: Pack, objects: map<Id, ObjectRow>, deks: map<Scope, Dek>, now: map<Scope, Dek>, d: Draft, ob: ObjectRow)
    requires SubjectsOwned(p, objects, deks)
    requires d.cls.name in p.classes && p.classes[d.cls.name] == d.cls && ob.cls == d.cls.name
    requires d.objectId in objects ==> objects[d.objectId].cls == d.cls.name
    requires forall s :: s in now ==> s in deks || s == DekScope(d.cls, d.objectId)
    ensures SubjectsOwned(p, objects[d.objectId := ob], now)
  {
    forall s | s in now
      ensures SubjectOwned(p, objects[d.objectId := ob], s)
    {
      assert s in deks ==> SubjectOwned(p, objects, s);
    }
  }

  lemma ObjectsKept(p: Pack, rec: Records, deks: map<Scope, Dek>, more: map<Scope, Dek>, tx: TxId, at: int, d: Draft, key: Key)
    requires ObjectsOk(p, rec, deks) && DeksExtend(deks, more)
    requires Proper(p, rec.objects, d)
    requires d.cls.encryption.EncNone? ||
      (KeyFits(more, DekScope(d.cls, d.objectId), key) && more[DekScope(d.cls, d.objectId)].Live())
    requires GivenKey(p, d) != ""
    ensures ObjectsOk(p, Landed(p, rec, tx, at, d, key), more)
  {
    var now := Landed(p, rec, tx, at, d, key);
    forall o | o in now.objects
      ensures ObjectOk(p, now, more, o)
    {
      if o == d.objectId {
        OwnObject(p, rec, deks, more, tx, at, d, key);
      } else {
        ObjectStable(p, rec, deks, now, more, o);
      }
    }
  }

  /** Landing a checked change keeps every agreement between the tables. */
  lemma LandingKeeps(p: Pack, db: Db, tx: TxId, w: WriteCtx, d: Draft, e: Ensured)
    requires RecordsOk(p, db.rec, db.deks) && Checked(p, db, tx, w, d, e)
    ensures
      var after := LandedDb(p, db, tx, w, d, e);
      RecordsOk(p, after.rec, after.deks)
  {
    var rec, deks := db.rec, LandedDeks(db.deks, w, d, e);
    var naturalKey := KeyOf(p, tx, d);
    var ob, row := LandedObject(p, rec.objects, tx, w.at, d), LandedVersion(tx, w.at, d, e.key);
    if d.objectId in rec.objects {
      assert ObjectOk(p, rec, db.deks, d.objectId);
    }
    DeksGrow(db.deks, w, d, e);
    ObjectsKept(p, rec, db.deks, deks, tx, w.at, d, e.key);
    OwnersKept(p, rec, d, ob, row, LandedQuery(p, tx, w.at, d));
    ColumnsKept(rec.query, TableOf(d.cls), d.objectId, LandedQuery(p, tx, w.at, d));
    UniqueKept(rec.objects, d.objectId, ob);
    KeysFollow(p, rec.objects, rec.keys, d, naturalKey, w.at, ob);
    SubjectsKept(p, rec.objects, db.deks, deks, d, ob);
    LandedVersionOk(tx, w.at, d, e.key, deks);
    ReferencesGrow(p, rec.objects, rec.objects[d.objectId := ob], d.cls, d.payload);
    ReferencesKept(p, rec.objects, rec.versions, rec.objects[d.objectId := ob], d.objectId, d.version, row);
  }
}
