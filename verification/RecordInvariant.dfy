/**
 What every reachable state of the record tables satisfies, and that landing one record change keeps
 it: versions, heads, the natural-key index, the query projections and the keys agree.
 */
module RecordInvariant {
  import opened Outcomes
  import opened Tables
  import opened Packs
  import opened RecordBuild

  // ---- keys -----------------------------------------------------------------------

  /** A live key opens under its own scope; a destroyed one has lost both wraps; a shared one is never destroyed. */
  predicate DekOk(s: Scope, dek: Dek) {
    && (dek.Live() ==> dek.opWrap.Wrapped? && dek.opWrap.scope == s && (dek.recWrap == NoWrap || dek.recWrap == dek.opWrap))
    && (!dek.Live() ==> dek.opWrap == NoWrap && dek.recWrap == NoWrap)
    && (s.TenantKey? || s.ClassKey? ==> dek.Live())
  }

  ghost predicate DeksOk(deks: map<Scope, Dek>) {
    forall s :: s in deks ==> DekOk(s, deks[s])
  }

  /** Either the key under a scope is this one, or it is gone. */
  predicate KeyFits(deks: map<Scope, Dek>, s: Scope, k: Key) {
    s in deks && (deks[s].Live() ==> deks[s].opWrap == Wrapped(s, k))
  }

  // ---- one object ---------------------------------------------------------------------

  predicate VersionOk(c: Class, deks: map<Scope, Dek>, o: Id, v: nat, row: VersionRow) {
    && (row.hash.PlainHash? <==> c.encryption.EncNone?)
    && row.scope == DekScope(c, o)
    && row.body == (if row.pruned then None else Some(Seal(c, o, v, row.hash)))
    && (row.hash.KeyedHash? ==> KeyFits(deks, row.scope, row.hash.key))
  }

  /**
   The head row says what the object row says; a natural key that is the placeholder stands for the id
   of the transaction that wrote the head.
   */
  predicate HeadOk(p: Pack, c: Class, o: Id, ob: ObjectRow, row: VersionRow) {
    && !row.pruned && row.status == ob.status && ob.status in c.statuses
    && ob.naturalKey == Fill(row.tx.digest, NaturalKeyOf(p, c, o, row.hash.payload))
  }

  /**
   The query row says what the head's clear half says, placeholders apart as above; only an erasure moves
   the object's time alone.
   */
  predicate QueryOk(p: Pack, c: Class, ob: ObjectRow, row: VersionRow, q: QueryRow) {
    && q.status == ob.status
    && q.columns == FillColumns(row.tx.digest, Columns(p, c.projections, Clear(c.pii, row.hash.payload)))
    && (q.updatedAt == ob.updatedAt || ob.erased)
  }

  /** A subject's key is destroyed exactly when its record is erased. */
  predicate SubjectOk(c: Class, deks: map<Scope, Dek>, o: Id, ob: ObjectRow) {
    if c.encryption.EncSubject? then SubjectKey(o) in deks && (ob.erased <==> !deks[SubjectKey(o)].Live())
    else !ob.erased
  }

  ghost predicate VersionsOk(
    c: Class, deks: map<Scope, Dek>, versions: map<(Id, nat), VersionRow>, o: Id, head: nat)
  {
    forall v :: 1 <= v <= head ==> (o, v) in versions && VersionOk(c, deks, o, v, versions[(o, v)])
  }

  ghost predicate ObjectOk(p: Pack, rec: Records, deks: map<Scope, Dek>, o: Id)
    requires o in rec.objects
  {
    var ob := rec.objects[o];
    && ob.cls in p.classes && ob.head >= 1 && ob.naturalKey != ""
    && VersionsOk(p.classes[ob.cls], deks, rec.versions, o, ob.head)
    && (o, ob.head) in rec.versions && HeadOk(p, p.classes[ob.cls], o, ob, rec.versions[(o, ob.head)])
    && (TableOf(p.classes[ob.cls]), o) in rec.query
    && QueryOk(p, p.classes[ob.cls], ob, rec.versions[(o, ob.head)], rec.query[(TableOf(p.classes[ob.cls]), o)])
    && SubjectOk(p.classes[ob.cls], deks, o, ob)
  }

  // ---- the tables ---------------------------------------------------------------------

  ghost predicate ObjectsOk(p: Pack, rec: Records, deks: map<Scope, Dek>) {
    forall o :: o in rec.objects ==> ObjectOk(p, rec, deks, o)
  }

  /** An object's versions are exactly one to its head. */
  ghost predicate VersionsOwned(objects: map<Id, ObjectRow>, versions: map<(Id, nat), VersionRow>) {
    forall k :: k in versions ==> k.0 in objects && 1 <= k.1 <= objects[k.0].head
  }

  ghost predicate QueriesOwned(p: Pack, objects: map<Id, ObjectRow>, query: map<(QueryTable, Id), QueryRow>) {
    forall k :: k in query ==>
      && k.1 in objects && objects[k.1].cls in p.classes
      && k.0.cls == objects[k.1].cls && k.0 == TableOf(p.classes[objects[k.1].cls])
  }

  predicate ColumnsApart(query: map<(QueryTable, Id), QueryRow>, k: (QueryTable, Id), l: (QueryTable, Id))
    requires k in query && l in query
  {
    k.0 == l.0 && k.1 != l.1 ==> !Clash(query[k].columns, query[l].columns, k.0.unique)
  }

  /** No two rows of a query table agree on a column with a unique index. */
  ghost predicate ColumnsUnique(query: map<(QueryTable, Id), QueryRow>) {
    forall k, l :: k in query && l in query ==> ColumnsApart(query, k, l)
  }

  ghost predicate KeysUnique(objects: map<Id, ObjectRow>) {
    forall o, q :: o in objects && q in objects && SameKey(objects[o], objects[q]) ==> o == q
  }

  predicate SameKey(a: ObjectRow, b: ObjectRow) {
    a.cls == b.cls && a.naturalKey == b.naturalKey
  }

  predicate Keyed(p: Pack, cls: string) {
    cls in p.classes && p.classes[cls].naturalKey != ""
  }

  /** What one entry of the natural-key index claims. */
  predicate EntryRight(p: Pack, objects: map<Id, ObjectRow>, k: (string, string), row: KeyRow) {
    && Keyed(p, k.0)
    && row.objectId in objects && objects[row.objectId].cls == k.0 && objects[row.objectId].naturalKey == k.1
  }

  predicate Indexed(p: Pack, keys: map<(string, string), KeyRow>, o: Id, ob: ObjectRow) {
    Keyed(p, ob.cls) ==> (ob.cls, ob.naturalKey) in keys && keys[(ob.cls, ob.naturalKey)].objectId == o
  }

  /** The index names an object for a key exactly when the object's row has that class and key. */
  ghost predicate KeysAgree(p: Pack, objects: map<Id, ObjectRow>, keys: map<(string, string), KeyRow>) {
    && (forall k :: k in keys ==> EntryRight(p, objects, k, keys[k]))
    && (forall o :: o in objects ==> Indexed(p, keys, o, objects[o]))
  }

  predicate SubjectOwned(p: Pack, objects: map<Id, ObjectRow>, s: Scope) {
    s.SubjectKey? ==>
      && s.objectId in objects && objects[s.objectId].cls in p.classes
      && p.classes[objects[s.objectId].cls].encryption.EncSubject?
  }

  /** A subject key belongs to a record of a class with a key per subject. */
  ghost predicate SubjectsOwned(p: Pack, objects: map<Id, ObjectRow>, deks: map<Scope, Dek>) {
    forall s :: s in deks ==> SubjectOwned(p, objects, s)
  }

  ghost predicate PayloadResolves(p: Pack, objects: map<Id, ObjectRow>, o: Id, payload: Payload) {
    o in objects && objects[o].cls in p.classes ==>
      p.accepts(objects[o].cls, payload) && ReferencesOk(p, objects, map[], p.classes[objects[o].cls], payload)
  }

  /** The schema accepts every stored payload, and every reference it makes resolves to an object of the declared class. */
  ghost predicate ReferencesHold(p: Pack, objects: map<Id, ObjectRow>, versions: map<(Id, nat), VersionRow>) {
    forall k :: k in versions ==> PayloadResolves(p, objects, k.0, versions[k].hash.payload)
  }

  ghost predicate RecordsOk(p: Pack, rec: Records, deks: map<Scope, Dek>) {
    && DeksOk(deks)
    && ObjectsOk(p, rec, deks)
    && VersionsOwned(rec.objects, rec.versions)
    && QueriesOwned(p, rec.objects, rec.query) && ColumnsUnique(rec.query)
    && KeysUnique(rec.objects)
    && KeysAgree(p, rec.objects, rec.keys)
    && SubjectsOwned(p, rec.objects, deks)
    && ReferencesHold(p, rec.objects, rec.versions)
  }

  // ---- landing one change --------------------------------------------------------------------

  /** A draft as the three shapes make them: a new object's first version, or the next one of an old one. */
  predicate Proper(p: Pack, objects: map<Id, ObjectRow>, d: Draft) {
    && d.cls.name in p.classes && p.classes[d.cls.name] == d.cls
    && d.status in d.cls.statuses
    && (if d.objectId in objects then
          var ob := objects[d.objectId];
          ob.cls == d.cls.name && !ob.erased && d.version == ob.head + 1
        else d.version == 1)
  }

  /** The natural key a change lands under. */
  function KeyOf(p: Pack, tx: TxId, d: Draft): Settled {
    Fill(tx.digest, GivenKey(p, d))
  }

  /** The projected columns as a change lands them. */
  function ColumnsOf(p: Pack, tx: TxId, d: Draft): Payload {
    FillColumns(tx.digest, Columns(p, d.cls.projections, Clear(d.cls.pii, d.payload)))
  }

  function LandedKeys(
    keys: map<(string, string), KeyRow>, previous: Settled, d: Draft, naturalKey: Settled, at: int)
    : map<(string, string), KeyRow>
  {
    if d.cls.naturalKey == "" then keys
    else
      var kept := if previous != "" && previous != naturalKey then keys - {(d.cls.name, previous)} else keys;
      kept[(d.cls.name, naturalKey) := KeyRow(d.objectId, at)]
  }

  function LandedVersion(tx: TxId, at: int, d: Draft, key: Key): VersionRow {
    var hash := HashOf(d.cls, key, d.payload);
    VersionRow(
      tx, at, d.status, hash, Some(Seal(d.cls, d.objectId, d.version, hash)), DekScope(d.cls, d.objectId), false, "")
  }

  function LandedObject(p: Pack, objects: map<Id, ObjectRow>, tx: TxId, at: int, d: Draft): ObjectRow {
    var naturalKey := KeyOf(p, tx, d);
    if d.version > 1 && d.objectId in objects then
      ObjectRow(
        d.cls.name, naturalKey, d.version, d.status, objects[d.objectId].createdAt, objects[d.objectId].createdTx, at,
        tx, false)
    else ObjectRow(d.cls.name, naturalKey, d.version, d.status, at, tx, at, tx, false)
  }

  function LandedQuery(p: Pack, tx: TxId, at: int, d: Draft): QueryRow {
    QueryRow(d.status, at, ColumnsOf(p, tx, d))
  }

  /** The record tables after one change that retires `previous`, table by table. */
  function LandedOver(p: Pack, rec: Records, tx: TxId, at: int, d: Draft, key: Key, previous: Settled): Records {
    Records(
      rec.objects[d.objectId := LandedObject(p, rec.objects, tx, at, d)],
      rec.versions[(d.objectId, d.version) := LandedVersion(tx, at, d, key)],
      LandedKeys(rec.keys, previous, d, KeyOf(p, tx, d), at),
      rec.query[(TableOf(d.cls), d.objectId) := LandedQuery(p, tx, at, d)],
      rec.marks)
  }

  /** The same, when the change was built for these tables. */
  function Landed(p: Pack, rec: Records, tx: TxId, at: int, d: Draft, key: Key): Records {
    LandedOver(p, rec, tx, at, d, key, PreviousKey(rec.objects, d.objectId))
  }

  function LandedDeks(deks: map<Scope, Dek>, w: WriteCtx, d: Draft, e: Ensured): map<Scope, Dek> {
    if e.mint == [] then deks
    else
      var s := DekScope(d.cls, d.objectId);
      deks[s := Dek(Wrapped(s, e.key), if w.recover then Wrapped(s, e.key) else NoWrap, w.at, 0)]
  }

  function LandedDb(p: Pack, db: Db, tx: TxId, w: WriteCtx, d: Draft, e: Ensured): Db {
    db.(rec := Landed(p, db.rec, tx, w.at, d, e.key), deks := LandedDeks(db.deks, w, d, e))
  }

  predicate MintsFor(w: WriteCtx, d: Draft, e: Ensured) {
    e.mint == [] || e.mint == [MintOf(w, DekScope(d.cls, d.objectId), e.key)]
  }

  /** The index writes: retiring the key that is about to be put again would change nothing. */
  lemma KeyOpsLand(db: Db, tx: TxId, previous: Settled, d: Draft, naturalKey: string, at: int)
    ensures
      Apply(db, tx, KeyOps(previous, d.cls, d.objectId, naturalKey, at)) ==
      Some(db.(rec := db.rec.(keys := LandedKeys(db.rec.keys, previous, d, Fill(tx.digest, naturalKey), at))))
  {
    var filled, row := Fill(tx.digest, naturalKey), KeyRow(d.objectId, at);
    assert (db.rec.keys - {(d.cls.name, filled)})[(d.cls.name, filled) := row] == db.rec.keys[(d.cls.name, filled) := row];
    var put := Rec(PutKey(d.cls.name, naturalKey, d.objectId, at));
    if d.cls.naturalKey != "" {
      if previous != "" && previous != naturalKey {
        var drop := Rec(DropKey(d.cls.name, previous));
        ApplyAppend(db, tx, [drop], [put]);
        ApplySingle(db, tx, drop);
        ApplySingle(ApplyOne(db, tx, drop).value, tx, put);
      } else {
        assert [] + [put] == [put];
        ApplySingle(db, tx, put);
      }
    }
  }

  function HeadOps(p: Pack, w: WriteCtx, d: Draft, key: Key): seq<Op> {
    var hash := HashOf(d.cls, key, d.payload);
    [Rec(PutVersion(
       d.objectId, d.version, w.at, d.status, hash, Seal(d.cls, d.objectId, d.version, hash),
       DekScope(d.cls, d.objectId))),
     Rec(PutObject(
       d.objectId, d.cls.name, GivenKey(p, d), d.version, d.status, w.at,
       d.version <= 1))]
  }

  lemma HeadOpsLand(p: Pack, db: Db, tx: TxId, w: WriteCtx, d: Draft, key: Key)
    ensures
      var after := Apply(db, tx, HeadOps(p, w, d, key));
      && (after.Some? <==>
            !Taken(db.rec.objects, d.cls.name, KeyOf(p, tx, d), d.objectId) && (d.version <= 1 || d.objectId in db.rec.objects))
      && (after.Some? ==> after.value == db.(rec := db.rec.(
            objects := db.rec.objects[d.objectId := LandedObject(p, db.rec.objects, tx, w.at, d)],
            versions := db.rec.versions[(d.objectId, d.version) := LandedVersion(tx, w.at, d, key)])))
  {
    var ops := HeadOps(p, w, d, key);
    assert ops == [ops[0]] + [ops[1]];
    ApplyAppend(db, tx, [ops[0]], [ops[1]]);
    ApplySingle(db, tx, ops[0]);
    ApplySingle(ApplyOne(db, tx, ops[0]).value, tx, ops[1]);
  }

  lemma MintLands(db: Db, tx: TxId, w: WriteCtx, d: Draft, e: Ensured)
    requires MintsFor(w, d, e)
    ensures Apply(db, tx, e.mint) == Some(db.(deks := LandedDeks(db.deks, w, d, e)))
  {
    if e.mint != [] {
      ApplySingle(db, tx, e.mint[0]);
    }
  }

  /** Another record's row holds a value this change would put under a unique index. */
  predicate ColumnsTaken(p: Pack, query: map<(QueryTable, Id), QueryRow>, tx: TxId, d: Draft) {
    ColumnHeld(query, TableOf(d.cls), d.objectId, ColumnsOf(p, tx, d))
  }

  /**
   Applying a record's write set, wherever it was built: it lands unless another object holds its
   natural key or one of its unique columns or there is no row to update, and then the tables are these.
   */
  lemma RecordLands(
    p: Pack, db: Db, tx: TxId, w: WriteCtx, d: Draft, e: Ensured, objects: map<Id, ObjectRow>)
    requires MintsFor(w, d, e)
    ensures
      var after := Apply(db, tx, RecordOps(p, objects, w, d, e));
      var previous := PreviousKey(objects, d.objectId);
      && (after.Some? <==>
            && !Taken(db.rec.objects, d.cls.name, KeyOf(p, tx, d), d.objectId)
            && (d.version <= 1 || d.objectId in db.rec.objects)
            && !ColumnsTaken(p, db.rec.query, tx, d))
      && (after.Some? ==> after.value == db.(
            rec := LandedOver(p, db.rec, tx, w.at, d, e.key, previous), deks := LandedDeks(db.deks, w, d, e)))
  {
    var naturalKey := GivenKey(p, d);
    var head := HeadOps(p, w, d, e.key);
    var previous := PreviousKey(objects, d.objectId);
    var keyOps := KeyOps(previous, d.cls, d.objectId, naturalKey, w.at);
    var last := [Rec(ProjectionOp(p, d.cls, d.objectId, d.status, w.at, Clear(d.cls.pii, d.payload)))];
    assert RecordOps(p, objects, w, d, e) == e.mint + head + keyOps + last;
    ApplyAppend(db, tx, e.mint + head + keyOps, last);
    ApplyAppend(db, tx, e.mint + head, keyOps);
    ApplyAppend(db, tx, e.mint, head);
    MintLands(db, tx, w, d, e);
    var db1 := db.(deks := LandedDeks(db.deks, w, d, e));
    HeadOpsLand(p, db1, tx, w, d, e.key);
    var after := Apply(db1, tx, head);
    if after.Some? {
      KeyOpsLand(after.value, tx, previous, d, naturalKey, w.at);
      ApplySingle(Apply(after.value, tx, keyOps).value, tx, last[0]);
    }
  }
}
