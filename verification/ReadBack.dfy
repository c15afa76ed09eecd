/**
 What comes back out: reading any version of any record, moving a record's status, rebuilding a query
 projection, and what personal data can influence.
 */
module ReadBack {
  import opened Outcomes
  import opened Tables
  import opened Packs
  import opened RecordBuild
  import opened RecordInvariant
  import Canon

  // ---- reading back -------------------------------------------------------------------

  /** What a reader is owed of a stored version, from the payload it commits to. */
  function Owed(pii: set<string>, deks: map<Scope, Dek>, cleared: bool, row: VersionRow): Reading {
    if row.pruned then Pruned(row.policy)
    else if row.hash.PlainHash? then Read(row.hash.payload, false, false)
    else if !cleared then Read(Clear(pii, row.hash.payload), true, false)
    else if row.scope in deks && deks[row.scope].Live() then Read(row.hash.payload, false, false)
    else Read(Clear(pii, row.hash.payload), true, true)
  }

  /**
   In every state the invariant allows, every version of every object reads back: whole to a cleared
   reader while the key lives, without its personal part to anyone else or once the key is gone, and
   as pruned when it was pruned. Reading never fails.
   */
  lemma ReadsBack(p: Pack, rec: Records, deks: map<Scope, Dek>, cleared: bool, k: (Id, nat))
    requires ClassesOk(p.classes) && RecordsOk(p, rec, deks) && k in rec.versions
    ensures k.0 in rec.objects && rec.objects[k.0].cls in p.classes
    ensures
      ReadRow(deks, cleared, k.0, k.1, rec.versions[k]) ==
      Ok(Owed(p.classes[rec.objects[k.0].cls].pii, deks, cleared, rec.versions[k]))
  {
    assert ObjectOk(p, rec, deks, k.0);
    var c, row := p.classes[rec.objects[k.0].cls], rec.versions[k];
    assert VersionOk(c, deks, k.0, k.1, row);
    SplitMerges(c.pii, row.hash.payload);
    if row.hash.PlainHash? {
      assert ClassOk(c);
      ClearOfNone(row.hash.payload);
    }
  }

  /** What the invariant says of one object's head. */
  lemma HeadRow(p: Pack, rec: Records, deks: map<Scope, Dek>, o: Id)
    requires ObjectsOk(p, rec, deks) && o in rec.objects
    ensures
      var ob := rec.objects[o];
      && ob.cls in p.classes && (o, ob.head) in rec.versions && (TableOf(p.classes[ob.cls]), o) in rec.query
      && VersionOk(p.classes[ob.cls], deks, o, ob.head, rec.versions[(o, ob.head)])
      && HeadOk(p, p.classes[ob.cls], o, ob, rec.versions[(o, ob.head)])
      && QueryOk(p, p.classes[ob.cls], ob, rec.versions[(o, ob.head)], rec.query[(TableOf(p.classes[ob.cls]), o)])
      && SubjectOk(p.classes[ob.cls], deks, o, ob)
  {
    assert ObjectOk(p, rec, deks, o);
  }

  lemma NewestIsHead(objects: map<Id, ObjectRow>, versions: map<(Id, nat), VersionRow>, o: Id)
    requires VersionsOwned(objects, versions)
    requires o in objects ==> (o, objects[o].head) in versions
    ensures Newest(versions, o) == if o in objects then Some(objects[o].head) else None
  {
    if o in objects {
      forall w | (o, w) in versions
        ensures w <= objects[o].head
      {
      }
      assert IsNewest(versions, o, objects[o].head);
    } else {
      forall v: nat
        ensures !IsNewest(versions, o, v)
      {
        assert (o, v) in versions ==> (o, v).0 in objects;
      }
    }
  }

  /** A key that is not destroyed with its subject is live. */
  lemma KeyLives(c: Class, deks: map<Scope, Dek>, o: Id, ob: ObjectRow, v: nat, row: VersionRow)
    requires DeksOk(deks) && VersionOk(c, deks, o, v, row) && SubjectOk(c, deks, o, ob)
    ensures row.hash.KeyedHash? && !ob.erased ==> row.scope in deks && deks[row.scope].Live()
  {
    if row.hash.KeyedHash? {
      assert DekOk(row.scope, deks[row.scope]);
    }
  }

  /** The head of a record that is not erased, read by the register itself, is the payload written. */
  lemma HeadReads(p: Pack, db: Db, o: Id)
    requires ClassesOk(p.classes) && RecordsOk(p, db.rec, db.deks) && o in db.rec.objects
    ensures (o, db.rec.objects[o].head) in db.rec.versions
    ensures HeadVersion(db, o).Ok?
    ensures HeadVersion(db, o).value.0 == db.rec.objects[o].status
    ensures !db.rec.objects[o].erased ==>
      HeadVersion(db, o).value.1 == db.rec.versions[(o, db.rec.objects[o].head)].hash.payload
  {
    var ob := db.rec.objects[o];
    HeadRow(p, db.rec, db.deks, o);
    NewestIsHead(db.rec.objects, db.rec.versions, o);
    var row := db.rec.versions[(o, ob.head)];
    KeyLives(p.classes[ob.cls], db.deks, o, ob, ob.head, row);
    ReadsBack(p, db.rec, db.deks, true, (o, ob.head));
    HeadVersionIs(db, o, ob.head, Owed(p.classes[ob.cls].pii, db.deks, true, row));
  }

  lemma HeadVersionIs(db: Db, o: Id, v: nat, r: Reading)
    requires Newest(db.rec.versions, o) == Some(v) && (o, v) in db.rec.versions && r.Read?
    requires ReadRow(db.deks, true, o, v, db.rec.versions[(o, v)]) == Ok(r)
    ensures HeadVersion(db, o) == Ok((db.rec.versions[(o, v)].status, r.payload))
  {
  }

  // ---- status changes ---------------------------------------------------------------------

  /** What a status draft is made of. */
  lemma StatusDraftIs(db: Db, c: Class, o: Id, status: string, m: Minted)
    requires HeadVersion(db, o).Ok? && StatusDraft(db, c, o, status, m).Ok?
    ensures StatusDraft(db, c, o, status, m).value.None? <==> HeadVersion(db, o).value.0 == status
    ensures StatusDraft(db, c, o, status, m).value.Some? ==>
      var d := StatusDraft(db, c, o, status, m).value.value;
      && o in db.rec.objects && !db.rec.objects[o].erased && db.rec.objects[o].cls == c.name
      && d.cls == c && d.objectId == o && d.payload == HeadVersion(db, o).value.1 && (status != "" ==> d.status == status)
  {
  }

  /** Some projected text is the placeholder. */
  ghost predicate Placeheld(columns: Payload) {
    exists c :: c in columns && columns[c] == Canon.Str(PLACEHOLDER)
  }

  /** Columns filled with two ids are the same exactly when the ids are or there was nothing to fill. */
  lemma FillsAlike(columns: Payload, id: Settled, other: Settled)
    ensures FillColumns(id, columns) == FillColumns(other, columns) <==> id == other || !Placeheld(columns)
  {
    if Placeheld(columns) {
      var c :| c in columns && columns[c] == Canon.Str(PLACEHOLDER);
      assert FillColumns(id, columns)[c] == Canon.Str(id) && FillColumns(other, columns)[c] == Canon.Str(other);
    }
  }

  /** The columns a payload projects, placeholder or not. */
  function GivenColumns(p: Pack, c: Class, payload: Payload): Payload {
    Columns(p, c.projections, Clear(c.pii, payload))
  }

  /** A head's payload, kept, keeps the natural key and the projected columns unless they stand for the id. */
  lemma CarriedOver(p: Pack, tx: TxId, c: Class, o: Id, ob: ObjectRow, row: VersionRow, q: QueryRow, d: Draft)
    requires HeadOk(p, c, o, ob, row) && QueryOk(p, c, ob, row, q)
    requires d.cls == c && d.objectId == o && d.payload == row.hash.payload
    ensures KeyOf(p, tx, d) == ob.naturalKey <==> tx.digest == row.tx.digest || GivenKey(p, d) != PLACEHOLDER
    ensures ColumnsOf(p, tx, d) == q.columns <==> tx.digest == row.tx.digest || !Placeheld(GivenColumns(p, c, d.payload))
  {
    FillsAlike(GivenColumns(p, c, d.payload), tx.digest, row.tx.digest);
  }

  /**
   A status change carries the payload over unchanged. Landed by any transaction but the head's own, it
   keeps the record's natural key exactly when the payload's key is not the placeholder, and its projected
   columns exactly when no projected text is; otherwise they move on to the new transaction's id. A record
   already there is left alone.
   */
  lemma StatusCarriesPayload(p: Pack, db: Db, tx: TxId, c: Class, o: Id, status: string, m: Minted)
    requires ClassesOk(p.classes) && RecordsOk(p, db.rec, db.deks)
    requires c.name in p.classes && p.classes[c.name] == c
    requires StatusDraft(db, c, o, status, m).Ok?
    ensures o in db.rec.objects
    ensures StatusDraft(db, c, o, status, m).value.None? <==> db.rec.objects[o].status == status
    ensures StatusDraft(db, c, o, status, m).value.Some? ==>
      var d := StatusDraft(db, c, o, status, m).value.value;
      var ob := db.rec.objects[o];
      && (o, ob.head) in db.rec.versions && (TableOf(c), o) in db.rec.query
      && (var head := db.rec.versions[(o, ob.head)];
          && d.payload == head.hash.payload
          && (KeyOf(p, tx, d) == ob.naturalKey <==> tx.digest == head.tx.digest || GivenKey(p, d) != PLACEHOLDER)
          && (LandedQuery(p, tx, 0, d).columns == db.rec.query[(TableOf(c), o)].columns <==>
                tx.digest == head.tx.digest || !Placeheld(GivenColumns(p, c, d.payload))))
      && (status != "" ==> d.status == status)
  {
    if o !in db.rec.objects {
      NewestIsHead(db.rec.objects, db.rec.versions, o);
    } else {
      HeadReads(p, db, o);
      HeadRow(p, db.rec, db.deks, o);
      StatusDraftIs(db, c, o, status, m);
      var ob := db.rec.objects[o];
      var d := StatusDraft(db, c, o, status, m).value;
      if d.Some? {
        CarriedOver(p, tx, c, o, ob, db.rec.versions[(o, ob.head)], db.rec.query[(TableOf(c), o)], d.value);
      }
    }
  }

  // ---- natural keys as payloads give them ---------------------------------------------------------

  /** The natural key in an object's head. */
  function HeadKey(p: Pack, rec: Records, o: Id): string
    requires o in rec.objects && rec.objects[o].cls in p.classes && (o, rec.objects[o].head) in rec.versions
  {
    NaturalKeyOf(p, p.classes[rec.objects[o].cls], o, rec.versions[(o, rec.objects[o].head)].hash.payload)
  }

  predicate Headed(p: Pack, rec: Records, o: Id) {
    o in rec.objects && rec.objects[o].cls in p.classes && (o, rec.objects[o].head) in rec.versions
  }

  /** Two objects of one class whose heads give one key. */
  predicate GivenTwice(p: Pack, rec: Records, o: Id, q: Id) {
    && o != q && Headed(p, rec, o) && Headed(p, rec, q) && rec.objects[o].cls == rec.objects[q].cls
    && HeadKey(p, rec, o) == HeadKey(p, rec, q)
  }

  /** The unique index keeps given keys apart exactly as far as they are not the placeholder. */
  lemma GivenKeysUnique(p: Pack, rec: Records, deks: map<Scope, Dek>, o: Id, q: Id)
    requires RecordsOk(p, rec, deks) && GivenTwice(p, rec, o, q)
    ensures HeadKey(p, rec, o) == PLACEHOLDER
  {
    HeadRow(p, rec, deks, o);
    HeadRow(p, rec, deks, q);
    assert !SameKey(rec.objects[o], rec.objects[q]);
  }

  /** A record is found in the index under the key its head gives exactly when that is not the placeholder. */
  lemma FoundUnderGivenKey(p: Pack, rec: Records, deks: map<Scope, Dek>, o: Id)
    requires RecordsOk(p, rec, deks) && o in rec.objects && Keyed(p, rec.objects[o].cls)
    ensures Headed(p, rec, o)
    ensures
      var k := (rec.objects[o].cls, HeadKey(p, rec, o));
      (k in rec.keys && rec.keys[k].objectId == o) <==> HeadKey(p, rec, o) != PLACEHOLDER
  {
    HeadRow(p, rec, deks, o);
    assert Indexed(p, rec.keys, o, rec.objects[o]);
    var k := (rec.objects[o].cls, HeadKey(p, rec, o));
    if k in rec.keys {
      assert EntryRight(p, rec.objects, k, rec.keys[k]);
    }
  }

  // ---- rebuilding a projection ------------------------------------------------------------------

  /** The row `repopulateProjection` writes for one object, when it writes one: it fills in no id. */
  function Rebuilt(p: Pack, rec: Records, c: Class, o: Id): Option<QueryRow>
    requires o in rec.objects
  {
    var ob := rec.objects[o];
    if (o, ob.head) !in rec.versions || rec.versions[(o, ob.head)].pruned then None
    else
      var row := rec.versions[(o, ob.head)];
      if row.body.None? then None
      else
        var given := ProjectionOp(p, c, o, ob.status, ob.updatedAt, row.body.value.clear).row;
        Some(given.(columns := FillColumns("", given.columns)))
  }

  function Lookup<K, V>(m: map<K, V>, k: K): Option<V> {
    if k in m then Some(m[k]) else None
  }

  /** The row under a key once the objects in `done` have been put into the table made anew. */
  function RowAfter(p: Pack, rec: Records, c: Class, done: set<Id>, k: (QueryTable, Id)): Option<QueryRow> {
    if k.0 != TableOf(c) then Lookup(rec.query, k)
    else if k.1 in done && k.1 in rec.objects then Rebuilt(p, rec, c, k.1)
    else None
  }

  function OfClass(rec: Records, c: Class): set<Id> {
    set o | o in rec.objects && rec.objects[o].cls == c.name
  }

  ghost predicate IsRebuild(p: Pack, rec: Records, c: Class, done: set<Id>, now: map<(QueryTable, Id), QueryRow>) {
    forall k :: Lookup(now, k) == RowAfter(p, rec, c, done, k)
  }

  /** The rows of two objects agree on a column with a unique index. */
  predicate RowsClash(p: Pack, rec: Records, c: Class, o: Id, q: Id)
    requires o in rec.objects && q in rec.objects
  {
    && o != q && Rebuilt(p, rec, c, o).Some? && Rebuilt(p, rec, c, q).Some?
    && Clash(Rebuilt(p, rec, c, o).value.columns, Rebuilt(p, rec, c, q).value.columns, UniqueColumns(c))
  }

  ghost predicate RowsFit(p: Pack, rec: Records, c: Class, done: set<Id>)
    requires done <= rec.objects.Keys
  {
    forall o, q :: o in done && q in done ==> !RowsClash(p, rec, c, o, q)
  }

  /** The body of the loop of `repopulateProjection`. */
  method PutRebuilt(p: Pack, rec: Records, c: Class, o: Id, now: map<(QueryTable, Id), QueryRow>)
    returns (next: Option<map<(QueryTable, Id), QueryRow>>)
    requires o in rec.objects
    ensures
      var row := Rebuilt(p, rec, c, o);
      next ==
      if row.None? then Some(now)
      else if ColumnHeld(now, TableOf(c), o, row.value.columns) then None
      else Some(now[(TableOf(c), o) := row.value])
  {
    var ob := rec.objects[o];
    if (o, ob.head) !in rec.versions || rec.versions[(o, ob.head)].pruned || rec.versions[(o, ob.head)].body.None? {
      return Some(now);
    }
    var given := ProjectionOp(p, c, o, ob.status, ob.updatedAt, rec.versions[(o, ob.head)].body.value.clear).row;
    next := PutRow(now, "", TableOf(c), o, given);
  }

  /**
   `ensureProjections` making one table anew: every object of the class, in whatever order the query
   returns them. The unique indexes are there from the start, and any of them can refuse.
   */
  method Repopulate(p: Pack, rec: Records, c: Class) returns (r: Option<map<(QueryTable, Id), QueryRow>>)
    ensures r.Some? <==> RowsFit(p, rec, c, OfClass(rec, c))
    ensures r.Some? ==> IsRebuild(p, rec, c, OfClass(rec, c), r.value)
  {
    var now := rec.query - (set k | k in rec.query && k.0 == TableOf(c));
    var todo := OfClass(rec, c);
    while todo != {}
      invariant todo <= OfClass(rec, c)
      invariant IsRebuild(p, rec, c, OfClass(rec, c) - todo, now)
      invariant RowsFit(p, rec, c, OfClass(rec, c) - todo)
      decreases |todo|
    {
      var o :| o in todo;
      ghost var done := OfClass(rec, c) - todo;
      var next := PutRebuilt(p, rec, c, o, now);
      if Rebuilt(p, rec, c, o).Some? {
        RowRefused(p, rec, c, done, o, now);
      }
      if next.None? {
        return None;
      }
      RebuildStep(p, rec, c, done, o, now, next.value);
      now := next.value;
      assert OfClass(rec, c) - (todo - {o}) == done + {o};
      todo := todo - {o};
    }
    assert OfClass(rec, c) - todo == OfClass(rec, c);
    return Some(now);
  }

  /** The unique indexes refuse a row exactly when it clashes with one already there. */
  lemma RowRefused(p: Pack, rec: Records, c: Class, done: set<Id>, o: Id, now: map<(QueryTable, Id), QueryRow>)
    requires done <= rec.objects.Keys && IsRebuild(p, rec, c, done, now) && o in rec.objects && o !in done
    requires Rebuilt(p, rec, c, o).Some?
    ensures
      ColumnHeld(now, TableOf(c), o, Rebuilt(p, rec, c, o).value.columns) <==>
      exists q :: q in done && RowsClash(p, rec, c, q, o)
  {
    var columns := Rebuilt(p, rec, c, o).value.columns;
    if ColumnHeld(now, TableOf(c), o, columns) {
      var k :| k in now && k.0 == TableOf(c) && k.1 != o && Clash(now[k].columns, columns, UniqueColumns(c));
      assert Lookup(now, k) == RowAfter(p, rec, c, done, k);
      assert RowsClash(p, rec, c, k.1, o);
    }
    if q :| q in done && RowsClash(p, rec, c, q, o) {
      var k := (TableOf(c), q);
      assert Lookup(now, k) == RowAfter(p, rec, c, done, k);
      assert k in now && Clash(now[k].columns, columns, UniqueColumns(c));
    }
  }

  lemma RebuildStep(
    p: Pack, rec: Records, c: Class, done: set<Id>, o: Id, before: map<(QueryTable, Id), QueryRow>,
    now: map<(QueryTable, Id), QueryRow>)
    requires IsRebuild(p, rec, c, done, before) && done <= rec.objects.Keys && o in rec.objects && o !in done
    requires RowsFit(p, rec, c, done) && forall q :: q in done ==> !RowsClash(p, rec, c, q, o)
    requires now == if Rebuilt(p, rec, c, o).Some? then before[(TableOf(c), o) := Rebuilt(p, rec, c, o).value] else before
    ensures IsRebuild(p, rec, c, done + {o}, now) && RowsFit(p, rec, c, done + {o})
  {
    forall k
      ensures Lookup(now, k) == RowAfter(p, rec, c, done + {o}, k)
    {
      assert Lookup(before, k) == RowAfter(p, rec, c, done, k);
    }
    forall x, y | x in done + {o} && y in done + {o}
      ensures !RowsClash(p, rec, c, x, y)
    {
      ClashBothWays(p, rec, c, x, y);
    }
  }

  lemma ClashBothWays(p: Pack, rec: Records, c: Class, o: Id, q: Id)
    requires o in rec.objects && q in rec.objects
    ensures RowsClash(p, rec, c, o, q) <==> RowsClash(p, rec, c, q, o)
  {
  }

  /** What the head of an object gives for its class's columns. */
  function HeadColumns(p: Pack, rec: Records, c: Class, o: Id): Payload
    requires o in rec.objects && (o, rec.objects[o].head) in rec.versions
  {
    GivenColumns(p, c, rec.versions[(o, rec.objects[o].head)].hash.payload)
  }

  lemma RebuiltIsHeld(p: Pack, rec: Records, deks: map<Scope, Dek>, c: Class, o: Id)
    requires ObjectsOk(p, rec, deks) && c.name in p.classes && p.classes[c.name] == c
    requires o in rec.objects && rec.objects[o].cls == c.name
    ensures (TableOf(c), o) in rec.query && (o, rec.objects[o].head) in rec.versions && Rebuilt(p, rec, c, o).Some?
    ensures
      var q, r, given := rec.query[(TableOf(c), o)], Rebuilt(p, rec, c, o).value, HeadColumns(p, rec, c, o);
      && r.columns == FillColumns("", given)
      && q.columns == FillColumns(rec.versions[(o, rec.objects[o].head)].tx.digest, given)
      && (r.columns == q.columns <==> !Placeheld(given)) && r.status == q.status
      && (r.columns == q.columns ==> r == q || rec.objects[o].erased)
  {
    HeadRow(p, rec, deks, o);
    FillsAlike(HeadColumns(p, rec, c, o), "", rec.versions[(o, rec.objects[o].head)].tx.digest);
  }

  /** A text that a rebuild leaves blank. */
  predicate LeftBlank(v: Canon.Value) {
    v == Canon.Str("") || v == Canon.Str(PLACEHOLDER)
  }

  /** Two records that a rebuild leaves blank in one column with a unique index. */
  predicate BlankTogether(p: Pack, rec: Records, c: Class, o: Id, q: Id) {
    && o != q && o in rec.objects && q in rec.objects
    && (o, rec.objects[o].head) in rec.versions && (q, rec.objects[q].head) in rec.versions
    && exists col :: col in UniqueColumns(c) && col in HeadColumns(p, rec, c, o) && col in HeadColumns(p, rec, c, q)
         && LeftBlank(HeadColumns(p, rec, c, o)[col]) && LeftBlank(HeadColumns(p, rec, c, q)[col])
  }

  /** Two rebuilt rows clash exactly when both are left blank in one column with a unique index. */
  lemma ClashIsBlank(p: Pack, rec: Records, deks: map<Scope, Dek>, c: Class, o: Id, q: Id)
    requires RecordsOk(p, rec, deks) && c.name in p.classes && p.classes[c.name] == c
    requires o in OfClass(rec, c) && q in OfClass(rec, c)
    ensures RowsClash(p, rec, c, o, q) <==> BlankTogether(p, rec, c, o, q)
  {
    RebuiltIsHeld(p, rec, deks, c, o);
    RebuiltIsHeld(p, rec, deks, c, q);
    var a, b := HeadColumns(p, rec, c, o), HeadColumns(p, rec, c, q);
    var x, y := Rebuilt(p, rec, c, o).value.columns, Rebuilt(p, rec, c, q).value.columns;
    if RowsClash(p, rec, c, o, q) {
      var col :| col in UniqueColumns(c) && col in x && col in y && x[col] == y[col];
      assert ColumnsApart(rec.query, (TableOf(c), o), (TableOf(c), q));
      assert x[col] == FillValue("", a[col]) && y[col] == FillValue("", b[col]);
      assert rec.query[(TableOf(c), o)].columns[col] != rec.query[(TableOf(c), q)].columns[col];
      assert LeftBlank(a[col]) && LeftBlank(b[col]);
    }
    if BlankTogether(p, rec, c, o, q) {
      var col :| col in UniqueColumns(c) && col in a && col in b && LeftBlank(a[col]) && LeftBlank(b[col]);
      assert x[col] == Canon.Str("") && y[col] == Canon.Str("");
    }
  }

  /**
   A rebuild run at any moment is refused exactly when it leaves two records of the class blank in one
   column with a unique index.
   */
  lemma RebuildLandsExactly(p: Pack, rec: Records, deks: map<Scope, Dek>, c: Class)
    requires RecordsOk(p, rec, deks) && c.name in p.classes && p.classes[c.name] == c
    ensures
      RowsFit(p, rec, c, OfClass(rec, c)) <==>
      forall o, q :: o in OfClass(rec, c) && q in OfClass(rec, c) ==> !BlankTogether(p, rec, c, o, q)
  {
    forall o, q | o in OfClass(rec, c) && q in OfClass(rec, c)
      ensures RowsClash(p, rec, c, o, q) <==> BlankTogether(p, rec, c, o, q)
    {
      ClashIsBlank(p, rec, deks, c, o, q);
    }
  }

  /**
   A rebuild adds no row and drops none. A row of the class keeps its status; it keeps its columns exactly
   when no projected text of the record's head is the placeholder, and then its time too unless the record
   was erased since. Otherwise every such text is left blank.
   */
  lemma RebuildChangesExactly(
    p: Pack, rec: Records, deks: map<Scope, Dek>, c: Class, now: map<(QueryTable, Id), QueryRow>, k: (QueryTable, Id))
    requires RecordsOk(p, rec, deks) && c.name in p.classes && p.classes[c.name] == c
    requires IsRebuild(p, rec, c, OfClass(rec, c), now)
    ensures k in now <==> k in rec.query
    ensures k in now && k.0 != TableOf(c) ==> now[k] == rec.query[k]
    ensures k in now && k.0 == TableOf(c) ==>
      && k.1 in rec.objects && (k.1, rec.objects[k.1].head) in rec.versions
      && (var given := HeadColumns(p, rec, c, k.1);
          && now[k].status == rec.query[k].status && now[k].columns == FillColumns("", given)
          && (now[k].columns == rec.query[k].columns <==> !Placeheld(given))
          && (!Placeheld(given) ==> now[k] == rec.query[k] || rec.objects[k.1].erased))
  {
    assert Lookup(now, k) == RowAfter(p, rec, c, OfClass(rec, c), k);
    if k.0 == TableOf(c) && k.1 in OfClass(rec, c) {
      RebuiltIsHeld(p, rec, deks, c, k.1);
    } else if k.0 == TableOf(c) {
      assert k !in rec.query;
    }
  }

  // ---- what personal data can influence ----------------------------------------------------------

  /** Blank what only the holder of a key can tell apart: the ciphertext's data and the keyed commitment. */
  function Masked(op: Op): Op {
    if op.Rec? && op.r.PutVersion? && op.r.hash.KeyedHash? then
      Rec(op.r.(
        hash := KeyedHash(op.r.hash.key, map[]),
        body := Stored(
          op.r.body.clear, if op.r.body.enc.None? then None else Some(op.r.body.enc.value.(data := map[])))))
    else op
  }

  function MaskedAll(ops: seq<Op>): (r: seq<Op>)
    ensures |r| == |ops|
    ensures forall i :: 0 <= i < |ops| ==> r[i] == Masked(ops[i])
  {
    seq(|ops|, i requires 0 <= i < |ops| => Masked(ops[i]))
  }

  lemma ColumnsFromClear(p: Pack, c: Class, a: Payload, b: Payload)
    requires Clear(c.pii, a) == Clear(c.pii, b) && ClassOk(c)
    ensures NaturalKeyOf(p, c, "", a) == NaturalKeyOf(p, c, "", b)
    ensures forall o :: NaturalKeyOf(p, c, o, a) == NaturalKeyOf(p, c, o, b)
  {
    if c.naturalKey != "" {
      assert c.naturalKey in a <==> c.naturalKey in Clear(c.pii, a);
      assert c.naturalKey in b <==> c.naturalKey in Clear(c.pii, b);
      assert c.naturalKey in a ==> a[c.naturalKey] == Clear(c.pii, a)[c.naturalKey];
      assert c.naturalKey in b ==> b[c.naturalKey] == Clear(c.pii, b)[c.naturalKey];
    }
  }

  /**
   Two payloads that differ only in personal data yield write sets that differ only inside the
   ciphertext and the keyed commitment: the natural key, the clear half, the index and the query row
   are the same. What they can decide is only whether the schema or a reference accepts them.
   */
  lemma PersonalDataStaysSealed(p: Pack, db: Db, w: WriteCtx, d: Draft, other: Payload)
    requires ClassesOk(p.classes) && d.cls.name in p.classes && p.classes[d.cls.name] == d.cls
    requires Clear(d.cls.pii, d.payload) == Clear(d.cls.pii, other)
    ensures
      var a, b := BuildRecord(p, db, w, d), BuildRecord(p, db, w, d.(payload := other));
      && (a.Ok? && b.Ok? ==> MaskedAll(a.value) == MaskedAll(b.value))
      && (a.Ok? && b.Err? ==> b.error == Refused("schema") || b.error == Refused("reference"))
      && (d.cls.encryption.EncNone? ==> a == b)
  {
    var e := d.(payload := other);
    ColumnsFromClear(p, d.cls, d.payload, other);
    if d.cls.encryption.EncNone? {
      ClearOfNone(d.payload);
      ClearOfNone(other);
    }
    var a, b := BuildRecord(p, db, w, d), BuildRecord(p, db, w, e);
    if a.Ok? && b.Ok? {
      var k := EnsureFor(db.deks, w, d).value;
      MaskedOps(p, db.rec.objects, w, d, other, k);
    }
  }

  lemma MaskedOps(p: Pack, objects: map<Id, ObjectRow>, w: WriteCtx, d: Draft, other: Payload, e: Ensured)
    requires Clear(d.cls.pii, d.payload) == Clear(d.cls.pii, other)
    requires NaturalKeyOf(p, d.cls, d.objectId, d.payload) == NaturalKeyOf(p, d.cls, d.objectId, other)
    requires d.cls.encryption.EncNone? ==> d.payload == other
    ensures
      MaskedAll(RecordOps(p, objects, w, d, e)) == MaskedAll(RecordOps(p, objects, w, d.(payload := other), e))
  {
    var xs, ys := RecordOps(p, objects, w, d, e), RecordOps(p, objects, w, d.(payload := other), e);
    var n := |e.mint|;
    assert |xs| == |ys|;
    forall i | 0 <= i < |xs|
      ensures Masked(xs[i]) == Masked(ys[i])
    {
      if i != n {
        assert xs[i] == ys[i];
      }
    }
  }
}
