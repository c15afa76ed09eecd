/**
 What every reachable state stores of a record (`internal/register/records.go`), said of the payload and of the
 class as declared, without the functions that build rows: the query row column by column, the natural key, the
 two halves of a payload and the key they are sealed under, and what the schema and the references promise.
 */
module RecordMeanings {
  import opened Outcomes
  import opened Tables
  import opened Packs
  import opened RecordBuild
  import opened RecordInvariant
  import opened ReadBack
  import opened Runs
  import opened RunSafety
  import Canon

  // ---- query rows ---------------------------------------------------------------------------

  /** What a projection takes from a payload: a property, or one member of it; what is absent is null. */
  function Projected(pr: Projection, payload: Payload): Canon.Value {
    var v := if pr.property in payload then payload[pr.property] else Canon.Null;
    if pr.member == "" then v else if v.Obj? && pr.member in v.members then v.members[pr.member] else Canon.Null
  }

  /** No later projection fills the same column. */
  predicate LastFor(projections: seq<Projection>, i: nat) {
    i < |projections| && forall j :: i < j < |projections| ==> projections[j].column != projections[i].column
  }

  /** Some projection fills the column. */
  predicate Filled(projections: seq<Projection>, col: string) {
    exists i :: 0 <= i < |projections| && projections[i].column == col
  }

  lemma {:induction false} ColumnNames(p: Pack, projections: seq<Projection>, clear: Payload, col: string)
    ensures col in Columns(p, projections, clear) <==> Filled(projections, col)
    decreases |projections|
  {
    if projections != [] {
      var n := |projections| - 1;
      var shorter := projections[..n];
      ColumnNames(p, shorter, clear, col);
      if Filled(shorter, col) {
        var i :| 0 <= i < |shorter| && shorter[i].column == col;
        assert projections[i].column == col;
      }
      if i :| 0 <= i < |projections| && projections[i].column == col {
        assert i < n ==> shorter[i].column == col;
      }
    }
  }

  lemma {:induction false} ColumnValue(p: Pack, projections: seq<Projection>, clear: Payload, i: nat)
    requires LastFor(projections, i)
    ensures projections[i].column in Columns(p, projections, clear)
    ensures Columns(p, projections, clear)[projections[i].column] == p.coerce(projections[i].typ, Projected(projections[i], clear))
    decreases |projections|
  {
    var n := |projections| - 1;
    if i < n {
      var shorter := projections[..n];
      forall j | i < j < |shorter|
        ensures shorter[j].column != shorter[i].column
      {
        assert projections[j].column != projections[i].column;
      }
      ColumnValue(p, shorter, clear, i);
      assert projections[n].column != projections[i].column && shorter[i] == projections[i];
    }
  }

  /** A cell, with the writing transaction's id where the text is the placeholder. */
  predicate CellShows(p: Pack, pr: Projection, payload: Payload, digest: Digest, cell: Canon.Value) {
    var v := p.coerce(pr.typ, Projected(pr, payload));
    cell == if v == Canon.Str("$txid") then Canon.Str(digest) else v
  }

  /** Personal data is never projected, so the clear half says what the payload says. */
  lemma ProjectedFromClear(c: Class, payload: Payload, i: nat)
    requires ClassOk(c) && i < |c.projections|
    ensures Projected(c.projections[i], Clear(c.pii, payload)) == Projected(c.projections[i], payload)
  {
    var property := c.projections[i].property;
    assert property !in c.pii;
    assert property in payload <==> property in Clear(c.pii, payload);
  }

  /** A query row, column by column, from what the record's head says. */
  ghost predicate RowShows(p: Pack, c: Class, table: QueryTable, ob: ObjectRow, head: VersionRow, q: QueryRow) {
    && q.status == ob.status == head.status && (q.updatedAt == ob.updatedAt || ob.erased)
    && table.cls == c.name
    && (forall col :: col in table.unique <==> FilledUnique(c.projections, col))
    && (forall col :: col in q.columns <==> Filled(c.projections, col))
    && (forall i: nat :: LastFor(c.projections, i) ==>
          && c.projections[i].column in q.columns
          && CellShows(p, c.projections[i], head.hash.payload, head.tx.digest, q.columns[c.projections[i].column]))
  }

  /** Some projection with a unique index fills the column. */
  predicate FilledUnique(projections: seq<Projection>, col: string) {
    exists i :: 0 <= i < |projections| && projections[i].unique && projections[i].column == col
  }

  lemma RowShown(p: Pack, c: Class, ob: ObjectRow, head: VersionRow, q: QueryRow)
    requires ClassOk(c) && QueryOk(p, c, ob, head, q) && head.status == ob.status
    ensures RowShows(p, c, TableOf(c), ob, head, q)
  {
    var clear := Clear(c.pii, head.hash.payload);
    forall i: nat | LastFor(c.projections, i)
      ensures
        && c.projections[i].column in q.columns
        && CellShows(p, c.projections[i], head.hash.payload, head.tx.digest, q.columns[c.projections[i].column])
    {
      ColumnValue(p, c.projections, clear, i);
      ProjectedFromClear(c, head.hash.payload, i);
    }
    forall col
      ensures col in q.columns <==> Filled(c.projections, col)
    {
      ColumnNames(p, c.projections, clear, col);
    }
  }

  /** The record has its row, and the row shows its head. */
  ghost predicate HasRow(p: Pack, rec: Records, o: Id) {
    && o in rec.objects && rec.objects[o].cls in p.classes && (o, rec.objects[o].head) in rec.versions
    && (var c := p.classes[rec.objects[o].cls];
        && (TableOf(c), o) in rec.query
        && RowShows(p, c, TableOf(c), rec.objects[o], rec.versions[(o, rec.objects[o].head)], rec.query[(TableOf(c), o)]))
  }

  lemma ObjectHasRow(p: Pack, rec: Records, deks: map<Scope, Dek>, o: Id)
    requires ClassesOk(p.classes) && ObjectsOk(p, rec, deks) && o in rec.objects
    ensures HasRow(p, rec, o)
  {
    HeadRow(p, rec, deks, o);
    var c := p.classes[rec.objects[o].cls];
    assert ClassOk(c);
    RowShown(p, c, rec.objects[o], rec.versions[(o, rec.objects[o].head)], rec.query[(TableOf(c), o)]);
  }

  /** In every reachable state every record has a row in its class's query table that shows, column by column, what its head says. */
  lemma QueryRowsShow(p: Pack, calls: seq<Call>, o: Id)
    requires PackSound(p) && SoundRun(p, Blank(), calls) && o in Run(p, Blank(), calls).rec.objects
    ensures HasRow(p, Run(p, Blank(), calls).rec, o)
  {
    ReachableInv(p, calls);
    ObjectHasRow(p, Run(p, Blank(), calls).rec, Run(p, Blank(), calls).deks, o);
  }

  /** Two rows of one table differ in every column with a unique index. */
  predicate Differ(query: map<(QueryTable, Id), QueryRow>, k: (QueryTable, Id), l: (QueryTable, Id), col: string)
    requires k in query && l in query
  {
    k.0 == l.0 && k.1 != l.1 && col in k.0.unique && col in query[k].columns && col in query[l].columns ==>
      query[k].columns[col] != query[l].columns[col]
  }

  lemma RowsDiffer(query: map<(QueryTable, Id), QueryRow>, k: (QueryTable, Id), l: (QueryTable, Id), col: string)
    requires ColumnsUnique(query) && k in query && l in query
    ensures Differ(query, k, l, col)
  {
    assert ColumnsApart(query, k, l);
  }

  /** There are no other rows, and no two agree on a unique column. */
  lemma NoOtherRows(p: Pack, calls: seq<Call>, k: (QueryTable, Id), l: (QueryTable, Id), col: string)
    requires PackSound(p) && SoundRun(p, Blank(), calls)
    requires k in Run(p, Blank(), calls).rec.query && l in Run(p, Blank(), calls).rec.query
    ensures
      var rec := Run(p, Blank(), calls).rec;
      && k.1 in rec.objects && rec.objects[k.1].cls in p.classes && k.0 == TableOf(p.classes[rec.objects[k.1].cls])
      && Differ(rec.query, k, l, col)
  {
    ReachableInv(p, calls);
    RowsDiffer(Run(p, Blank(), calls).rec.query, k, l, col);
  }

  /** The natural key on file: the class's key as the head prints it, the record's id without one. */
  ghost predicate HasKey(p: Pack, rec: Records, o: Id) {
    && o in rec.objects
    && (var ob := rec.objects[o];
        && ob.cls in p.classes && (o, ob.head) in rec.versions
        && (var c, head := p.classes[ob.cls], rec.versions[(o, ob.head)];
            var key := if c.naturalKey != "" && c.naturalKey in head.hash.payload then p.sprint(head.hash.payload[c.naturalKey]) else o;
            ob.naturalKey == if key == "$txid" then head.tx.digest else key))
  }

  lemma KeyShown(p: Pack, rec: Records, deks: map<Scope, Dek>, o: Id)
    requires ObjectsOk(p, rec, deks) && o in rec.objects
    ensures HasKey(p, rec, o)
  {
    HeadRow(p, rec, deks, o);
  }

  /** In every reachable state every record has the natural key its head gives. */
  lemma KeysShow(p: Pack, calls: seq<Call>, o: Id)
    requires PackSound(p) && SoundRun(p, Blank(), calls) && o in Run(p, Blank(), calls).rec.objects
    ensures HasKey(p, Run(p, Blank(), calls).rec, o)
  {
    ReachableInv(p, calls);
    KeyShown(p, Run(p, Blank(), calls).rec, Run(p, Blank(), calls).deks, o);
  }

  // ---- what is sealed ----------------------------------------------------------------------------

  /** The scope a class's personal data is sealed under. */
  function SealedUnder(c: Class, o: Id): Scope {
    match c.encryption
    case EncNone => NoScope
    case EncTenant => TenantKey
    case EncClass => ClassKey(c.name)
    case EncSubject => SubjectKey(o)
  }

  /** The part of a payload that is personal data, or that is not. */
  ghost predicate PartOf(part: Payload, payload: Payload, pii: set<string>, personal: bool) {
    && (forall k :: k in part <==> k in payload && (k in pii <==> personal))
    && (forall k :: k in part ==> part[k] == payload[k])
  }

  /** A stored version: its clear half without personal data, and nothing but personal data sealed, for this version. */
  ghost predicate StoredApart(c: Class, o: Id, v: nat, row: VersionRow) {
    && row.scope == SealedUnder(c, o) && (row.body.None? <==> row.pruned)
    && (row.body.Some? ==>
          && PartOf(row.body.value.clear, row.hash.payload, c.pii, false)
          && (if c.encryption.EncNone? then row.body.value.enc.None? && c.pii == {} && row.hash.PlainHash?
              else
                && row.body.value.enc.Some? && row.hash.KeyedHash?
                && (var ct := row.body.value.enc.value;
                    && ct.scope == SealedUnder(c, o) && ct.owner == o && ct.version == v && ct.key == row.hash.key
                    && PartOf(ct.data, row.hash.payload, c.pii, true))))
  }

  lemma VersionApart(p: Pack, rec: Records, deks: map<Scope, Dek>, k: (Id, nat))
    requires ClassesOk(p.classes) && ObjectsOk(p, rec, deks) && VersionsOwned(rec.objects, rec.versions) && k in rec.versions
    ensures k.0 in rec.objects && rec.objects[k.0].cls in p.classes
    ensures StoredApart(p.classes[rec.objects[k.0].cls], k.0, k.1, rec.versions[k])
  {
    assert ObjectOk(p, rec, deks, k.0);
    var c := p.classes[rec.objects[k.0].cls];
    assert ClassOk(c) && VersionOk(c, deks, k.0, k.1, rec.versions[k]);
  }

  /**
   In every reachable state no stored version holds personal data in the clear: the clear half is the payload
   without it, and exactly it is sealed, under the key its class is declared to use and for this version alone.
   */
  lemma PersonalDataSealed(p: Pack, calls: seq<Call>, k: (Id, nat))
    requires PackSound(p) && SoundRun(p, Blank(), calls) && k in Run(p, Blank(), calls).rec.versions
    ensures
      var rec := Run(p, Blank(), calls).rec;
      && k.0 in rec.objects && rec.objects[k.0].cls in p.classes
      && StoredApart(p.classes[rec.objects[k.0].cls], k.0, k.1, rec.versions[k])
  {
    ReachableInv(p, calls);
    VersionApart(p, Run(p, Blank(), calls).rec, Run(p, Blank(), calls).deks, k);
  }

  // ---- what a payload promises -----------------------------------------------------------------------

  /** A reference that is made names a record of the declared class. */
  predicate Resolves(p: Pack, objects: map<Id, ObjectRow>, c: Class, payload: Payload, prop: string)
    requires prop in c.references && prop in payload
  {
    payload[prop] != Canon.Null && payload[prop] != Canon.Str("") ==>
      p.sprint(payload[prop]) in objects && objects[p.sprint(payload[prop])].cls == c.references[prop]
  }

  lemma ReferenceResolves(p: Pack, objects: map<Id, ObjectRow>, c: Class, payload: Payload, prop: string)
    requires ReferencesOk(p, objects, map[], c, payload) && prop in c.references && prop in payload
    ensures Resolves(p, objects, c, payload, prop)
  {
    assert ReferenceOk(p, objects, map[], payload[prop], c.references[prop]);
  }

  /**
   In every reachable state the schema of its class accepts every stored payload, pruned ones included, and
   every reference such a payload makes names a record of the class it should.
   */
  lemma PayloadsValid(p: Pack, calls: seq<Call>, k: (Id, nat))
    requires PackSound(p) && SoundRun(p, Blank(), calls) && k in Run(p, Blank(), calls).rec.versions
    ensures
      var rec := Run(p, Blank(), calls).rec;
      && k.0 in rec.objects && rec.objects[k.0].cls in p.classes
      && (var c, payload := p.classes[rec.objects[k.0].cls], rec.versions[k].hash.payload;
          && p.accepts(rec.objects[k.0].cls, payload)
          && forall prop :: prop in c.references && prop in payload ==> Resolves(p, rec.objects, c, payload, prop))
  {
    ReachableInv(p, calls);
    var db := Run(p, Blank(), calls);
    PersonalDataSealed(p, calls, k);
    PayloadHolds(p, db.rec, k);
  }

  lemma PayloadHolds(p: Pack, rec: Records, k: (Id, nat))
    requires ReferencesHold(p, rec.objects, rec.versions) && k in rec.versions
    requires k.0 in rec.objects && rec.objects[k.0].cls in p.classes
    ensures
      var c, payload := p.classes[rec.objects[k.0].cls], rec.versions[k].hash.payload;
      && p.accepts(rec.objects[k.0].cls, payload)
      && forall prop :: prop in c.references && prop in payload ==> Resolves(p, rec.objects, c, payload, prop)
  {
    var c, payload := p.classes[rec.objects[k.0].cls], rec.versions[k].hash.payload;
    assert PayloadResolves(p, rec.objects, k.0, payload);
    forall prop | prop in c.references && prop in payload
      ensures Resolves(p, rec.objects, c, payload, prop)
    {
      ReferenceResolves(p, rec.objects, c, payload, prop);
    }
  }

  // ---- what opens what ---------------------------------------------------------------------------------

  /** A seal opens with its own key, for its own owner and version, and with nothing else; so does a wrap for its scope. */
  lemma OpensOnlyWithItsKey(
    key: Key, other: Key, s: Scope, t: Scope, o: Id, q: Id, v: nat, u: nat, data: Payload)
    ensures Decrypt(other, Encrypt(key, s, o, v, data), q, u) == if other == key && q == o && u == v then Some(data) else None
    ensures Unwrap(t, Wrapped(s, key)) == if t == s then Some(key) else None
    ensures Unwrap(t, NoWrap) == None
  {
  }
}
