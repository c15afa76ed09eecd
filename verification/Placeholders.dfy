/**
 A run in which callers write the placeholder for the transaction id: two records get by the unique indexes
 under one natural key, neither is found under it, and their query table can no longer be rebuilt.
 */
module Placeholders {
  import opened Outcomes
  import opened Tables
  import opened Packs
  import opened RecordBuild
  import opened RecordInvariant
  import opened Batch
  import opened ReadBack
  import opened Workflows
  import opened Runs
  import opened RunSafety
  import opened Yards
  import Canon

  // ---- the declarations ------------------------------------------------------------------

  /** A class like the car register's: its natural key is projected into a column with a unique index. */
  function Numbered(): Class {
    Class(
      "car", ["new"], "new", EncNone, {}, "plate", {"plate"}, [Projection("plate", "", "plate", "string", true)], map[])
  }

  /** Its register, whatever its transactions hash to. */
  function Registry(sha: (Envelope, seq<Op>) -> Digest): Pack {
    Yard(CreateAction, []).(classes := map["car" := Numbered()], digest := sha)
  }

  lemma RegistrySound(sha: (Envelope, seq<Op>) -> Digest)
    ensures PackSound(Registry(sha))
  {
    var p := Registry(sha);
    assert Numbered().statuses[0] == "new";
    assert |"plate"| == 5 && |"object_id"| == 9 && |"tenant"| == 6 && |"status"| == 6 && |"updated_at"| == 10;
    assert ClassOk(Numbered());
    assert WorkflowOk(p, p.workflows["job"]);
    assert |"new"| == 3;
    assert '|' !in "admin";
  }

  // ---- a record under the placeholder -------------------------------------------------------

  function UnderPlaceholder(o: Id, at: int): Call {
    Call(Seed("car", Plate(PLACEHOLDER), "", Minted(o, 0)), at, false, "")
  }

  function PlaceholderDraft(o: Id): Draft {
    Draft(Numbered(), o, 1, "new", Plate(PLACEHOLDER), 0)
  }

  function PlaceholderPlan(sha: (Envelope, seq<Op>) -> Digest, o: Id, at: int): Planned {
    Planned(
      Envelope(RecordCreate, "seed", at, o, ""),
      RecordOps(Registry(sha), map[], WriteCtx(at, false, map[]), PlaceholderDraft(o), Ensured(0, [])))
  }

  function PlaceholderTx(sha: (Envelope, seq<Op>) -> Digest, o: Id, at: int): TxId {
    TxOf(Registry(sha), PlaceholderPlan(sha, o, at))
  }

  lemma PlaceholderFacts(sha: (Envelope, seq<Op>) -> Digest, tx: TxId, o: Id)
    ensures GivenKey(Registry(sha), PlaceholderDraft(o)) == PLACEHOLDER && KeyOf(Registry(sha), tx, PlaceholderDraft(o)) == tx.digest
    ensures GivenColumns(Registry(sha), Numbered(), Plate(PLACEHOLDER)) == map["plate" := Canon.Str(PLACEHOLDER)]
    ensures ColumnsOf(Registry(sha), tx, PlaceholderDraft(o)) == map["plate" := Canon.Str(tx.digest)]
    ensures UniqueColumns(Numbered()) == {"plate"}
  {
    var p, clear := Registry(sha), Clear({}, Plate(PLACEHOLDER));
    var list := Numbered().projections;
    assert clear == Plate(PLACEHOLDER);
    assert list[..0] == [] && Columns(p, [], clear) == map[];
    assert Columns(p, list, clear) == Columns(p, list[..0], clear)["plate" := Canon.Str(PLACEHOLDER)];
    assert list[0].unique && list[0].column == "plate";
  }

  lemma PlaceholderPlanned(sha: (Envelope, seq<Op>) -> Digest, db: Db, o: Id, at: int)
    requires o !in db.rec.objects
    ensures SeedDrafts(Registry(sha), UnderPlaceholder(o, at).act) == Ok([PlaceholderDraft(o)])
    ensures Plan(Registry(sha), db, UnderPlaceholder(o, at)) == Ok(PlaceholderPlan(sha, o, at))
  {
    var p, w, d := Registry(sha), WriteCtx(at, false, map[]), PlaceholderDraft(o);
    assert Numbered().statuses[0] == "new";
    assert SeedDrafts(p, UnderPlaceholder(o, at).act) == Ok([d]);
    PlaceholderFacts(sha, PlaceholderTx(sha, o, at), o);
    assert BuildRecord(p, db, w, d) == Ok(PlaceholderPlan(sha, o, at).ops);
    assert [d][1..] == [] && BuildAll(p, db, After(w, d), []) == Ok([]);
    assert PlaceholderPlan(sha, o, at).ops + [] == PlaceholderPlan(sha, o, at).ops;
  }

  /** It lands unless somebody holds the very id. */
  lemma PlaceholderLands(sha: (Envelope, seq<Op>) -> Digest, db: Db, o: Id, at: int)
    requires o !in db.rec.objects && PlaceholderTx(sha, o, at) !in db.log
    requires !Taken(db.rec.objects, "car", PlaceholderTx(sha, o, at).digest, o)
    requires !ColumnsTaken(Registry(sha), db.rec.query, PlaceholderTx(sha, o, at), PlaceholderDraft(o))
    ensures
      var p, tx := Registry(sha), PlaceholderTx(sha, o, at);
      Step(p, db, UnderPlaceholder(o, at)) ==
      Logged(LandedDb(p, db, tx, WriteCtx(at, false, map[]), PlaceholderDraft(o), Ensured(0, [])), tx)
  {
    var p, c, plan := Registry(sha), UnderPlaceholder(o, at), PlaceholderPlan(sha, o, at);
    PlaceholderPlanned(sha, db, o, at);
    PlaceholderFacts(sha, TxOf(p, plan), o);
    RecordLands(p, db, TxOf(p, plan), WriteCtx(at, false, map[]), PlaceholderDraft(o), Ensured(0, []), map[]);
    assert PreviousKey(db.rec.objects, o) == PreviousKey(map[], o);
    StepIs(p, db, c, plan);
  }

  /** What landing one leaves in the record tables. */
  lemma PlaceholderLanded(sha: (Envelope, seq<Op>) -> Digest, db: Db, tx: TxId, o: Id, at: int)
    requires o !in db.rec.objects
    ensures
      var p := Registry(sha);
      var rec := LandedDb(p, db, tx, WriteCtx(at, false, map[]), PlaceholderDraft(o), Ensured(0, [])).rec;
      && rec.objects == db.rec.objects[o := ObjectRow("car", tx.digest, 1, "new", at, tx, at, tx, false)]
      && (o, 1) in rec.versions && rec.versions[(o, 1)].hash.payload == Plate(PLACEHOLDER)
      && rec.versions == db.rec.versions[(o, 1) := rec.versions[(o, 1)]]
      && rec.query == db.rec.query[(TableOf(Numbered()), o) := QueryRow("new", at, map["plate" := Canon.Str(tx.digest)])]
  {
    PlaceholderFacts(sha, tx, o);
  }

  lemma PlaceholderCallSound(sha: (Envelope, seq<Op>) -> Digest, db: Db, o: Id, at: int)
    requires o !in db.rec.objects && at > 0
    ensures Sound(Registry(sha), db, UnderPlaceholder(o, at))
  {
    PlaceholderPlanned(sha, db, o, at);
    PlaceholderFacts(sha, PlaceholderTx(sha, o, at), o);
  }

  // ---- two of them ------------------------------------------------------------------------------

  /** Both records are there, each under the id of its own transaction. */
  ghost predicate BothUnder(sha: (Envelope, seq<Op>) -> Digest, rec: Records, o: Id, s: int, q: Id, t: int) {
    && rec.objects.Keys == {o, q} && (o, 1) in rec.versions && (q, 1) in rec.versions
    && (forall x :: x in rec.objects ==> rec.objects[x].cls == "car" && rec.objects[x].head == 1)
    && rec.objects[o].naturalKey == PlaceholderTx(sha, o, s).digest
    && rec.objects[q].naturalKey == PlaceholderTx(sha, q, t).digest
    && rec.versions[(o, 1)].hash.payload == Plate(PLACEHOLDER) && rec.versions[(q, 1)].hash.payload == Plate(PLACEHOLDER)
  }

  lemma FirstLands(sha: (Envelope, seq<Op>) -> Digest, o: Id, s: int) returns (one: Db)
    requires s > 0
    ensures one == Step(Registry(sha), Blank(), UnderPlaceholder(o, s)) && Sound(Registry(sha), Blank(), UnderPlaceholder(o, s))
    ensures one.log == [PlaceholderTx(sha, o, s)] && one.rec.objects.Keys == {o} && (o, 1) in one.rec.versions
    ensures
      var ob := one.rec.objects[o];
      ob.cls == "car" && ob.head == 1 && ob.naturalKey == PlaceholderTx(sha, o, s).digest
    ensures one.rec.versions[(o, 1)].hash.payload == Plate(PLACEHOLDER)
    ensures (TableOf(Numbered()), o) in one.rec.query && one.rec.query.Keys == {(TableOf(Numbered()), o)}
    ensures one.rec.query[(TableOf(Numbered()), o)].columns == map["plate" := Canon.Str(PlaceholderTx(sha, o, s).digest)]
  {
    one := Step(Registry(sha), Blank(), UnderPlaceholder(o, s));
    PlaceholderFacts(sha, PlaceholderTx(sha, o, s), o);
    PlaceholderLands(sha, Blank(), o, s);
    PlaceholderLanded(sha, Blank(), PlaceholderTx(sha, o, s), o, s);
    PlaceholderCallSound(sha, Blank(), o, s);
  }

  lemma SecondLands(sha: (Envelope, seq<Op>) -> Digest, one: Db, o: Id, s: int, q: Id, t: int)
    requires o != q && PlaceholderTx(sha, o, s).digest != PlaceholderTx(sha, q, t).digest
    requires one.log == [PlaceholderTx(sha, o, s)] && one.rec.objects.Keys == {o} && (o, 1) in one.rec.versions
    requires
      var ob := one.rec.objects[o];
      ob.cls == "car" && ob.head == 1 && ob.naturalKey == PlaceholderTx(sha, o, s).digest
    requires one.rec.versions[(o, 1)].hash.payload == Plate(PLACEHOLDER)
    requires !ColumnsTaken(Registry(sha), one.rec.query, PlaceholderTx(sha, q, t), PlaceholderDraft(q))
    ensures BothUnder(sha, Step(Registry(sha), one, UnderPlaceholder(q, t)).rec, o, s, q, t)
  {
    PlaceholderLands(sha, one, q, t);
    PlaceholderLanded(sha, one, PlaceholderTx(sha, q, t), q, t);
    OneMore(sha, one.rec, Step(Registry(sha), one, UnderPlaceholder(q, t)).rec, o, s, q, t);
  }

  /** A record beside the first. */
  lemma OneMore(sha: (Envelope, seq<Op>) -> Digest, rec: Records, now: Records, o: Id, s: int, q: Id, t: int)
    requires o != q && rec.objects.Keys == {o} && (o, 1) in rec.versions
    requires
      var ob := rec.objects[o];
      ob.cls == "car" && ob.head == 1 && ob.naturalKey == PlaceholderTx(sha, o, s).digest
    requires rec.versions[(o, 1)].hash.payload == Plate(PLACEHOLDER)
    requires
      var tx := PlaceholderTx(sha, q, t);
      now.objects == rec.objects[q := ObjectRow("car", tx.digest, 1, "new", t, tx, t, tx, false)]
    requires (q, 1) in now.versions && now.versions[(q, 1)].hash.payload == Plate(PLACEHOLDER)
    requires now.versions == rec.versions[(q, 1) := now.versions[(q, 1)]]
    ensures BothUnder(sha, now, o, s, q, t)
  {
    assert (o, 1 as nat) != (q, 1 as nat);
  }

  lemma BothLand(sha: (Envelope, seq<Op>) -> Digest, o: Id, s: int, q: Id, t: int)
    requires o != q && s > 0 && t > 0 && PlaceholderTx(sha, o, s).digest != PlaceholderTx(sha, q, t).digest
    ensures
      var p, calls := Registry(sha), [UnderPlaceholder(o, s), UnderPlaceholder(q, t)];
      SoundRun(p, Blank(), calls) && BothUnder(sha, Run(p, Blank(), calls).rec, o, s, q, t)
  {
    var one := FirstLands(sha, o, s);
    SecondFits(sha, one.rec.query, o, s, q, t);
    SecondLands(sha, one, o, s, q, t);
    PlaceholderCallSound(sha, one, q, t);
    RunTwo(Registry(sha), Blank(), UnderPlaceholder(o, s), UnderPlaceholder(q, t));
  }

  lemma SecondFits(
    sha: (Envelope, seq<Op>) -> Digest, query: map<(QueryTable, Id), QueryRow>, o: Id, s: int, q: Id, t: int)
    requires PlaceholderTx(sha, o, s).digest != PlaceholderTx(sha, q, t).digest
    requires (TableOf(Numbered()), o) in query && query.Keys == {(TableOf(Numbered()), o)}
    requires query[(TableOf(Numbered()), o)].columns == map["plate" := Canon.Str(PlaceholderTx(sha, o, s).digest)]
    ensures !ColumnsTaken(Registry(sha), query, PlaceholderTx(sha, q, t), PlaceholderDraft(q))
  {
    PlaceholderFacts(sha, PlaceholderTx(sha, q, t), q);
  }

  lemma BothGiven(sha: (Envelope, seq<Op>) -> Digest, rec: Records, o: Id, s: int, q: Id, t: int)
    requires o != q && BothUnder(sha, rec, o, s, q, t)
    ensures GivenTwice(Registry(sha), rec, o, q) && HeadKey(Registry(sha), rec, o) == PLACEHOLDER
    ensures BlankTogether(Registry(sha), rec, Numbered(), o, q)
  {
    var p, c := Registry(sha), Numbered();
    PlaceholderFacts(sha, PlaceholderTx(sha, o, s), o);
    PlaceholderFacts(sha, PlaceholderTx(sha, o, s), q);
    assert HeadColumns(p, rec, c, o) == map["plate" := Canon.Str(PLACEHOLDER)] && HeadColumns(p, rec, c, q) == HeadColumns(p, rec, c, o);
    assert "plate" in UniqueColumns(c) && "plate" in HeadColumns(p, rec, c, o) && LeftBlank(HeadColumns(p, rec, c, o)["plate"]);
  }

  /** No entry of the index is under the placeholder, whoever asked for it. */
  lemma NeverIndexed(p: Pack, rec: Records, cls: string)
    requires KeysAgree(p, rec.objects, rec.keys)
    ensures (cls, PLACEHOLDER) !in rec.keys
  {
    assert (cls, PLACEHOLDER) in rec.keys ==> EntryRight(p, rec.objects, (cls, PLACEHOLDER), rec.keys[(cls, PLACEHOLDER)]);
  }

  lemma CannotRebuild(p: Pack, rec: Records, deks: map<Scope, Dek>, c: Class, o: Id, q: Id)
    requires RecordsOk(p, rec, deks) && c.name in p.classes && p.classes[c.name] == c
    requires o in OfClass(rec, c) && q in OfClass(rec, c) && BlankTogether(p, rec, c, o, q)
    ensures !RowsFit(p, rec, c, OfClass(rec, c))
  {
    RebuildLandsExactly(p, rec, deks, c);
  }

  /**
   Two records seeded under the placeholder, by transactions with different ids: both calls are sound and
   land, the heads give one natural key, neither record is found under it, and making the query table anew
   is refused.
   */
  lemma PlaceholderTaken(sha: (Envelope, seq<Op>) -> Digest, o: Id, s: int, q: Id, t: int)
    requires o != q && s > 0 && t > 0 && PlaceholderTx(sha, o, s).digest != PlaceholderTx(sha, q, t).digest
    ensures
      var p, calls := Registry(sha), [UnderPlaceholder(o, s), UnderPlaceholder(q, t)];
      var rec := Run(p, Blank(), calls).rec;
      && PackSound(p) && SoundRun(p, Blank(), calls)
      && GivenTwice(p, rec, o, q) && HeadKey(p, rec, o) == PLACEHOLDER
      && ("car", PLACEHOLDER) !in rec.keys
      && !RowsFit(p, rec, Numbered(), OfClass(rec, Numbered()))
  {
    var p, calls := Registry(sha), [UnderPlaceholder(o, s), UnderPlaceholder(q, t)];
    RegistrySound(sha);
    BothLand(sha, o, s, q, t);
    ReachableInv(p, calls);
    var db := Run(p, Blank(), calls);
    BothGiven(sha, db.rec, o, s, q, t);
    NeverIndexed(p, db.rec, "car");
    CannotRebuild(p, db.rec, db.deks, Numbered(), o, q);
  }
}
