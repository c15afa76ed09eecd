/**
 A small register to run by hand: one class of records with a key and personal data, one workflow that
 approves by itself, and what its calls do, state by state.
 */
module Yards {
  import opened Outcomes
  import opened Tables
  import opened Packs
  import opened RecordBuild
  import opened RecordInvariant
  import opened RecordSafety
  import opened Batch
  import opened IndexLimits
  import opened Approval
  import opened Workflows
  import opened Runs
  import opened RunSafety
  import Canon

  // ---- the declarations ------------------------------------------------------------------

  function Car(): Class {
    Class("car", ["new", "used", "sold"], "new", EncTenant, {"owner"}, "plate", {"plate", "owner"}, [], map[])
  }

  function Job(action: ActionKind, effects: seq<Effect>): Workflow {
    Workflow("job", "car", action, "used", ["clerk"], [], true, false, None, None, [], effects)
  }

  /** Templates are plates, and what a link effect looks for is an id. */
  function Yard(action: ActionKind, effects: seq<Effect>): Pack {
    Pack(
      "city", map["car" := Car()], map["job" := Job(action, effects)], map[],
      map["admin" := Role("admin", [], [PERM_MEMBERS], false, [])],
      (env, ops) => Stamp(),
      (name, payload) => true, (name, payload) => true,
      (v: Canon.Value) => if v.Str? then v.s else "",
      (typ, v) => v,
      (template, ctx) => template,
      (template, ctx) => Plate(template),
      (sql, db, ctx) => 0,
      (match_, db, ctx) => Some(match_),
      (db, subject) => map[])
  }

  /** Every transaction of the yard has the same id: only what the log says of it tells them apart. */
  function Stamp(): Digest {
    var s := "0000000000000000000000000000000000000000000000000000000000000000";
    assert |s| == 64;
    assert s != PLACEHOLDER;
    s
  }

  function Plate(plate: string): Payload {
    map["plate" := Canon.Str(plate)]
  }

  function Clerk(): Principal {
    Principal("ann", "clerk", true, {PERM_PROPOSE})
  }

  lemma YardSound(action: ActionKind, effects: seq<Effect>)
    requires forall i :: 0 <= i < |effects| ==> ClassNames(effects[i]) <= {"car"}
    ensures PackSound(Yard(action, effects))
  {
    var p := Yard(action, effects);
    assert "plate"[0] != "owner"[0];
    assert Car().statuses[0] == "new" && Car().statuses[1] == "used";
    assert ClassOk(Car());
    assert WorkflowOk(p, p.workflows["job"]);
    assert |"new"| == 3 && |"used"| == 4 && |"sold"| == 4;
    assert '|' !in "admin";
  }

  lemma PlateFacts(action: ActionKind, effects: seq<Effect>, o: Id, plate: string)
    ensures NaturalKeyOf(Yard(action, effects), Car(), o, Plate(plate)) == plate
    ensures Personal({"owner"}, Plate(plate)) == map[] && Clear({"owner"}, Plate(plate)) == Plate(plate)
  {
    assert "plate"[0] != "owner"[0];
    assert "plate" in Plate(plate) && Plate(plate)["plate"] == Canon.Str(plate);
  }

  // ---- a seeded record ----------------------------------------------------------------------

  function SeedCall(o: Id, key: Key, plate: Settled, at: int): Call {
    Call(Seed("car", Plate(plate), "", Minted(o, key)), at, false, "")
  }

  function SeedDraft(o: Id, key: Key, plate: Settled): Draft {
    Draft(Car(), o, 1, "new", Plate(plate), key)
  }

  /** A new record under this plate. */
  predicate Fresh(db: Db, o: Id, plate: Settled) {
    && o in db.rec.objects && (o, 1) in db.rec.versions
    && (var ob := db.rec.objects[o];
        ob.cls == "car" && ob.naturalKey == plate && ob.head == 1 && ob.status == "new" && !ob.erased)
    && db.rec.versions[(o, 1)].hash.payload == Plate(plate)
  }

  predicate KeyReady(deks: map<Scope, Dek>) {
    TenantKey in deks ==> deks[TenantKey].Live() && deks[TenantKey].opWrap.Wrapped? && deks[TenantKey].opWrap.scope == TenantKey
  }

  ghost predicate NoneOf(log: seq<TxId>, kind: Kind, subject: string) {
    forall i :: 0 <= i < |log| ==> !(log[i].env.kind == kind && log[i].env.subject == subject)
  }

  lemma SeedDraftIs(action: ActionKind, effects: seq<Effect>, o: Id, key: Key, plate: Settled, at: int)
    ensures SeedDrafts(Yard(action, effects), SeedCall(o, key, plate, at).act) == Ok([SeedDraft(o, key, plate)])
  {
    assert Car().statuses[0] == "new";
  }

  lemma SeedPlan(action: ActionKind, effects: seq<Effect>, db: Db, o: Id, key: Key, plate: Settled, at: int)
    returns (e: Ensured, ops: seq<Op>)
    requires KeyReady(db.deks) && !Taken(db.rec.objects, "car", plate, o)
    ensures
      var p, c, d := Yard(action, effects), SeedCall(o, key, plate, at), SeedDraft(o, key, plate);
      && EnsureFor(db.deks, CtxOf(c), d) == Ok(e) && ops == RecordOps(p, db.rec.objects, CtxOf(c), d, e)
      && Plan(p, db, c) == Ok(Planned(Envelope(RecordCreate, "seed", at, o, ""), ops))
  {
    var p, c := Yard(action, effects), SeedCall(o, key, plate, at);
    var d, w := SeedDraft(o, key, plate), CtxOf(c);
    SeedDraftIs(action, effects, o, key, plate, at);
    PlateFacts(action, effects, o, plate);
    BuildsWhen(p, db, w, [d]);
    BuiltParts(p, db, w, d);
    e := EnsureFor(db.deks, w, d).value;
    ops := BuildRecord(p, db, w, d).value;
    assert [d][1..] == [] && ops + [] == ops;
  }

  /** Seeding a record lands it. */
  lemma SeedLands(action: ActionKind, effects: seq<Effect>, db: Db, o: Id, key: Key, plate: Settled, at: int)
    returns (e: Ensured, tx: TxId)
    requires DeksOk(db.deks) && KeyReady(db.deks) && !Taken(db.rec.objects, "car", plate, o)
    requires NoneOf(db.log, RecordCreate, o)
    ensures
      var p, c, d := Yard(action, effects), SeedCall(o, key, plate, at), SeedDraft(o, key, plate);
      && EnsureFor(db.deks, CtxOf(c), d) == Ok(e) && tx.env.kind == RecordCreate && tx.env.subject == o
      && Step(p, db, c) == Logged(LandedDb(p, db, tx, CtxOf(c), d, e), tx)
  {
    var p, c := Yard(action, effects), SeedCall(o, key, plate, at);
    var d, w := SeedDraft(o, key, plate), CtxOf(c);
    var ops;
    e, ops := SeedPlan(action, effects, db, o, key, plate, at);
    var plan := Planned(Envelope(RecordCreate, "seed", at, o, ""), ops);
    tx := TxOf(p, plan);
    PlateFacts(action, effects, o, plate);
    DeksGrow(db.deks, w, d, e);
    RecordLands(p, db, tx, w, d, e, db.rec.objects);
    StepIs(p, db, c, plan);
  }

  /** Seeding a record adds that record, and the key of the yard when it was not there. */
  lemma YardSeed(action: ActionKind, effects: seq<Effect>, db: Db, o: Id, key: Key, plate: Settled, at: int)
    requires DeksOk(db.deks) && KeyReady(db.deks) && o !in db.rec.objects
    requires !Taken(db.rec.objects, "car", plate, o) && NoneOf(db.log, RecordCreate, o)
    ensures
      var next := Step(Yard(action, effects), db, SeedCall(o, key, plate, at));
      && Fresh(next, o, plate) && KeyReady(next.deks) && DeksOk(next.deks)
      && (forall q, x {:trigger Fresh(db, q, x)} :: q != o && Fresh(db, q, x) ==> Fresh(next, q, x))
      && next.tasks == db.tasks && (forall t :: TaskKey(t) in next.deks <==> TaskKey(t) in db.deks)
      && |next.log| == |db.log| + 1 && next.log[..|db.log|] == db.log
      && next.log[|db.log|].env.kind == RecordCreate && next.log[|db.log|].env.subject == o
      && next.rec.keys == db.rec.keys[("car", plate) := KeyRow(o, at)]
      && next.rec.objects == db.rec.objects[o := next.rec.objects[o]]
  {
    var p, w, d := Yard(action, effects), CtxOf(SeedCall(o, key, plate, at)), SeedDraft(o, key, plate);
    var e, tx := SeedLands(action, effects, db, o, key, plate, at);
    PlateFacts(action, effects, o, plate);
    DeksGrow(db.deks, w, d, e);
    var next := LandedDb(p, db, tx, w, d, e);
    forall q, x | q != o && Fresh(db, q, x)
      ensures Fresh(next, q, x)
    {
      assert (q, 1 as nat) != (o, 1 as nat);
    }
  }

  // ---- a proposal ------------------------------------------------------------------------------

  function ProposeCall(o: Id, plate: Settled, t: Id, at: int): Call {
    Call(Propose(Clerk(), "job", Request(o, Plate(plate), ""), t, 0), at, false, "")
  }

  function ProposedRow(o: Id, plate: Settled, at: int): TaskRow {
    TaskRow("job", "car", o, AwaitingReview, "ann", "", NoAnswer, Stored(Plate(plate), None), at, at, "", 0)
  }

  /** Proposing the job for a record, or for a new one, adds the proposal. */
  lemma YardPropose(action: ActionKind, effects: seq<Effect>, db: Db, o: Id, plate: Settled, t: Id, at: int)
    requires if action.CreateAction? then o == "" else o != "" && o in db.rec.objects && db.rec.objects[o].cls == "car"
    requires NoneOf(db.log, TaskPropose, t) && t !in db.tasks
    ensures
      var p := Yard(action, effects);
      var next := Step(p, db, ProposeCall(o, plate, t, at));
      && next == db.(tasks := db.tasks[t := ProposedRow(o, plate, at)], log := next.log)
      && |next.log| == |db.log| + 1 && next.log[..|db.log|] == db.log && next.log[|db.log|].env.kind == TaskPropose
  {
    var p, c := Yard(action, effects), ProposeCall(o, plate, t, at);
    PlateFacts(action, effects, o, plate);
    var put := PutTask(t, ProposedRow(o, plate, at));
    var plan := Planned(Envelope(TaskPropose, "ann", at, t, ""), [put]);
    assert ProposalPii(p, p.workflows["job"]) == {"owner"};
    assert [] + [put] == [put];
    assert PERM_PROPOSE in Clerk().perms && "clerk" in ["clerk"];
    assert Plan(p, db, c) == Ok(plan);
    ApplySingle(db, TxOf(p, plan), put);
    StepIs(p, db, c, plan);
  }

  // ---- its approval --------------------------------------------------------------------------------

  function ApproveCall(t: Id, supply: seq<Minted>, at: int): Call {
    Call(PolicyApproval(t, supply), at, false, "")
  }

  lemma {:induction false} PlainKeeps(db: Db, tx: TxId, ops: seq<Op>)
    requires PlainOps(ops) && Apply(db, tx, ops).Some?
    ensures Apply(db, tx, ops).value.tasks == db.tasks
    decreases |ops|
  {
    if ops != [] {
      PlainKeeps(ApplyOne(db, tx, ops[0]).value, tx, ops[1..]);
    }
  }

  ghost function JobEffects(action: ActionKind, effects: seq<Effect>, db: Db, o: Id, plate: Settled, supply: seq<Minted>)
    : Result<Progress, Refusal>
  {
    AllEffects(
      Yard(action, effects), db, Job(action, effects), EffectsOf(Job(action, effects)), Plate(plate), supply,
      Progress([], o, map[]))
  }

  /** A proposal of the job, waiting for an approval whose effects plan these changes. */
  ghost predicate Waiting(
    action: ActionKind, effects: seq<Effect>, db: Db, o: Id, plate: Settled, t: Id, at: int, supply: seq<Minted>, s: Progress)
  {
    && t in db.tasks && db.tasks[t] == ProposedRow(o, plate, at) && TaskKey(t) !in db.deks
    && JobEffects(action, effects, db, o, plate, supply) == Ok(s) && s.objectId != "" && !action.CorrectAction?
    && (forall i :: 0 <= i < |s.drafts| ==> Buildable(Yard(action, effects), db, s.drafts[i]))
  }

  function ApproveMoves(t: Id, o: Id, at: int): seq<Op> {
    [ApproveMove(t, o, PolicyPrincipal(), at)]
  }

  lemma ApprovePlan(
    action: ActionKind, effects: seq<Effect>, db: Db, o: Id, plate: Settled, t: Id, at: int, supply: seq<Minted>, s: Progress)
    requires Waiting(action, effects, db, o, plate, t, at, supply, s)
    ensures
      var p, c := Yard(action, effects), ApproveCall(t, supply, at);
      && ApprovalDrafts(p, db, PolicyPrincipal(), t, supply, CtxOf(c)) == s.drafts
      && BuildAll(p, db, CtxOf(c), s.drafts).Ok?
      && Plan(p, db, c) == Ok(Planned(
          Envelope(TaskApprove, POLICY, at, s.objectId, ""),
          BuildAll(p, db, CtxOf(c), s.drafts).value + ApproveMoves(t, s.objectId, at)))
  {
    var p, w, wf := Yard(action, effects), CtxOf(ApproveCall(t, supply, at)), Job(action, effects);
    assert OpenProposal(db.deks, true, t, db.tasks[t].payload) == Ok(Opened(Plate(plate), false));
    assert Effects(p, db, PolicyPrincipal(), wf, t, db.tasks[t], Plate(plate), supply, w) == Ok(s);
    BuildsWhen(p, db, w, s.drafts);
    assert CloseProposal(db.deks, t, at) == [];
    assert ApproveMoves(t, s.objectId, at) + [] == ApproveMoves(t, s.objectId, at);
  }

  /** No column of the yard's table has a unique index. */
  lemma {:induction false} NothingUnique(p: Pack, query: map<(QueryTable, Id), QueryRow>, tx: TxId, at: int, drafts: seq<Draft>)
    requires forall i :: 0 <= i < |drafts| ==> drafts[i].cls == Car()
    ensures ColumnsAdmitted(p, query, tx, at, drafts)
    decreases |drafts|
  {
    if drafts != [] {
      var d := drafts[0];
      assert drafts[0].cls == Car();
      forall i | 0 <= i < |drafts[1..]|
        ensures drafts[1..][i].cls == Car()
      {
        assert drafts[1..][i] == drafts[i + 1];
      }
      NothingUnique(p, query[(TableOf(d.cls), d.objectId) := LandedQuery(p, tx, at, d)], tx, at, drafts[1..]);
    }
  }

  /** A built batch and the mark on the proposal, applied. */
  lemma ApprovalApplies(
    action: ActionKind, effects: seq<Effect>, db: Db, tx: TxId, w: WriteCtx, drafts: seq<Draft>, t: Id, o: Id)
    requires DeksOk(db.deks) && t in db.tasks && BuildAll(Yard(action, effects), db, w, drafts).Ok?
    requires Admitted(Yard(action, effects), db.rec.objects, tx, w.at, drafts)
    requires forall i :: 0 <= i < |drafts| ==> drafts[i].cls == Car()
    requires forall i :: 0 <= i < |drafts| ==> drafts[i].version <= 1 || drafts[i].objectId in db.rec.objects
    ensures
      var ops := BuildAll(Yard(action, effects), db, w, drafts).value;
      var mid, after := Apply(db, tx, ops), Apply(db, tx, ops + ApproveMoves(t, o, w.at));
      && mid.Some? && after.Some? && after.value.rec == mid.value.rec && after.value.deks == mid.value.deks
      && t in after.value.tasks && after.value.tasks[t].state.Approved?
  {
    var p := Yard(action, effects);
    var ops := BuildAll(p, db, w, drafts).value;
    NothingUnique(p, db.rec.query, tx, w.at, drafts);
    LandsWhen(p, db, db, tx, w, drafts);
    ApplyAppend(db, tx, ops, ApproveMoves(t, o, w.at));
    BatchPlain(p, db, w, drafts);
    PlainKeeps(db, tx, ops);
    ApplySingle(Apply(db, tx, ops).value, tx, ApproveMove(t, o, PolicyPrincipal(), w.at));
  }

  /** The approval lands its record changes, when the unique index lets them through. */
  lemma YardApprove(
    action: ActionKind, effects: seq<Effect>, db: Db, o: Id, plate: Settled, t: Id, at: int, supply: seq<Minted>, s: Progress)
    returns (tx: TxId)
    requires Waiting(action, effects, db, o, plate, t, at, supply, s)
    requires DeksOk(db.deks) && NoneOf(db.log, TaskApprove, s.objectId)
    requires forall tx :: Admitted(Yard(action, effects), db.rec.objects, tx, at, s.drafts)
    requires forall i :: 0 <= i < |s.drafts| ==> s.drafts[i].cls == Car()
    requires forall i :: 0 <= i < |s.drafts| ==> s.drafts[i].version <= 1 || s.drafts[i].objectId in db.rec.objects
    ensures
      var p, c := Yard(action, effects), ApproveCall(t, supply, at);
      && BuildAll(p, db, CtxOf(c), s.drafts).Ok? && Plan(p, db, c).Ok?
      && tx == TxOf(p, Plan(p, db, c).value)
      && Plan(p, db, c).value.ops == BuildAll(p, db, CtxOf(c), s.drafts).value + ApproveMoves(t, s.objectId, at)
      && ApprovalDrafts(p, db, PolicyPrincipal(), t, supply, CtxOf(c)) == s.drafts
      && (var mid := Apply(db, tx, BuildAll(p, db, CtxOf(c), s.drafts).value);
          && mid.Some? && Step(p, db, c).rec == mid.value.rec && Step(p, db, c).deks == mid.value.deks
          && t in Step(p, db, c).tasks && Step(p, db, c).tasks[t].state.Approved?)
  {
    var p, c := Yard(action, effects), ApproveCall(t, supply, at);
    ApprovePlan(action, effects, db, o, plate, t, at, supply, s);
    var plan := Plan(p, db, c).value;
    tx := TxOf(p, plan);
    ApprovalApplies(action, effects, db, tx, CtxOf(c), s.drafts, t, s.objectId);
    StepIs(p, db, c, plan);
  }
}
