/** An approval: what its effects produce is fit to land, and what the one commit does. */
module Approval {
  import opened Outcomes
  import opened Tables
  import opened Packs
  import opened RecordBuild
  import opened RecordInvariant
  import opened RecordSafety
  import opened Batch
  import opened BatchLimits
  import opened History
  import opened Workflows
  import opened WorkflowSafety
  import R = RetentionPolicy

  // ---- the effects are proper changes ----------------------------------------------------

  ghost predicate FreshIds(db: Db, minted: seq<Minted>) {
    forall i :: 0 <= i < |minted| ==> minted[i].objectId !in db.rec.objects
  }

  ghost predicate DraftsProper(p: Pack, db: Db, drafts: seq<Draft>) {
    forall i :: 0 <= i < |drafts| ==> Proper(p, db.rec.objects, drafts[i])
  }

  lemma CreateProper(p: Pack, db: Db, c: Class, payload: Payload, status: string, m: Minted)
    requires c.name in p.classes && p.classes[c.name] == c && m.objectId !in db.rec.objects
    requires CreateDraft(c, payload, status, m).Ok?
    ensures Proper(p, db.rec.objects, CreateDraft(c, payload, status, m).value)
  {
  }

  ghost predicate AddsProper(p: Pack, db: Db, before: seq<Draft>, after: seq<Draft>) {
    after == before || (exists d :: after == before + [d] && Proper(p, db.rec.objects, d))
  }

  lemma RecordEffectProper(p: Pack, db: Db, wf: Workflow, payload: Payload, m: Minted, s: Progress)
    requires ClassesOk(p.classes) && m.objectId !in db.rec.objects
    requires Effected(p, db, wf, RecordEffect, payload, m, s).Ok?
    ensures AddsProper(p, db, s.drafts, Effected(p, db, wf, RecordEffect, payload, m, s).value.drafts)
  {
    var c := p.classes[wf.cls];
    if wf.action.StatusAction? {
      var d := StatusDraft(db, c, s.objectId, wf.status, m).value;
      if d.None? {
        assert s.drafts + [] == s.drafts;
      }
    }
  }

  lemma LinkEffectProper(p: Pack, db: Db, wf: Workflow, e: Effect, payload: Payload, m: Minted, s: Progress)
    requires ClassesOk(p.classes) && m.objectId !in db.rec.objects && e.CloseLinkEffect?
    requires Effected(p, db, wf, e, payload, m, s).Ok?
    ensures AddsProper(p, db, s.drafts, Effected(p, db, wf, e, payload, m, s).value.drafts)
  {
  }

  lemma StatusEffectProper(p: Pack, db: Db, wf: Workflow, e: Effect, payload: Payload, m: Minted, s: Progress)
    requires ClassesOk(p.classes) && m.objectId !in db.rec.objects && e.SetStatusEffect?
    requires Effected(p, db, wf, e, payload, m, s).Ok?
    ensures AddsProper(p, db, s.drafts, Effected(p, db, wf, e, payload, m, s).value.drafts)
  {
    assert s.drafts + [] == s.drafts;
  }

  /** One effect adds at most one change, and a proper one. */
  lemma EffectProper(p: Pack, db: Db, wf: Workflow, e: Effect, payload: Payload, m: Minted, s: Progress)
    requires ClassesOk(p.classes) && m.objectId !in db.rec.objects
    requires Effected(p, db, wf, e, payload, m, s).Ok?
    ensures AddsProper(p, db, s.drafts, Effected(p, db, wf, e, payload, m, s).value.drafts)
  {
    match e
    case RecordEffect => RecordEffectProper(p, db, wf, payload, m, s);
    case SetStatusEffect(_, _, _, _) => StatusEffectProper(p, db, wf, e, payload, m, s);
    case CreateEffect(_, _, _) =>
    case OpenLinkEffect(_, _, _) =>
    case CloseLinkEffect(_, _, _, _, _) => LinkEffectProper(p, db, wf, e, payload, m, s);
  }

  lemma {:induction false} EffectsProper(
    p: Pack, db: Db, wf: Workflow, effects: seq<Effect>, payload: Payload, minted: seq<Minted>, s: Progress)
    requires ClassesOk(p.classes) && FreshIds(db, minted) && DraftsProper(p, db, s.drafts)
    requires AllEffects(p, db, wf, effects, payload, minted, s).Ok?
    ensures DraftsProper(p, db, AllEffects(p, db, wf, effects, payload, minted, s).value.drafts)
    decreases |effects|
  {
    if effects != [] {
      EffectProper(p, db, wf, effects[0], payload, minted[0], s);
      var next := Effected(p, db, wf, effects[0], payload, minted[0], s).value;
      EffectsProper(p, db, wf, effects[1..], payload, minted[1..], next);
    }
  }

  // ---- what a batch leaves alone --------------------------------------------------------------

  ghost predicate PlainOps(ops: seq<Op>) {
    forall op :: op in ops ==> op.Rec? || op.MintKey?
  }

  lemma {:induction false} BatchPlain(p: Pack, db: Db, w: WriteCtx, drafts: seq<Draft>)
    requires BuildAll(p, db, w, drafts).Ok?
    ensures PlainOps(BuildAll(p, db, w, drafts).value)
    decreases |drafts|
  {
    if drafts != [] {
      BatchPlain(p, db, After(w, drafts[0]), drafts[1..]);
      BuiltParts(p, db, w, drafts[0]);
    }
  }

  ghost predicate OtherKeysSame(deks: map<Scope, Dek>, now: map<Scope, Dek>) {
    forall s :: !ForRecords(s) ==> (s in now <==> s in deks) && (s in deks ==> now[s] == deks[s])
  }

  lemma OtherKeysUntouched(pre: map<Scope, Dek>, now: map<Scope, Dek>, w: WriteCtx, drafts: seq<Draft>)
    ensures OtherKeysSame(now, KeysAfter(pre, now, w, drafts))
  {
    forall s | !ForRecords(s)
      ensures s in KeysAfter(pre, now, w, drafts) <==> s in now
      ensures s in now ==> KeysAfter(pre, now, w, drafts)[s] == now[s]
    {
      UntouchedKey(pre, now, w, drafts, s);
    }
  }

  ghost predicate NothingNewPruned(a: map<(Id, nat), VersionRow>, b: map<(Id, nat), VersionRow>) {
    forall k :: k in b && b[k].pruned ==> k in a && a[k].pruned
  }

  lemma {:induction false} LandingPrunesNothing(
    pre: map<Scope, Dek>, versions: map<(Id, nat), VersionRow>, tx: TxId, w: WriteCtx, drafts: seq<Draft>)
    ensures NothingNewPruned(versions, VersionsAfter(pre, versions, tx, w, drafts))
    decreases |drafts|
  {
    if drafts != [] {
      var d := drafts[0];
      LandingPrunesNothing(
        pre, versions[(d.objectId, d.version) := LandedVersion(tx, w.at, d, KeyUsed(pre, w, d))], tx, w, drafts[1..]);
    }
  }

  /** What a caller can check of a batch before it is built. */
  ghost predicate SoundDrafts(p: Pack, db: Db, drafts: seq<Draft>) {
    && Distinct(drafts) && MintsOnce(db.deks, drafts)
    && (forall i :: 0 <= i < |drafts| ==>
          GivenKey(p, drafts[i]) != "")
  }

  /** A sound batch has landed: the tables agree, nothing was taken back, every change is on record. */
  ghost predicate BatchLanded(p: Pack, db: Db, mid: Db, drafts: seq<Draft>) {
    && mid == db.(rec := mid.rec, deks := mid.deks)
    && RecordsOk(p, mid.rec, mid.deks) && R.MarksOk(p, mid.rec) && mid.rec.marks == db.rec.marks
    && RecordsOnward(db.rec, db.deks, mid.rec, mid.deks)
    && OtherKeysSame(db.deks, mid.deks)
    && (forall i :: 0 <= i < |drafts| ==> Recorded(mid.rec, drafts[i]))
  }

  lemma SoundBatchLands(p: Pack, db: Db, tx: TxId, w: WriteCtx, drafts: seq<Draft>)
    requires RecordsOk(p, db.rec, db.deks) && R.MarksOk(p, db.rec)
    requires DraftsProper(p, db, drafts) && SoundDrafts(p, db, drafts) && w.pending == map[]
    requires BuildAll(p, db, w, drafts).Ok? && Apply(db, tx, BuildAll(p, db, w, drafts).value).Some?
    ensures BatchLanded(p, db, Apply(db, tx, BuildAll(p, db, w, drafts).value).value, drafts)
  {
    var mid := Apply(db, tx, BuildAll(p, db, w, drafts).value).value;
    assert Aligned(p, db, db, w, drafts);
    BatchLands(p, db, db, tx, w, drafts);
    BatchOnward(p, db, db, tx, w, drafts);
    RawLands(p, db, db, tx, w, drafts);
    OtherKeysUntouched(db.deks, db.deks, w, drafts);
    LandingPrunesNothing(db.deks, db.rec.versions, tx, w, drafts);
    R.MarksFollow(p, db.rec, db.deks, mid.rec, mid.deks);
  }

  // ---- the one commit ------------------------------------------------------------------------------

  /** The state an approval leaves, from the state its record changes leave. */
  function ApprovedDb(mid: Db, taskId: Id, c: TaskChange): Db
    requires taskId in mid.tasks
  {
    mid.(tasks := mid.tasks[taskId := Moved(mid.tasks[taskId], c)], deks := Closed(mid.deks, taskId, c.at))
  }

  ghost predicate ApprovalLanded(p: Pack, db: Db, after: Db, taskId: Id, c: TaskChange, drafts: seq<Draft>)
    requires taskId in db.tasks
  {
    && after == db.(rec := after.rec, deks := after.deks, tasks := db.tasks[taskId := Moved(db.tasks[taskId], c)])
    && RecordsOk(p, after.rec, after.deks) && R.MarksOk(p, after.rec) && after.rec.marks == db.rec.marks
    && RecordsOnward(db.rec, db.deks, after.rec, after.deks)
    && AgreeOff(OthersOf(db.deks), OthersOf(after.deks), TaskKey(taskId))
    && OthersOf(after.deks).Keys == OthersOf(db.deks).Keys
    && (TaskKey(taskId) in after.deks ==> !after.deks[TaskKey(taskId)].Live())
    && (forall i :: 0 <= i < |drafts| ==> Recorded(after.rec, drafts[i]))
  }

  /** The keys that protect no record. */
  function OthersOf(deks: map<Scope, Dek>): map<Scope, Dek> {
    deks - (set s | s in deks && ForRecords(s))
  }

  lemma CloseKeys(deks: map<Scope, Dek>, mid: map<Scope, Dek>, taskId: Id, at: int)
    requires OtherKeysSame(deks, mid) && DeksOk(mid) && at > 0
    ensures
      var now := Closed(mid, taskId, at);
      && (CloseProposal(deks, taskId, at) == [] ==> now == mid)
      && AgreeOff(OthersOf(deks), OthersOf(now), TaskKey(taskId))
      && OthersOf(now).Keys == OthersOf(deks).Keys
      && (TaskKey(taskId) in now ==> !now[TaskKey(taskId)].Live())
  {
    var s := TaskKey(taskId);
    assert s in mid <==> s in deks;
    assert OthersOf(mid) == OthersOf(deks);
  }

  lemma CloseRecords(p: Pack, db: Db, mid: Db, taskId: Id, at: int)
    requires RecordsOk(p, mid.rec, mid.deks) && RecordsOnward(db.rec, db.deks, mid.rec, mid.deks) && at > 0
    ensures
      var now := Closed(mid.deks, taskId, at);
      RecordsOk(p, mid.rec, now) && RecordsOnward(db.rec, db.deks, mid.rec, now)
  {
    var now := Closed(mid.deks, taskId, at);
    ClosedOk(mid.deks, taskId, at);
    RecordsOffKey(p, mid.rec, mid.deks, now, TaskKey(taskId));
    OnwardChain(db.rec, db.deks, mid.rec, mid.deks, mid.rec, now);
  }

  lemma CloseAfterBatch(p: Pack, db: Db, mid: Db, taskId: Id, c: TaskChange, drafts: seq<Draft>)
    requires BatchLanded(p, db, mid, drafts) && taskId in db.tasks && c.at > 0
    ensures ApprovalLanded(p, db, ApprovedDb(mid, taskId, c), taskId, c, drafts)
  {
    CloseKeys(db.deks, mid.deks, taskId, c.at);
    CloseRecords(p, db, mid, taskId, c.at);
  }

  lemma MovesOneAfter(plain: seq<Op>, move: seq<Op>, taskId: Id, c: TaskChange)
    requires PlainOps(plain) && MovesOne(move, taskId, c)
    ensures MovesOne(plain + move, taskId, c)
  {
  }

  lemma ApprovalLands(p: Pack, db: Db, tx: TxId, w: WriteCtx, drafts: seq<Draft>, taskId: Id, c: TaskChange)
    requires Signed(c)
    requires RecordsOk(p, db.rec, db.deks) && R.MarksOk(p, db.rec) && taskId in db.tasks
    requires DraftsProper(p, db, drafts) && SoundDrafts(p, db, drafts) && w.pending == map[]
    requires c.at == w.at > 0
    requires BuildAll(p, db, w, drafts).Ok?
    requires Apply(db, tx, BuildAll(p, db, w, drafts).value + ([MoveTask(taskId, c)] + CloseProposal(db.deks, taskId, w.at))).Some?
    ensures
      var ops := BuildAll(p, db, w, drafts).value + ([MoveTask(taskId, c)] + CloseProposal(db.deks, taskId, w.at));
      && ApprovalLanded(p, db, Apply(db, tx, ops).value, taskId, c, drafts)
      && MovesOne(ops, taskId, c)
  {
    var built := BuildAll(p, db, w, drafts).value;
    var close := CloseProposal(db.deks, taskId, w.at);
    ApplyAppend(db, tx, built, [MoveTask(taskId, c)] + close);
    SoundBatchLands(p, db, tx, w, drafts);
    var mid := Apply(db, tx, built).value;
    MoveAndClose(db, mid, tx, taskId, c);
    CloseAfterBatch(p, db, mid, taskId, c, drafts);
    BatchPlain(p, db, w, drafts);
    MovesOneAfter(built, [MoveTask(taskId, c)] + close, taskId, c);
  }

  lemma MoveAndClose(db: Db, mid: Db, tx: TxId, taskId: Id, c: TaskChange)
    requires OtherKeysSame(db.deks, mid.deks) && DeksOk(mid.deks) && taskId in mid.tasks && c.at > 0 && Signed(c)
    ensures
      var ops := [MoveTask(taskId, c)] + CloseProposal(db.deks, taskId, c.at);
      Apply(mid, tx, ops) == Some(ApprovedDb(mid, taskId, c)) && MovesOne(ops, taskId, c)
  {
    var s := TaskKey(taskId);
    assert s in mid.deks <==> s in db.deks;
    CloseKeys(db.deks, mid.deks, taskId, c.at);
    MoveLands(mid, tx, db.deks, taskId, c, CloseProposal(db.deks, taskId, c.at));
  }
}
