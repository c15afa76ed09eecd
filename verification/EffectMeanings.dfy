/**
 What effects do to the records (`internal/register/workflow.go`, `effectOps`; `internal/register/mutations.go`),
 said of the rows before and after and of what was proposed, without the planning that gets there.
 */
module EffectMeanings {
  import opened Outcomes
  import opened Tables
  import opened Packs
  import opened RecordBuild
  import opened RecordInvariant
  import opened Batch
  import opened BatchLimits
  import opened IndexLimits
  import opened ReadBack
  import opened Workflows
  import opened WorkflowSafety
  import opened Approval
  import opened Runs
  import opened RunSafety
  import Canon

  // ---- one new version ---------------------------------------------------------------------

  /** One new version: of which record, made with it or not, of which class, and what it says. */
  datatype Wish = Wish(made: bool, objectId: Id, cls: string, payload: Payload, status: string)

  /** The record has one version more, which says this and was written by this transaction. */
  predicate VersionAdded(pre: Records, now: Records, tx: TxId, at: int, w: Wish) {
    && w.objectId in now.objects
    && (var ob := now.objects[w.objectId];
        && ob.cls == w.cls && ob.status == w.status && !ob.erased && ob.updatedAt == at && ob.updatedTx == tx
        && (if !w.made then
              w.objectId in pre.objects && var was := pre.objects[w.objectId];
              was.cls == w.cls && !was.erased && ob.head == was.head + 1 && ob.createdAt == was.createdAt && ob.createdTx == was.createdTx
            else w.objectId !in pre.objects && ob.head == 1 && ob.createdAt == at && ob.createdTx == tx)
        && (w.objectId, ob.head) in now.versions
        && (var row := now.versions[(w.objectId, ob.head)];
            && row.hash.payload == w.payload && row.status == w.status
            && row.tx == tx && row.createdAt == at && !row.pruned))
  }

  /** What the head of a record says. */
  function HeadPayload(rec: Records, o: Id): Payload {
    if o in rec.objects && (o, rec.objects[o].head) in rec.versions then rec.versions[(o, rec.objects[o].head)].hash.payload
    else map[]
  }

  function HeadStatus(rec: Records, o: Id): string {
    if o in rec.objects then rec.objects[o].status else ""
  }

  // ---- what each effect asks for --------------------------------------------------------------

  /** A record keeps what it says and moves to a status, unless it is there already. */
  function StatusWish(rec: Records, o: Id, cls: string, status: string): Option<Wish> {
    if HeadStatus(rec, o) == status then None
    else Some(Wish(false, o, cls, HeadPayload(rec, o), if status == "" then HeadStatus(rec, o) else status))
  }

  function InitialStatus(p: Pack, cls: string, status: string): string {
    if status == "" && cls in p.classes then p.classes[cls].initial else status
  }

  /**
   What one effect of a workflow adds, from the payload proposed, the record the proposal is about by
   then and what templates can name by then.
   */
  function Asked(p: Pack, db: Db, wf: Workflow, e: Effect, proposed: Payload, m: Minted, o: Id, ctx: Context): Option<Wish> {
    match e
    case RecordEffect =>
      (match wf.action
       case CreateAction => Some(Wish(true, m.objectId, wf.cls, proposed, InitialStatus(p, wf.cls, "")))
       case UpdateAction => Some(Wish(false, o, wf.cls, proposed, HeadStatus(db.rec, o)))
       case CorrectAction => Some(Wish(false, o, wf.cls, proposed, HeadStatus(db.rec, o)))
       case StatusAction => StatusWish(db.rec, o, wf.cls, wf.status))
    case SetStatusEffect(target, cls, status, _) =>
      var t := if target == "" then o else p.renderText(target, ctx);
      if t == "" then None else StatusWish(db.rec, t, if cls == "" then wf.cls else cls, status)
    case CreateEffect(cls, template, status) =>
      Some(Wish(true, m.objectId, cls, p.renderPayload(template, ctx), InitialStatus(p, cls, status)))
    case OpenLinkEffect(cls, template, status) =>
      Some(Wish(true, m.objectId, cls, p.renderPayload(template, ctx), InitialStatus(p, cls, status)))
    case CloseLinkEffect(cls, match_, fields, status, _) =>
      var t := p.pick(match_, db, ctx);
      if t.None? then None
      else
        Some(Wish(
          false, t.value, cls, HeadPayload(db.rec, t.value) + p.renderPayload(fields, ctx),
          if status == "" then HeadStatus(db.rec, t.value) else status))
  }

  /** The record a proposal is about once an effect is done. */
  function AboutNext(action: ActionKind, e: Effect, m: Minted, o: Id): Id {
    if e.RecordEffect? && action.CreateAction? then m.objectId
    else if e.CreateEffect? && o == "" then m.objectId
    else o
  }

  /** What templates can name once an effect is done. */
  function NamesNext(action: ActionKind, e: Effect, m: Minted, ctx: Context): Context {
    if e.RecordEffect? && action.CreateAction? then ctx["object.id" := Canon.Str(m.objectId)]
    else if e.CreateEffect? then ctx["created." + e.cls + ".id" := Canon.Str(m.objectId)]
    else if e.OpenLinkEffect? then ctx["created." + e.cls + ".id" := Canon.Str(m.objectId)]
    else ctx
  }

  function AboutAt(action: ActionKind, effects: seq<Effect>, minted: seq<Minted>, o: Id, i: nat): Id
    requires i <= |effects| && i <= |minted|
    decreases i
  {
    if i == 0 then o else AboutAt(action, effects[1..], minted[1..], AboutNext(action, effects[0], minted[0], o), i - 1)
  }

  function NamesAt(action: ActionKind, effects: seq<Effect>, minted: seq<Minted>, ctx: Context, i: nat): Context
    requires i <= |effects| && i <= |minted|
    decreases i
  {
    if i == 0 then ctx else NamesAt(action, effects[1..], minted[1..], NamesNext(action, effects[0], minted[0], ctx), i - 1)
  }

  /** What effect `i` of a list asks for. */
  function AskedAt(
    p: Pack, db: Db, wf: Workflow, effects: seq<Effect>, proposed: Payload, minted: seq<Minted>, o: Id, ctx: Context, i: nat)
    : Option<Wish>
    requires i < |effects| && i < |minted|
  {
    Asked(
      p, db, wf, effects[i], proposed, minted[i], AboutAt(wf.action, effects, minted, o, i),
      NamesAt(wf.action, effects, minted, ctx, i))
  }

  // ---- effect by effect ------------------------------------------------------------------------

  predicate Grants(objects: map<Id, ObjectRow>, d: Draft, w: Wish) {
    && (if w.made then d.version == 1 else d.objectId in objects)
    && d.objectId == w.objectId && d.cls.name == w.cls && d.payload == w.payload && d.status == w.status
  }

  predicate Answers(objects: map<Id, ObjectRow>, drafts: seq<Draft>, w: Option<Wish>) {
    if w.None? then drafts == [] else |drafts| == 1 && Grants(objects, drafts[0], w.value)
  }

  /** A status draft, from what the head reads. */
  lemma StatusDraftSays(db: Db, c: Class, o: Id, status: string, m: Minted, head: (string, Payload))
    requires HeadVersion(db, o) == Ok(head) && StatusDraft(db, c, o, status, m).Ok?
    ensures StatusDraft(db, c, o, status, m).value.Some? && o in db.rec.objects ==> !db.rec.objects[o].erased
    ensures
      var d := StatusDraft(db, c, o, status, m).value;
      && (d.None? <==> head.0 == status)
      && (d.Some? ==>
            o in db.rec.objects
            && Grants(db.rec.objects, d.value, Wish(false, o, c.name, head.1, if status == "" then db.rec.objects[o].status else status)))
  {
  }

  lemma StatusAnswers(p: Pack, db: Db, c: Class, o: Id, status: string, m: Minted)
    requires ClassesOk(p.classes) && RecordsOk(p, db.rec, db.deks)
    requires StatusDraft(db, c, o, status, m).Ok?
    ensures Answers(db.rec.objects, Listed(StatusDraft(db, c, o, status, m).value), StatusWish(db.rec, o, c.name, status))
  {
    StatusDraftSays(db, c, o, status, m, HeadVersion(db, o).value);
    HeadSays(p, db, o);
  }

  lemma HeadSays(p: Pack, db: Db, o: Id)
    requires ClassesOk(p.classes) && RecordsOk(p, db.rec, db.deks) && HeadVersion(db, o).Ok?
    ensures o in db.rec.objects && HeadVersion(db, o).value.0 == HeadStatus(db.rec, o)
    ensures !db.rec.objects[o].erased ==> HeadVersion(db, o).value.1 == HeadPayload(db.rec, o)
  {
    if o in db.rec.objects {
      HeadReads(p, db, o);
    } else {
      NewestIsHead(db.rec.objects, db.rec.versions, o);
    }
  }

  lemma LinkAnswers(p: Pack, db: Db, c: Class, o: Id, fields: Payload, status: string, m: Minted)
    requires ClassesOk(p.classes) && RecordsOk(p, db.rec, db.deks)
    requires HeadVersion(db, o).Ok? && UpdateDraft(db, c, o, HeadVersion(db, o).value.1 + fields, status, m).Ok?
    ensures Grants(
      db.rec.objects, UpdateDraft(db, c, o, HeadVersion(db, o).value.1 + fields, status, m).value,
      Wish(false, o, c.name, HeadPayload(db.rec, o) + fields, if status == "" then HeadStatus(db.rec, o) else status))
  {
    HeadSays(p, db, o);
  }

  /** Effects are planned in a state whose tables agree, for classes that are declared. */
  ghost predicate Settled(p: Pack, db: Db, wf: Workflow) {
    ClassesOk(p.classes) && RecordsOk(p, db.rec, db.deks) && wf.cls in p.classes
  }

  /** What one effect added, and what it hands on. */
  ghost predicate Answered(
    p: Pack, db: Db, wf: Workflow, e: Effect, payload: Payload, m: Minted, s: Progress, next: Progress, more: seq<Draft>)
  {
    && next.drafts == s.drafts + more
    && Answers(db.rec.objects, more, Asked(p, db, wf, e, payload, m, s.objectId, s.ctx))
    && next.objectId == AboutNext(wf.action, e, m, s.objectId) && next.ctx == NamesNext(wf.action, e, m, s.ctx)
  }

  lemma AmendAnswers(p: Pack, db: Db, wf: Workflow, payload: Payload, m: Minted, s: Progress) returns (more: seq<Draft>)
    requires ClassesOk(p.classes) && wf.cls in p.classes && (wf.action.UpdateAction? || wf.action.CorrectAction?)
    requires Effected(p, db, wf, RecordEffect, payload, m, s).Ok?
    ensures Answered(p, db, wf, RecordEffect, payload, m, s, Effected(p, db, wf, RecordEffect, payload, m, s).value, more)
  {
    more := [UpdateDraft(db, p.classes[wf.cls], s.objectId, payload, "", m).value];
  }

  lemma MakeAnswers(p: Pack, db: Db, wf: Workflow, payload: Payload, m: Minted, s: Progress) returns (more: seq<Draft>)
    requires ClassesOk(p.classes) && wf.cls in p.classes && wf.action.CreateAction?
    requires Effected(p, db, wf, RecordEffect, payload, m, s).Ok?
    ensures Answered(p, db, wf, RecordEffect, payload, m, s, Effected(p, db, wf, RecordEffect, payload, m, s).value, more)
  {
    more := [CreateDraft(p.classes[wf.cls], payload, "", m).value];
  }

  lemma MoveAnswers(p: Pack, db: Db, wf: Workflow, payload: Payload, m: Minted, s: Progress) returns (more: seq<Draft>)
    requires ClassesOk(p.classes) && wf.cls in p.classes && wf.action.StatusAction?
    requires Effected(p, db, wf, RecordEffect, payload, m, s).Ok?
    requires
      var d := StatusDraft(db, p.classes[wf.cls], s.objectId, wf.status, m);
      d.Ok? ==> Answers(db.rec.objects, Listed(d.value), StatusWish(db.rec, s.objectId, wf.cls, wf.status))
    ensures Answered(p, db, wf, RecordEffect, payload, m, s, Effected(p, db, wf, RecordEffect, payload, m, s).value, more)
  {
    more := Listed(StatusDraft(db, p.classes[wf.cls], s.objectId, wf.status, m).value);
  }

  lemma RecordAnswers(p: Pack, db: Db, wf: Workflow, payload: Payload, m: Minted, s: Progress) returns (more: seq<Draft>)
    requires Settled(p, db, wf) && Effected(p, db, wf, RecordEffect, payload, m, s).Ok?
    ensures Answered(p, db, wf, RecordEffect, payload, m, s, Effected(p, db, wf, RecordEffect, payload, m, s).value, more)
  {
    if wf.action.CreateAction? {
      more := MakeAnswers(p, db, wf, payload, m, s);
    } else if wf.action.StatusAction? {
      if StatusDraft(db, p.classes[wf.cls], s.objectId, wf.status, m).Ok? {
        StatusAnswers(p, db, p.classes[wf.cls], s.objectId, wf.status, m);
      }
      more := MoveAnswers(p, db, wf, payload, m, s);
    } else {
      more := AmendAnswers(p, db, wf, payload, m, s);
    }
  }

  lemma SetStatusAnswers(p: Pack, db: Db, wf: Workflow, e: Effect, payload: Payload, m: Minted, s: Progress)
    returns (more: seq<Draft>)
    requires Settled(p, db, wf) && e.SetStatusEffect? && Effected(p, db, wf, e, payload, m, s).Ok?
    ensures Answered(p, db, wf, e, payload, m, s, Effected(p, db, wf, e, payload, m, s).value, more)
  {
    var c := p.classes[if e.cls == "" then wf.cls else e.cls];
    var o := if e.target == "" then s.objectId else p.renderText(e.target, s.ctx);
    if o == "" {
      more := [];
      assert s.drafts + [] == s.drafts;
    } else {
      StatusAnswers(p, db, c, o, e.status, m);
      more := Listed(StatusDraft(db, c, o, e.status, m).value);
    }
  }

  lemma CreateAnswers(p: Pack, db: Db, wf: Workflow, e: Effect, payload: Payload, m: Minted, s: Progress)
    returns (more: seq<Draft>)
    requires Settled(p, db, wf) && (e.CreateEffect? || e.OpenLinkEffect?) && Effected(p, db, wf, e, payload, m, s).Ok?
    ensures Answered(p, db, wf, e, payload, m, s, Effected(p, db, wf, e, payload, m, s).value, more)
  {
    more := [CreateDraft(p.classes[e.cls], p.renderPayload(e.template, s.ctx), e.status, m).value];
  }

  /** The draft that closes the link found. */
  lemma LinkFound(p: Pack, db: Db, wf: Workflow, e: Effect, payload: Payload, m: Minted, s: Progress) returns (d: Draft)
    requires e.CloseLinkEffect? && Effected(p, db, wf, e, payload, m, s).Ok? && p.pick(e.match_, db, s.ctx).Some?
    ensures
      var o := p.pick(e.match_, db, s.ctx).value;
      && e.cls in p.classes && HeadVersion(db, o).Ok?
      && UpdateDraft(db, p.classes[e.cls], o, HeadVersion(db, o).value.1 + p.renderPayload(e.set_, s.ctx), e.status, m) == Ok(d)
      && Effected(p, db, wf, e, payload, m, s) == Ok(s.(drafts := s.drafts + [d]))
  {
    var o := p.pick(e.match_, db, s.ctx).value;
    d := UpdateDraft(db, p.classes[e.cls], o, HeadVersion(db, o).value.1 + p.renderPayload(e.set_, s.ctx), e.status, m).value;
  }

  lemma CloseAnswers(p: Pack, db: Db, wf: Workflow, e: Effect, payload: Payload, m: Minted, s: Progress)
    returns (more: seq<Draft>)
    requires Settled(p, db, wf) && e.CloseLinkEffect? && Effected(p, db, wf, e, payload, m, s).Ok?
    ensures Answered(p, db, wf, e, payload, m, s, Effected(p, db, wf, e, payload, m, s).value, more)
  {
    var o := p.pick(e.match_, db, s.ctx);
    if o.None? {
      more := [];
      NoLinkAnswers(p, db, wf, e, payload, m, s);
    } else {
      var d := LinkFound(p, db, wf, e, payload, m, s);
      LinkAnswers(p, db, p.classes[e.cls], o.value, p.renderPayload(e.set_, s.ctx), e.status, m);
      LinkAnswered(p, db, wf, e, payload, m, s, d);
      more := [d];
    }
  }

  lemma NoLinkAnswers(p: Pack, db: Db, wf: Workflow, e: Effect, payload: Payload, m: Minted, s: Progress)
    requires e.CloseLinkEffect? && Effected(p, db, wf, e, payload, m, s).Ok? && p.pick(e.match_, db, s.ctx).None?
    ensures Answered(p, db, wf, e, payload, m, s, Effected(p, db, wf, e, payload, m, s).value, [])
  {
    assert s.drafts + [] == s.drafts;
  }

  lemma LinkAnswered(p: Pack, db: Db, wf: Workflow, e: Effect, payload: Payload, m: Minted, s: Progress, d: Draft)
    requires e.CloseLinkEffect? && p.pick(e.match_, db, s.ctx).Some?
    requires
      var o := p.pick(e.match_, db, s.ctx).value;
      Grants(db.rec.objects, d, Wish(
        false, o, e.cls, HeadPayload(db.rec, o) + p.renderPayload(e.set_, s.ctx),
        if e.status == "" then HeadStatus(db.rec, o) else e.status))
    ensures Answered(p, db, wf, e, payload, m, s, s.(drafts := s.drafts + [d]), [d])
  {
  }

  /** One effect plans what it asks for, and hands on what it should. */
  lemma EffectAnswers(p: Pack, db: Db, wf: Workflow, e: Effect, payload: Payload, m: Minted, s: Progress)
    returns (more: seq<Draft>)
    requires Settled(p, db, wf) && Effected(p, db, wf, e, payload, m, s).Ok?
    ensures Answered(p, db, wf, e, payload, m, s, Effected(p, db, wf, e, payload, m, s).value, more)
  {
    match e
    case RecordEffect => more := RecordAnswers(p, db, wf, payload, m, s);
    case SetStatusEffect(_, _, _, _) => more := SetStatusAnswers(p, db, wf, e, payload, m, s);
    case CreateEffect(_, _, _) => more := CreateAnswers(p, db, wf, e, payload, m, s);
    case OpenLinkEffect(_, _, _) => more := CreateAnswers(p, db, wf, e, payload, m, s);
    case CloseLinkEffect(_, _, _, _, _) => more := CloseAnswers(p, db, wf, e, payload, m, s);
  }

  // ---- all effects of a workflow --------------------------------------------------------------------

  /** Every effect's wish is granted by a draft, and every draft after the first ones grants one. */
  ghost predicate AllAnswered(
    p: Pack, db: Db, wf: Workflow, effects: seq<Effect>, payload: Payload, minted: seq<Minted>, s: Progress, out: Progress)
  {
    && |effects| <= |minted| && |s.drafts| <= |out.drafts|
    && (forall i: nat :: i < |effects| ==>
          Covered(db.rec.objects, out.drafts, AskedAt(p, db, wf, effects, payload, minted, s.objectId, s.ctx, i)))
    && (forall j :: |s.drafts| <= j < |out.drafts| ==>
          AskedFor(p, db, wf, effects, payload, minted, s.objectId, s.ctx, out.drafts[j]))
    && out.objectId == AboutAt(wf.action, effects, minted, s.objectId, |effects|)
  }

  ghost predicate Covered(objects: map<Id, ObjectRow>, drafts: seq<Draft>, w: Option<Wish>) {
    w.Some? ==> exists j :: 0 <= j < |drafts| && Grants(objects, drafts[j], w.value)
  }

  ghost predicate AskedFor(
    p: Pack, db: Db, wf: Workflow, effects: seq<Effect>, payload: Payload, minted: seq<Minted>, o: Id, ctx: Context, d: Draft)
    requires |effects| <= |minted|
  {
    exists i: nat :: i < |effects| && WishIs(db.rec.objects, AskedAt(p, db, wf, effects, payload, minted, o, ctx, i), d)
  }

  predicate WishIs(objects: map<Id, ObjectRow>, w: Option<Wish>, d: Draft) {
    w.Some? && Grants(objects, d, w.value)
  }

  lemma NothingAnswered(
    p: Pack, db: Db, wf: Workflow, effects: seq<Effect>, payload: Payload, minted: seq<Minted>, s: Progress)
    requires effects == []
    ensures AllAnswered(p, db, wf, effects, payload, minted, s, s)
  {
  }

  /** Whatever one effect plans answers it. */
  ghost predicate EachAnswers(p: Pack, db: Db, wf: Workflow, payload: Payload) {
    forall e, m, s :: Effected(p, db, wf, e, payload, m, s).Ok? ==>
      exists more :: Answered(p, db, wf, e, payload, m, s, Effected(p, db, wf, e, payload, m, s).value, more)
  }

  lemma EachAnswersIts(p: Pack, db: Db, wf: Workflow, payload: Payload)
    requires Settled(p, db, wf)
    ensures EachAnswers(p, db, wf, payload)
  {
    forall e, m, s | Effected(p, db, wf, e, payload, m, s).Ok?
      ensures exists more :: Answered(p, db, wf, e, payload, m, s, Effected(p, db, wf, e, payload, m, s).value, more)
    {
      var more := EffectAnswers(p, db, wf, e, payload, m, s);
    }
  }

  lemma {:induction false} EffectsAnswer(
    p: Pack, db: Db, wf: Workflow, effects: seq<Effect>, payload: Payload, minted: seq<Minted>, s: Progress)
    requires EachAnswers(p, db, wf, payload) && AllEffects(p, db, wf, effects, payload, minted, s).Ok?
    ensures AllAnswered(p, db, wf, effects, payload, minted, s, AllEffects(p, db, wf, effects, payload, minted, s).value)
    ensures s.drafts <= AllEffects(p, db, wf, effects, payload, minted, s).value.drafts
    decreases |effects|
  {
    if effects == [] {
      NothingAnswered(p, db, wf, effects, payload, minted, s);
    } else {
      var next := FirstEffect(p, db, wf, effects, payload, minted, s);
      var more :| Answered(p, db, wf, effects[0], payload, minted[0], s, next, more);
      EffectsAnswer(p, db, wf, effects[1..], payload, minted[1..], next);
      FirstAnswered(
        p, db, wf, effects, payload, minted, s, next, more,
        AllEffects(p, db, wf, effects[1..], payload, minted[1..], next).value);
    }
  }

  lemma FirstEffect(
    p: Pack, db: Db, wf: Workflow, effects: seq<Effect>, payload: Payload, minted: seq<Minted>, s: Progress)
    returns (next: Progress)
    requires effects != [] && AllEffects(p, db, wf, effects, payload, minted, s).Ok?
    ensures minted != [] && Effected(p, db, wf, effects[0], payload, minted[0], s) == Ok(next)
    ensures
      AllEffects(p, db, wf, effects, payload, minted, s) == AllEffects(p, db, wf, effects[1..], payload, minted[1..], next)
  {
    next := Effected(p, db, wf, effects[0], payload, minted[0], s).value;
  }

  lemma FirstAnswered(
    p: Pack, db: Db, wf: Workflow, effects: seq<Effect>, payload: Payload, minted: seq<Minted>, s: Progress, next: Progress,
    more: seq<Draft>, out: Progress)
    requires effects != [] && minted != [] && Answered(p, db, wf, effects[0], payload, minted[0], s, next, more)
    requires AllAnswered(p, db, wf, effects[1..], payload, minted[1..], next, out) && next.drafts <= out.drafts
    ensures AllAnswered(p, db, wf, effects, payload, minted, s, out)
  {
    forall i: nat | i < |effects|
      ensures Covered(db.rec.objects, out.drafts, AskedAt(p, db, wf, effects, payload, minted, s.objectId, s.ctx, i))
    {
      if i == 0 {
        assert more != [] ==> out.drafts[|s.drafts|] == more[0];
      } else {
        assert AskedAt(p, db, wf, effects, payload, minted, s.objectId, s.ctx, i) ==
          AskedAt(p, db, wf, effects[1..], payload, minted[1..], next.objectId, next.ctx, i - 1);
      }
    }
    forall j | |s.drafts| <= j < |out.drafts|
      ensures AskedFor(p, db, wf, effects, payload, minted, s.objectId, s.ctx, out.drafts[j])
    {
      if j < |next.drafts| {
        assert out.drafts[j] == more[0] && j == |s.drafts|;
        assert WishIs(db.rec.objects, AskedAt(p, db, wf, effects, payload, minted, s.objectId, s.ctx, 0), out.drafts[j]);
      } else {
        var i: nat :| i < |effects[1..]| &&
          WishIs(db.rec.objects, AskedAt(p, db, wf, effects[1..], payload, minted[1..], next.objectId, next.ctx, i), out.drafts[j]);
        assert AskedAt(p, db, wf, effects, payload, minted, s.objectId, s.ctx, i + 1) ==
          AskedAt(p, db, wf, effects[1..], payload, minted[1..], next.objectId, next.ctx, i);
      }
    }
  }

  // ---- the rows a write set leaves ------------------------------------------------------------------

  predicate RowLanded(p: Pack, db: Db, now: Records, tx: TxId, w: WriteCtx, d: Draft) {
    && d.objectId in now.objects && now.objects[d.objectId] == LandedObject(p, db.rec.objects, tx, w.at, d)
    && (d.objectId, d.version) in now.versions
    && now.versions[(d.objectId, d.version)] == LandedVersion(tx, w.at, d, KeyUsed(db.deks, w, d))
  }

  predicate SameObject(a: map<Id, ObjectRow>, b: map<Id, ObjectRow>, o: Id) {
    (o in b <==> o in a) && (o in a ==> b[o] == a[o])
  }

  ghost predicate Addressed(drafts: seq<Draft>, o: Id) {
    exists i :: 0 <= i < |drafts| && drafts[i].objectId == o
  }

  ghost predicate RowsLanded(p: Pack, db: Db, now: Records, tx: TxId, w: WriteCtx, drafts: seq<Draft>) {
    && (forall i :: 0 <= i < |drafts| ==> RowLanded(p, db, now, tx, w, drafts[i]))
    && (forall o :: !Addressed(drafts, o) ==> SameObject(db.rec.objects, now.objects, o))
  }

  lemma {:induction false} OwnObjectRow(
    p: Pack, objects: map<Id, ObjectRow>, tx: TxId, at: int, drafts: seq<Draft>, i: nat)
    requires i < |drafts| && Distinct(drafts)
    ensures
      var o, after := drafts[i].objectId, ObjectsAfter(p, objects, tx, at, drafts);
      o in after && after[o] == LandedObject(p, objects, tx, at, drafts[i])
    decreases |drafts|
  {
    var d, rest := drafts[0], drafts[1..];
    var next := objects[d.objectId := LandedObject(p, objects, tx, at, d)];
    forall j | 0 <= j < |rest|
      ensures rest[j] == drafts[j + 1] && rest[j].objectId != d.objectId
    {
    }
    if i == 0 {
      UntouchedObject(p, next, tx, at, rest, d.objectId);
    } else {
      OwnObjectRow(p, next, tx, at, rest, i - 1);
    }
  }

  lemma BatchRows(p: Pack, db: Db, tx: TxId, w: WriteCtx, drafts: seq<Draft>)
    requires DeksOk(db.deks) && Distinct(drafts)
    requires BuildAll(p, db, w, drafts).Ok? && Apply(db, tx, BuildAll(p, db, w, drafts).value).Some?
    ensures RowsLanded(p, db, Apply(db, tx, BuildAll(p, db, w, drafts).value).value.rec, tx, w, drafts)
  {
    IndexLands(p, db, db, tx, w, drafts);
    RawLands(p, db, db, tx, w, drafts);
    forall i | 0 <= i < |drafts|
      ensures RowLanded(p, db, Apply(db, tx, BuildAll(p, db, w, drafts).value).value.rec, tx, w, drafts[i])
    {
      OwnObjectRow(p, db.rec.objects, tx, w.at, drafts, i);
      LastVersion(db.deks, db.rec.versions, tx, w, drafts, i);
    }
    forall o | !Addressed(drafts, o)
      ensures SameObject(db.rec.objects, ObjectsAfter(p, db.rec.objects, tx, w.at, drafts), o)
    {
      UntouchedObject(p, db.rec.objects, tx, w.at, drafts, o);
    }
  }

  lemma GrantedAdds(p: Pack, db: Db, now: Records, tx: TxId, w: WriteCtx, d: Draft, wish: Wish)
    requires ObjectsOk(p, db.rec, db.deks) && Proper(p, db.rec.objects, d)
    requires RowLanded(p, db, now, tx, w, d) && Grants(db.rec.objects, d, wish)
    ensures VersionAdded(db.rec, now, tx, w.at, wish)
  {
    if d.objectId in db.rec.objects {
      assert ObjectOk(p, db.rec, db.deks, d.objectId);
    }
  }

  /** Entries that are not about records leave them alone. */
  lemma {:induction false} OffRecords(db: Db, tx: TxId, ops: seq<Op>)
    requires (forall op :: op in ops ==> !op.Rec?) && Apply(db, tx, ops).Some?
    ensures Apply(db, tx, ops).value.rec == db.rec
    decreases |ops|
  {
    if ops != [] {
      OffRecords(ApplyOne(db, tx, ops[0]).value, tx, ops[1..]);
    }
  }

  // ---- an approval --------------------------------------------------------------------------------------

  ghost predicate WishMet(pre: Records, now: Records, tx: TxId, at: int, w: Option<Wish>) {
    w.Some? ==> VersionAdded(pre, now, tx, at, w.value)
  }

  /** Some effect asks for a version of this record. */
  ghost predicate WishedFor(
    p: Pack, db: Db, wf: Workflow, effects: seq<Effect>, proposed: Payload, minted: seq<Minted>, about: Id, ctx: Context, o: Id)
    requires |effects| <= |minted|
  {
    exists i: nat :: i < |effects| && WishOn(AskedAt(p, db, wf, effects, proposed, minted, about, ctx, i), o)
  }

  predicate WishOn(w: Option<Wish>, o: Id) {
    w.Some? && w.value.objectId == o
  }

  /** Every effect got what it asks for, and no other record changed. */
  ghost predicate EffectsDone(
    p: Pack, db: Db, now: Records, tx: TxId, at: int, wf: Workflow, effects: seq<Effect>, proposed: Payload,
    minted: seq<Minted>, about: Id, ctx: Context)
  {
    && |effects| <= |minted|
    && (forall i: nat :: i < |effects| ==>
          WishMet(db.rec, now, tx, at, AskedAt(p, db, wf, effects, proposed, minted, about, ctx, i)))
    && (forall o :: !WishedFor(p, db, wf, effects, proposed, minted, about, ctx, o) ==> SameObject(db.rec.objects, now.objects, o))
  }

  lemma WishesMet(
    p: Pack, db: Db, now: Records, tx: TxId, w: WriteCtx, wf: Workflow, effects: seq<Effect>, proposed: Payload,
    minted: seq<Minted>, about: Id, ctx: Context, out: Progress)
    requires ObjectsOk(p, db.rec, db.deks) && DraftsProper(p, db, out.drafts)
    requires AllAnswered(p, db, wf, effects, proposed, minted, Progress([], about, ctx), out)
    requires RowsLanded(p, db, now, tx, w, out.drafts)
    ensures EffectsDone(p, db, now, tx, w.at, wf, effects, proposed, minted, about, ctx)
  {
    forall i: nat | i < |effects|
      ensures WishMet(db.rec, now, tx, w.at, AskedAt(p, db, wf, effects, proposed, minted, about, ctx, i))
    {
      var wish := AskedAt(p, db, wf, effects, proposed, minted, about, ctx, i);
      assert Covered(db.rec.objects, out.drafts, wish);
      if wish.Some? {
        var j :| 0 <= j < |out.drafts| && Grants(db.rec.objects, out.drafts[j], wish.value);
        GrantedAdds(p, db, now, tx, w, out.drafts[j], wish.value);
      }
    }
    forall o | Addressed(out.drafts, o)
      ensures WishedFor(p, db, wf, effects, proposed, minted, about, ctx, o)
    {
      var j :| 0 <= j < |out.drafts| && out.drafts[j].objectId == o;
      assert AskedFor(p, db, wf, effects, proposed, minted, about, ctx, out.drafts[j]);
      var i: nat :| i < |effects| && WishIs(db.rec.objects, AskedAt(p, db, wf, effects, proposed, minted, about, ctx, i), out.drafts[j]);
      assert WishOn(AskedAt(p, db, wf, effects, proposed, minted, about, ctx, i), o);
    }
  }

  /** The effects a workflow has: those it declares, or the record itself. */
  function Declared(wf: Workflow): seq<Effect> {
    if |wf.effects| == 0 then [RecordEffect] else wf.effects
  }

  lemma ApprovalRows(
    p: Pack, db: Db, tx: TxId, w: WriteCtx, who: Principal, taskId: Id, s: Progress, ops: seq<Op>)
    requires DeksOk(db.deks) && Distinct(s.drafts) && BuildAll(p, db, w, s.drafts).Ok?
    requires ops ==
      BuildAll(p, db, w, s.drafts).value + ([ApproveMove(taskId, s.objectId, who, w.at)] + CloseProposal(db.deks, taskId, w.at))
    requires Apply(db, tx, ops).Some?
    ensures RowsLanded(p, db, Apply(db, tx, ops).value.rec, tx, w, s.drafts)
  {
    var built := BuildAll(p, db, w, s.drafts).value;
    var tail := [ApproveMove(taskId, s.objectId, who, w.at)] + CloseProposal(db.deks, taskId, w.at);
    ApplyAppend(db, tx, built, tail);
    BatchRows(p, db, tx, w, s.drafts);
    OffRecords(Apply(db, tx, built).value, tx, tail);
  }

  /** What the decision on a task was taken on. */
  function ProposedPayload(db: Db, t: Id): Payload
    requires t in db.tasks
  {
    var seen := OpenProposal(db.deks, true, t, db.tasks[t].payload);
    if seen.Ok? then seen.value.payload else map[]
  }

  /** A proposal is approved in the later state, and was not in the earlier one. */
  predicate JustApproved(db: Db, now: Db, t: Id) {
    t in now.tasks && now.tasks[t].state.Approved? && (t in db.tasks ==> !db.tasks[t].state.Approved?)
  }

  /** A proposal, who approves it, and how it is approved. */
  ghost predicate Approving(p: Pack, db: Db, c: Call, t: Id, who: Principal, wf: Workflow, plan: Planned, s: Progress) {
    && Approver(c, t) == Some(who) && t in db.tasks && db.tasks[t].workflow in p.workflows
    && p.workflows[db.tasks[t].workflow] == wf && who.sub != PLACEHOLDER
    && (var seen := OpenProposal(db.deks, true, t, db.tasks[t].payload);
        seen.Ok? && Effects(p, db, who, wf, t, db.tasks[t], seen.value.payload, SupplyOf(c), CtxOf(c)) == Ok(s))
    && SoundDrafts(p, db, s.drafts) && DraftsProper(p, db, s.drafts) && BuildAll(p, db, CtxOf(c), s.drafts).Ok?
    && plan.ops == BuildAll(p, db, CtxOf(c), s.drafts).value +
         ([ApproveMove(t, s.objectId, who, c.at)] + CloseProposal(db.deks, t, c.at))
    && PlanApproval(p, db, who, wf, t, SupplyOf(c), c.message, CtxOf(c)) == Ok(plan)
    && TxOf(p, plan) !in db.log && Apply(db, TxOf(p, plan), plan.ops).Some?
  }

  /** The plan of a step that approves a proposal, and what its effects come to. */
  lemma ApprovalPlanned(p: Pack, db: Db, c: Call, t: Id) returns (plan: Planned, who: Principal, wf: Workflow, s: Progress)
    requires PackSound(p) && Inv(p, db) && Sound(p, db, c) && JustApproved(db, Step(p, db, c), t)
    ensures Plan(p, db, c) == Ok(plan) && Approving(p, db, c, t, who, wf, plan, s)
  {
    plan := ApprovingStep(p, db, c, t);
    ApprovingPlan(p, db, c, plan, t);
    who, wf := Approver(c, t).value, p.workflows[db.tasks[t].workflow];
    s := ApprovingParts(p, db, c, t, who, wf, plan);
  }

  lemma ApprovingStep(p: Pack, db: Db, c: Call, t: Id) returns (plan: Planned)
    requires PackSound(p) && Inv(p, db) && Sound(p, db, c) && JustApproved(db, Step(p, db, c), t)
    ensures Plan(p, db, c) == Ok(plan) && Approves(TxOf(p, plan), t)
    ensures TxOf(p, plan) !in db.log && Apply(db, TxOf(p, plan), plan.ops).Some?
  {
    StepKeeps(p, db, c);
    plan := StepApproves(p, db, c, t);
  }

  lemma ApprovingParts(p: Pack, db: Db, c: Call, t: Id, who: Principal, wf: Workflow, plan: Planned) returns (s: Progress)
    requires PackSound(p) && Sound(p, db, c) && Approver(c, t) == Some(who)
    requires t in db.tasks && db.tasks[t].workflow in p.workflows && p.workflows[db.tasks[t].workflow] == wf
    requires PlanApproval(p, db, who, wf, t, SupplyOf(c), c.message, CtxOf(c)) == Ok(plan)
    requires TxOf(p, plan) !in db.log && Apply(db, TxOf(p, plan), plan.ops).Some?
    ensures Approving(p, db, c, t, who, wf, plan, s)
  {
    s := ApprovalParts(p, db, who, wf, t, SupplyOf(c), c.message, CtxOf(c), plan);
    ApprovalProper(p, db, who, wf, t, SupplyOf(c), CtxOf(c), s);
  }

  /** All that an approval leaves on record: what its effects ask for, by one entry. */
  ghost predicate EffectsOnRecord(p: Pack, db: Db, now: Db, c: Call, t: Id) {
    && Approver(c, t).Some? && t in db.tasks && db.tasks[t].workflow in p.workflows && |now.log| == |db.log| + 1
    && (var who, wf := Approver(c, t).value, p.workflows[db.tasks[t].workflow];
        EffectsDone(
          p, db, now.rec, Latest(now), c.at, wf, Declared(wf), ProposedPayload(db, t), SupplyOf(c), db.tasks[t].objectId,
          DecisionContext(p, db, who, t, c.at)))
  }

  /**
   A step that approves a proposal adds, for every effect of its workflow, exactly the version that effect
   asks for, all written by the one entry the step logs, and changes no other record.
   */
  lemma EffectsRecorded(p: Pack, db: Db, c: Call, t: Id)
    requires PackSound(p) && Inv(p, db) && Sound(p, db, c) && JustApproved(db, Step(p, db, c), t)
    ensures EffectsOnRecord(p, db, Step(p, db, c), c, t)
  {
    var plan, who, wf, s := ApprovalPlanned(p, db, c, t);
    EffectsLand(p, db, c, t, who, wf, plan, s);
    StepIs(p, db, c, plan);
  }

  lemma EffectsLand(p: Pack, db: Db, c: Call, t: Id, who: Principal, wf: Workflow, plan: Planned, s: Progress)
    requires PackOk(p) && RecordsOk(p, db.rec, db.deks) && Approving(p, db, c, t, who, wf, plan, s)
    ensures EffectsOnRecord(p, db, Logged(Apply(db, TxOf(p, plan), plan.ops).value, TxOf(p, plan)), c, t)
  {
    var tx, ops := TxOf(p, plan), plan.ops;
    ApplyKeepsLog(db, tx, ops);
    ApprovalRows(p, db, tx, CtxOf(c), who, t, s, ops);
    PlannedEffects(p, db, c, t, who, wf, s);
    WishesMet(
      p, db, Apply(db, tx, ops).value.rec, tx, CtxOf(c), wf, Declared(wf), ProposedPayload(db, t), SupplyOf(c),
      db.tasks[t].objectId, DecisionContext(p, db, who, t, c.at), s);
  }

  lemma PlannedEffects(p: Pack, db: Db, c: Call, t: Id, who: Principal, wf: Workflow, s: Progress)
    requires PackOk(p) && RecordsOk(p, db.rec, db.deks) && t in db.tasks && wf.name in p.workflows && p.workflows[wf.name] == wf
    requires
      var seen := OpenProposal(db.deks, true, t, db.tasks[t].payload);
      seen.Ok? && Effects(p, db, who, wf, t, db.tasks[t], seen.value.payload, SupplyOf(c), CtxOf(c)) == Ok(s)
    ensures AllAnswered(
      p, db, wf, Declared(wf), ProposedPayload(db, t), SupplyOf(c),
      Progress([], db.tasks[t].objectId, DecisionContext(p, db, who, t, c.at)), s)
  {
    assert WorkflowOk(p, wf);
    assert EffectsOf(wf) == Declared(wf);
    EachAnswersIts(p, db, wf, ProposedPayload(db, t));
    EffectsAnswer(
      p, db, wf, Declared(wf), ProposedPayload(db, t), SupplyOf(c),
      Progress([], db.tasks[t].objectId, DecisionContext(p, db, who, t, c.at)));
  }
}
