/**
 The workflow primitive (`internal/register/workflow.go`): what each step checks and the write set it
 commits, as functions of the state it is taken in.
 */
module Workflows {
  import opened Outcomes
  import opened Tables
  import opened Packs
  import opened RecordBuild
  import opened Batch
  import Canon

  datatype Principal = Principal(sub: string, acting: string, pii: bool, perms: set<string>)

  predicate Can(who: Principal, perm: string) {
    perm in who.perms
  }

  predicate CanOn(who: Principal, perm: string, scope: string) {
    perm in who.perms || perm + ":*" in who.perms || perm + ":" + scope in who.perms
  }

  const POLICY: string := "policy"

  /** The actor an automatic approval is recorded under. */
  function PolicyPrincipal(): Principal {
    Principal(POLICY, "policy", true, {})
  }

  datatype Planned = Planned(env: Envelope, ops: seq<Op>)

  /** `transactionID` */
  function TxOf(p: Pack, plan: Planned): TxId {
    TxId(plan.env, plan.ops, p.digest(plan.env, plan.ops))
  }

  // ---- conditions -----------------------------------------------------------------------

  datatype Verdict = Verdict(blockers: seq<string>, reject: Option<string>)

  predicate Holds(p: Pack, db: Db, ctx: Context, c: Condition) {
    var n := p.count(c.sql, db, ctx);
    if c.expectZero then n == 0 else n != 0
  }

  function MessageOf(c: Condition): string {
    if c.message == "" then "condition does not hold" else c.message
  }

  /** `evaluateConditions`: the first failing reject condition ends it; the others are collected. */
  method Evaluate(p: Pack, db: Db, conditions: seq<Condition>, ctx: Context) returns (v: Verdict)
    ensures v == Verdict(BlockersOf(p, db, conditions, ctx), RejectOf(p, db, conditions, ctx))
  {
    var blockers := [];
    var rest := conditions;
    while rest != []
      invariant BlockersOf(p, db, conditions, ctx) == blockers + BlockersOf(p, db, rest, ctx)
      invariant RejectOf(p, db, conditions, ctx) == RejectOf(p, db, rest, ctx)
      decreases |rest|
    {
      var c := rest[0];
      if !Holds(p, db, ctx, c) {
        if c.reject {
          return Verdict(blockers, Some(MessageOf(c)));
        }
        assert blockers + ([MessageOf(c)] + BlockersOf(p, db, rest[1..], ctx)) ==
          (blockers + [MessageOf(c)]) + BlockersOf(p, db, rest[1..], ctx);
        blockers := blockers + [MessageOf(c)];
      }
      rest := rest[1..];
    }
    return Verdict(blockers, None);
  }

  function RejectOf(p: Pack, db: Db, conditions: seq<Condition>, ctx: Context): Option<string>
    decreases |conditions|
  {
    if conditions == [] then None
    else if !Holds(p, db, ctx, conditions[0]) && conditions[0].reject then Some(MessageOf(conditions[0]))
    else RejectOf(p, db, conditions[1..], ctx)
  }

  function BlockersOf(p: Pack, db: Db, conditions: seq<Condition>, ctx: Context): seq<string>
    decreases |conditions|
  {
    if conditions == [] || (!Holds(p, db, ctx, conditions[0]) && conditions[0].reject) then []
    else
      (if Holds(p, db, ctx, conditions[0]) then [] else [MessageOf(conditions[0])])
      + BlockersOf(p, db, conditions[1..], ctx)
  }

  ghost predicate NoRejection(p: Pack, db: Db, conditions: seq<Condition>, ctx: Context) {
    forall i :: 0 <= i < |conditions| && conditions[i].reject ==> Holds(p, db, ctx, conditions[i])
  }

  ghost predicate AllHold(p: Pack, db: Db, conditions: seq<Condition>, ctx: Context) {
    forall i :: 0 <= i < |conditions| ==> Holds(p, db, ctx, conditions[i])
  }

  /** What the verdict means: no rejection means no reject condition fails, and no blocker that none does. */
  lemma {:induction false} VerdictMeans(p: Pack, db: Db, conditions: seq<Condition>, ctx: Context)
    ensures RejectOf(p, db, conditions, ctx).None? <==> NoRejection(p, db, conditions, ctx)
    ensures RejectOf(p, db, conditions, ctx).None? ==>
      (BlockersOf(p, db, conditions, ctx) == [] <==> AllHold(p, db, conditions, ctx))
    decreases |conditions|
  {
    if conditions != [] {
      var rest := conditions[1..];
      VerdictMeans(p, db, rest, ctx);
      assert conditions == [conditions[0]] + rest;
      assert NoRejection(p, db, conditions, ctx) <==>
        (conditions[0].reject ==> Holds(p, db, ctx, conditions[0])) && NoRejection(p, db, rest, ctx);
      assert AllHold(p, db, conditions, ctx) <==>
        Holds(p, db, ctx, conditions[0]) && AllHold(p, db, rest, ctx);
    }
  }

  // ---- proposals ----------------------------------------------------------------------------

  function ProposalPii(p: Pack, wf: Workflow): set<string> {
    if wf.input.Some? then wf.input.value
    else if wf.cls in p.classes then p.classes[wf.cls].pii
    else {}
  }

  datatype Sealed = Sealed(stored: Stored, mint: seq<Op>)

  /** `sealProposal` */
  function SealProposal(deks: map<Scope, Dek>, w: WriteCtx, pii: set<string>, taskId: Id, payload: Payload, minted: Key)
    : Result<Sealed, Refusal>
  {
    var personal := Personal(pii, payload);
    if personal == map[] then Ok(Sealed(Stored(Clear(pii, payload), None), []))
    else
      var e :- EnsureDek(deks, w, TaskKey(taskId), minted);
      Ok(Sealed(
        Stored(Clear(pii, payload), Some(Encrypt(e.key, TaskKey(taskId), taskId, 0, personal))), e.mint))
  }

  datatype Opened = Opened(payload: Payload, redacted: bool)

  /** `openProposal` */
  function OpenProposal(deks: map<Scope, Dek>, cleared: bool, taskId: Id, stored: Stored): Result<Opened, Refusal> {
    if stored.enc.None? then Ok(Opened(stored.clear, false))
    else if !cleared then Ok(Opened(stored.clear, true))
    else if TaskKey(taskId) !in deks || !deks[TaskKey(taskId)].Live() then Ok(Opened(stored.clear, true))
    else
      var key := Unwrap(TaskKey(taskId), deks[TaskKey(taskId)].opWrap);
      if key.None? then Err(Refused("unwrap"))
      else
        var data := Decrypt(key.value, stored.enc.value, taskId, 0);
        if data.None? then Err(Refused("decrypt")) else Ok(Opened(stored.clear + data.value, false))
  }

  /** `closeProposal` */
  function CloseProposal(deks: map<Scope, Dek>, taskId: Id, at: int): seq<Op> {
    if TaskKey(taskId) in deks && deks[TaskKey(taskId)].Live() then [DestroyKey(TaskKey(taskId), at)] else []
  }

  datatype Request = Request(objectId: Id, payload: Payload, message: string)

  /** The checks `Propose` makes before it reads the state. */
  predicate Acceptable(p: Pack, who: Principal, wf: Workflow, req: Request) {
    && CanOn(who, PERM_PROPOSE, wf.name) && who.acting in wf.proposeRoles
    && (wf.input.Some? ==> p.acceptsInput(wf.name, req.payload))
    && (if wf.action.CreateAction? then req.objectId == "" && p.accepts(wf.cls, req.payload) else req.objectId != "")
    && (wf.input.None? && (wf.action.UpdateAction? || wf.action.CorrectAction?) ==> p.accepts(wf.cls, req.payload))
  }

  /** The first commit of `Propose`. */
  function PlanProposal(
    p: Pack, db: Db, who: Principal, name: string, req: Request, taskId: Id, minted: Key, w: WriteCtx)
    : Result<Planned, Refusal>
  {
    if name !in p.workflows then Err(Refused("no such workflow"))
    else
      var wf := p.workflows[name];
      if !Acceptable(p, who, wf, req) then Err(Refused("proposal"))
      else if req.objectId != "" && (req.objectId !in db.rec.objects || db.rec.objects[req.objectId].cls != wf.cls) then
        Err(Refused("record"))
      else
        var ctx := p.context(db, Subject(who.sub, who.acting, taskId, req.objectId, req.payload, w.at));
        if RejectOf(p, db, wf.conditions, ctx).Some? then Err(Refused("rejected"))
        else
          var party :- PartyOf(p, wf, req.payload);
          var sealed :- SealProposal(db.deks, w, ProposalPii(p, wf), taskId, req.payload, minted);
          var state := if wf.counterpartyField.Some? then AwaitingCounterparty else AwaitingReview;
          var task := TaskRow(
            wf.name, wf.cls, req.objectId, state, who.sub, party, NoAnswer, sealed.stored, w.at, w.at, "", 0);
          Ok(Planned(
            Envelope(TaskPropose, who.sub, w.at, taskId, req.message), sealed.mint + [PutTask(taskId, task)]))
  }

  /** The party a two-party workflow names in the proposal. */
  function PartyOf(p: Pack, wf: Workflow, payload: Payload): Result<string, Refusal> {
    if wf.counterpartyField.None? then Ok("")
    else if wf.counterpartyField.value !in payload || p.sprint(payload[wf.counterpartyField.value]) == "" then
      Err(Refused("counterparty"))
    else Ok(p.sprint(payload[wf.counterpartyField.value]))
  }

  /** `Accept`: only the named counterparty answers, and only while the proposal waits for it. */
  function PlanAnswer(p: Pack, db: Db, who: Principal, taskId: Id, accept: bool, message: string, at: int)
    : Result<Planned, Refusal>
  {
    if taskId !in db.tasks then Err(Refused("no proposal"))
    else
      var t := db.tasks[taskId];
      var seen :- OpenProposal(db.deks, true, taskId, t.payload);
      if t.workflow !in p.workflows || p.workflows[t.workflow].counterpartyField.None? then Err(Refused("not two-party"))
      else if t.state != AwaitingCounterparty then Err(Refused("state"))
      else if t.counterparty != who.sub then Err(Refused("counterparty"))
      else if accept then
        Ok(Planned(
          Envelope(TaskAccept, who.sub, at, taskId, message),
          [MoveTask(taskId, TaskChange(AwaitingReview, at, Some(Accepted), None, None))]))
      else
        Ok(Planned(
          Envelope(TaskReject, who.sub, at, taskId, message),
          [MoveTask(taskId, TaskChange(Rejected, at, Some(Declined), None, None))] + CloseProposal(db.deks, taskId, at)))
  }

  /** `Withdraw` */
  function PlanWithdrawal(db: Db, who: Principal, taskId: Id, message: string, at: int): Result<Planned, Refusal> {
    if taskId !in db.tasks then Err(Refused("no proposal"))
    else
      var t := db.tasks[taskId];
      var seen :- OpenProposal(db.deks, true, taskId, t.payload);
      if t.proposer != who.sub then Err(Refused("not the proposer"))
      else if Terminal(t.state) then Err(Refused("state"))
      else
        Ok(Planned(
          Envelope(TaskWithdraw, who.sub, at, taskId, message),
          [MoveTask(taskId, TaskChange(Withdrawn, at, None, None, Some(who.sub)))] + CloseProposal(db.deks, taskId, at)))
  }

  // ---- effects -----------------------------------------------------------------------------------

  datatype Progress = Progress(drafts: seq<Draft>, objectId: Id, ctx: Context)

  function ClassOf(p: Pack, name: string): Result<Class, Refusal> {
    if name in p.classes then Ok(p.classes[name]) else Err(Refused("class"))
  }

  /** One effect: at most one record change, and what later effects can name. */
  ghost function Effected(p: Pack, db: Db, wf: Workflow, e: Effect, payload: Payload, m: Minted, s: Progress)
    : Result<Progress, Refusal>
  {
    match e
    case RecordEffect =>
      var c :- ClassOf(p, wf.cls);
      (match wf.action
       case CreateAction =>
         var d :- CreateDraft(c, payload, "", m);
         Ok(Progress(s.drafts + [d], m.objectId, s.ctx["object.id" := Canon.Str(m.objectId)]))
       case UpdateAction =>
         var d :- UpdateDraft(db, c, s.objectId, payload, "", m);
         Ok(s.(drafts := s.drafts + [d]))
       case CorrectAction =>
         var d :- UpdateDraft(db, c, s.objectId, payload, "", m);
         Ok(s.(drafts := s.drafts + [d]))
       case StatusAction =>
         var d :- StatusDraft(db, c, s.objectId, wf.status, m);
         Ok(s.(drafts := s.drafts + Listed(d))))
    case SetStatusEffect(target, cls, status, optional) =>
      var c :- ClassOf(p, if cls == "" then wf.cls else cls);
      var o := if target == "" then s.objectId else p.renderText(target, s.ctx);
      if o == "" then if optional then Ok(s) else Err(Refused("no target"))
      else
        var d :- StatusDraft(db, c, o, status, m);
        Ok(s.(drafts := s.drafts + Listed(d)))
    case CreateEffect(cls, template, status) =>
      var c :- ClassOf(p, cls);
      var d :- CreateDraft(c, p.renderPayload(template, s.ctx), status, m);
      Ok(Progress(
        s.drafts + [d], if s.objectId == "" then m.objectId else s.objectId,
        s.ctx["created." + cls + ".id" := Canon.Str(m.objectId)]))
    case OpenLinkEffect(cls, template, status) =>
      var c :- ClassOf(p, cls);
      var d :- CreateDraft(c, p.renderPayload(template, s.ctx), status, m);
      Ok(s.(drafts := s.drafts + [d], ctx := s.ctx["created." + cls + ".id" := Canon.Str(m.objectId)]))
    case CloseLinkEffect(cls, match_, set_, status, optional) =>
      var c :- ClassOf(p, cls);
      var o := p.pick(match_, db, s.ctx);
      if o.None? then if optional then Ok(s) else Err(Refused("nothing to close"))
      else
        var current :- HeadVersion(db, o.value);
        var d :- UpdateDraft(db, c, o.value, current.1 + p.renderPayload(set_, s.ctx), status, m);
        Ok(s.(drafts := s.drafts + [d]))
  }

  function Listed(d: Option<Draft>): seq<Draft> {
    if d.Some? then [d.value] else []
  }

  ghost function AllEffects(
    p: Pack, db: Db, wf: Workflow, effects: seq<Effect>, payload: Payload, minted: seq<Minted>, s: Progress)
    : Result<Progress, Refusal>
    decreases |effects|
  {
    if effects == [] then Ok(s)
    else if minted == [] then Err(Refused("entropy"))
    else
      var next :- Effected(p, db, wf, effects[0], payload, minted[0], s);
      AllEffects(p, db, wf, effects[1..], payload, minted[1..], next)
  }

  function EffectsOf(wf: Workflow): seq<Effect> {
    if wf.effects == [] then [RecordEffect] else wf.effects
  }

  // ---- decisions -----------------------------------------------------------------------------------

  function RejectOps(db: Db, taskId: Id, who: Principal, at: int): seq<Op> {
    [MoveTask(taskId, TaskChange(Rejected, at, None, None, Some(who.sub)))] + CloseProposal(db.deks, taskId, at)
  }

  function ApproveMove(taskId: Id, objectId: Id, who: Principal, at: int): Op {
    MoveTask(taskId, TaskChange(Approved, at, None, Some(objectId), Some(who.sub)))
  }

  /** What approving would do: the record changes, and which record the proposal is about. */
  ghost function Effects(
    p: Pack, db: Db, who: Principal, wf: Workflow, taskId: Id, t: TaskRow, payload: Payload, minted: seq<Minted>, w: WriteCtx)
    : Result<Progress, Refusal>
  {
    var ctx := p.context(db, Subject(who.sub, who.acting, taskId, t.objectId, payload, w.at));
    if RejectOf(p, db, wf.conditions, ctx).Some? then Err(Refused("rejected"))
    else if BlockersOf(p, db, wf.conditions, ctx) != [] && who.sub == POLICY then Err(Refused("blocked"))
    else
      var s :- AllEffects(p, db, wf, EffectsOf(wf), payload, minted, Progress([], t.objectId, ctx));
      if s.objectId == "" then Err(Refused("no record")) else Ok(s)
  }

  /** `decide` with an approval: the record changes, the mark on the proposal and the end of its key, in one. */
  ghost function PlanApproval(
    p: Pack, db: Db, who: Principal, wf: Workflow, taskId: Id, minted: seq<Minted>, message: string, w: WriteCtx)
    : Result<Planned, Refusal>
    requires taskId in db.tasks
  {
    var t := db.tasks[taskId];
    var seen :- OpenProposal(db.deks, true, taskId, t.payload);
    var s :- Effects(p, db, who, wf, taskId, t, seen.payload, minted, w);
    var ops :- BuildAll(p, db, w, s.drafts);
    var kind := if wf.action.CorrectAction? && t.objectId != "" then RecordCorrect else TaskApprove;
    Ok(Planned(
      Envelope(kind, who.sub, w.at, s.objectId, message),
      ops + ([ApproveMove(taskId, s.objectId, who, w.at)] + CloseProposal(db.deks, taskId, w.at))))
  }

  /** `Decide` by a person. */
  ghost function PlanDecision(
    p: Pack, db: Db, who: Principal, taskId: Id, approve: bool, minted: seq<Minted>, message: string, w: WriteCtx)
    : Result<Planned, Refusal>
  {
    if taskId !in db.tasks then Err(Refused("no proposal"))
    else
      var t := db.tasks[taskId];
      var seen :- OpenProposal(db.deks, true, taskId, t.payload);
      if t.workflow !in p.workflows then Err(Refused("no such workflow"))
      else
        var wf := p.workflows[t.workflow];
        if !CanOn(who, PERM_APPROVE, wf.name) || who.acting !in wf.approveRoles then Err(Refused("may not decide"))
        else if wf.independence && t.proposer == who.sub then Err(Refused("separation of duties"))
        else if t.state != AwaitingReview then Err(Refused("state"))
        else if approve then PlanApproval(p, db, who, wf, taskId, minted, message, w)
        else Ok(Planned(Envelope(TaskReject, who.sub, w.at, taskId, message), RejectOps(db, taskId, who, w.at)))
  }

  /** The second commit of `Propose` and `Accept`: approval under policy of a proposal under review. */
  ghost function PlanPolicyApproval(p: Pack, db: Db, taskId: Id, minted: seq<Minted>, message: string, w: WriteCtx)
    : Result<Planned, Refusal>
  {
    if taskId !in db.tasks then Err(Refused("no proposal"))
    else
      var t := db.tasks[taskId];
      if t.workflow !in p.workflows || !p.workflows[t.workflow].autoApprove || t.state != AwaitingReview then
        Err(Refused("not automatic"))
      else PlanApproval(p, db, PolicyPrincipal(), p.workflows[t.workflow], taskId, minted, message, w)
  }
}
