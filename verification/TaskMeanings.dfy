/**
 What is proposed, answered, decided and withdrawn (`internal/register/workflow.go`), said of the rows before
 and after, of who asked and of what was asked, without the planning that gets there.
 */
module TaskMeanings {
  import opened Outcomes
  import opened Tables
  import opened Packs
  import opened RecordBuild
  import opened RecordInvariant
  import opened ReadBack
  import opened Workflows
  import opened WorkflowSafety
  import opened Approval
  import opened Runs
  import opened RunSafety
  import opened EffectMeanings
  import opened Batch
  import R = RetentionPolicy

  // ---- proposing -----------------------------------------------------------------------------

  /** A permission held outright, for everything, or for this workflow. */
  predicate Permitted(perms: set<string>, perm: string, workflow: string) {
    perm in perms || perm + ":*" in perms || perm + ":" + workflow in perms
  }

  /** Every condition that rejects holds: a count of none, or of some, as it asks. */
  ghost predicate NothingRejects(p: Pack, db: Db, conditions: seq<Condition>, ctx: Context) {
    forall i :: 0 <= i < |conditions| && conditions[i].reject ==>
      (p.count(conditions[i].sql, db, ctx) == 0 <==> conditions[i].expectZero)
  }

  /** Who may propose what. */
  ghost predicate MayPropose(p: Pack, db: Db, who: Principal, name: string, req: Request, t: Id, at: int) {
    && name in p.workflows
    && (var wf := p.workflows[name];
        && Permitted(who.perms, "propose", wf.name) && who.acting in wf.proposeRoles
        && (wf.input.Some? ==> p.acceptsInput(wf.name, req.payload))
        && (if wf.action.CreateAction? then req.objectId == "" && p.accepts(wf.cls, req.payload)
            else req.objectId != "" && req.objectId in db.rec.objects && db.rec.objects[req.objectId].cls == wf.cls)
        && (wf.input.None? && (wf.action.UpdateAction? || wf.action.CorrectAction?) ==> p.accepts(wf.cls, req.payload))
        && NothingRejects(p, db, wf.conditions, p.context(db, Subject(who.sub, who.acting, t, req.objectId, req.payload, at)))
        && (wf.counterpartyField.Some? ==>
              wf.counterpartyField.value in req.payload && p.sprint(req.payload[wf.counterpartyField.value]) != ""))
  }

  /** The other party a proposal names. */
  function NamedParty(p: Pack, wf: Workflow, payload: Payload): string {
    if wf.counterpartyField.Some? && wf.counterpartyField.value in payload then p.sprint(payload[wf.counterpartyField.value])
    else ""
  }

  /** What a proposal holds in the clear is no personal data of its workflow. */
  predicate NothingPersonal(p: Pack, wf: Workflow, clear: Payload) {
    forall k :: k in clear ==>
      if wf.input.Some? then k !in wf.input.value else wf.cls in p.classes ==> k !in p.classes[wf.cls].pii
  }

  /** The row of a new proposal. */
  predicate Filed(p: Pack, wf: Workflow, who: Principal, req: Request, digest: Digest, at: int, row: TaskRow) {
    && row.workflow == wf.name && row.cls == wf.cls && row.objectId == req.objectId
    && row.state == (if wf.counterpartyField.Some? then AwaitingCounterparty else AwaitingReview)
    && row.proposer == who.sub && row.answer == NoAnswer
    && row.counterparty ==
         (if NamedParty(p, wf, req.payload) == "$txid" then digest else NamedParty(p, wf, req.payload))
    && row.createdAt == at && row.updatedAt == at && row.decidedBy == "" && row.decidedAt == 0
    && NothingPersonal(p, wf, row.payload.clear)
  }

  lemma RejectsMeans(p: Pack, db: Db, conditions: seq<Condition>, ctx: Context)
    ensures RejectOf(p, db, conditions, ctx).None? <==> NothingRejects(p, db, conditions, ctx)
  {
    VerdictMeans(p, db, conditions, ctx);
    if NoRejection(p, db, conditions, ctx) {
      forall i | 0 <= i < |conditions| && conditions[i].reject
        ensures p.count(conditions[i].sql, db, ctx) == 0 <==> conditions[i].expectZero
      {
        assert Holds(p, db, ctx, conditions[i]);
      }
    }
    if NothingRejects(p, db, conditions, ctx) {
      forall i | 0 <= i < |conditions| && conditions[i].reject
        ensures Holds(p, db, ctx, conditions[i])
      {
      }
    }
  }

  lemma ProposalSeals(p: Pack, wf: Workflow, deks: map<Scope, Dek>, w: WriteCtx, t: Id, payload: Payload, minted: Key)
    requires TaskKey(t) !in deks
    ensures
      var sealed := SealProposal(deks, w, ProposalPii(p, wf), t, payload, minted);
      sealed.Ok? && NothingPersonal(p, wf, sealed.value.stored.clear)
  {
  }

  /** Proposing is let through exactly for those who may. */
  lemma ProposeExactly(
    p: Pack, db: Db, who: Principal, name: string, req: Request, t: Id, minted: Key, w: WriteCtx)
    requires TaskKey(t) !in db.deks
    ensures PlanProposal(p, db, who, name, req, t, minted, w).Ok? <==> MayPropose(p, db, who, name, req, t, w.at)
  {
    if name in p.workflows {
      var wf := p.workflows[name];
      ProposalSeals(p, wf, db.deks, w, t, req.payload, minted);
      RejectsMeans(p, db, wf.conditions, p.context(db, Subject(who.sub, who.acting, t, req.objectId, req.payload, w.at)));
    }
  }

  lemma ProposalRow(
    p: Pack, db: Db, who: Principal, name: string, req: Request, t: Id, minted: Key, w: WriteCtx, plan: Planned)
    returns (task: TaskRow)
    requires TaskKey(t) !in db.deks && who.sub != PLACEHOLDER
    requires PlanProposal(p, db, who, name, req, t, minted, w) == Ok(plan)
    ensures name in p.workflows && plan.env == Envelope(TaskPropose, who.sub, w.at, t, req.message)
    ensures
      var sealed := SealProposal(db.deks, w, ProposalPii(p, p.workflows[name]), t, req.payload, minted);
      && sealed.Ok? && task.payload == sealed.value.stored && plan.ops == sealed.value.mint + [PutTask(t, task)]
      && forall digest: Digest :: Filed(p, p.workflows[name], who, req, digest, w.at, FillTask(digest, task))
  {
    task := plan.ops[|plan.ops| - 1].task;
    ProposalSeals(p, p.workflows[name], db.deks, w, t, req.payload, minted);
  }

  /** The state after a proposal was filed. */
  ghost predicate ProposalFiled(p: Pack, db: Db, now: Db, c: Call)
    requires c.act.Propose?
  {
    var a := c.act;
    && Entered(db, now, Envelope(TaskPropose, a.who.sub, c.at, a.taskId, a.req.message)) && a.name in p.workflows
    && a.taskId in now.tasks && now.tasks == db.tasks[a.taskId := now.tasks[a.taskId]]
    && Filed(p, p.workflows[a.name], a.who, a.req, Latest(now).digest, c.at, now.tasks[a.taskId])
    && OpenProposal(now.deks, true, a.taskId, now.tasks[a.taskId].payload) == Ok(Opened(a.req.payload, false))
    && now.rec == db.rec && now.people == db.people
  }

  lemma FreshTaskKey(p: Pack, db: Db, t: Id)
    requires TasksOk(p, db) && t !in db.tasks
    ensures TaskKey(t) !in db.deks
  {
  }

  /**
   A proposal that takes effect was made by somebody who may, files the row it should, under its proposer and
   the party its payload names, and opens as what was submitted. It is refused, or repeats an earlier
   one, otherwise.
   */
  lemma ProposeMeans(p: Pack, db: Db, c: Call)
    requires PackSound(p) && Inv(p, db) && Sound(p, db, c) && c.act.Propose?
    ensures Plan(p, db, c).Ok? <==> MayPropose(p, db, c.act.who, c.act.name, c.act.req, c.act.taskId, c.at)
    ensures Acts(p, db, c) ==> ProposalFiled(p, db, Step(p, db, c), c)
  {
    var a, w := c.act, CtxOf(c);
    FreshTaskKey(p, db, a.taskId);
    ProposeExactly(p, db, a.who, a.name, a.req, a.taskId, a.minted, w);
    if Acts(p, db, c) {
      var plan := ActsBy(p, db, c);
      var task := ProposalRow(p, db, a.who, a.name, a.req, a.taskId, a.minted, w, plan);
      ProposalLands(db, TxOf(p, plan), w, ProposalPii(p, p.workflows[a.name]), a.taskId, a.req.payload, a.minted, task);
    }
  }

  // ---- answering, deciding, withdrawing ------------------------------------------------------------

  /** One proposal moved, nothing else but its key changed, and the key only when it is decided. */
  ghost predicate TaskMoved(db: Db, now: Db, t: Id, row: TaskRow) {
    && now == db.(tasks := db.tasks[t := row], deks := now.deks, log := now.log)
    && (forall s :: s != TaskKey(t) ==> (s in now.deks <==> s in db.deks) && (s in db.deks ==> now.deks[s] == db.deks[s]))
    && (if Terminal(row.state) then !KeyLive(now.deks, TaskKey(t)) else now.deks == db.deks)
  }

  lemma MovedAlone(db: Db, tx: TxId, t: Id, change: TaskChange, close: seq<Op>)
    requires t in db.tasks && Signed(change)
    requires close == if Terminal(change.state) then CloseProposal(db.deks, t, change.at) else []
    requires DeksOk(db.deks) && change.at > 0
    ensures
      var after := Apply(db, tx, [MoveTask(t, change)] + close);
      after.Some? && TaskMoved(db, Logged(after.value, tx), t, Moved(db.tasks[t], change))
  {
    MoveLands(db, tx, db.deks, t, change, close);
    ClosedOk(db.deks, t, change.at);
  }

  /** Only the party a proposal names answers it, while it waits for that. */
  ghost predicate MayAnswer(p: Pack, db: Db, who: Principal, t: Id) {
    && t in db.tasks && db.tasks[t].state == AwaitingCounterparty && db.tasks[t].counterparty == who.sub
    && db.tasks[t].workflow in p.workflows && p.workflows[db.tasks[t].workflow].counterpartyField.Some?
  }

  lemma TaskOpens(p: Pack, db: Db, t: Id)
    requires TasksOk(p, db) && DeksOk(db.deks) && t in db.tasks
    ensures OpenProposal(db.deks, true, t, db.tasks[t].payload).Ok?
  {
    TaskKnown(p, db, t);
    if TaskKey(t) in db.deks {
      assert DekOk(TaskKey(t), db.deks[TaskKey(t)]);
    }
  }

  lemma AnswerExactly(p: Pack, db: Db, c: Call)
    requires TasksOk(p, db) && DeksOk(db.deks) && c.act.Respond?
    ensures Plan(p, db, c).Ok? <==> MayAnswer(p, db, c.act.who, c.act.taskId)
  {
    if c.act.taskId in db.tasks {
      TaskOpens(p, db, c.act.taskId);
    }
  }

  lemma AnswerOps(p: Pack, db: Db, c: Call, plan: Planned) returns (change: TaskChange, close: seq<Op>)
    requires c.act.Respond? && Plan(p, db, c) == Ok(plan)
    ensures change == if c.act.accept then TaskChange(AwaitingReview, c.at, Some(Accepted), None, None)
                      else TaskChange(Rejected, c.at, Some(Declined), None, None)
    ensures close == if c.act.accept then [] else CloseProposal(db.deks, c.act.taskId, c.at)
    ensures plan == Planned(
      Envelope(if c.act.accept then TaskAccept else TaskReject, c.act.who.sub, c.at, c.act.taskId, c.message),
      [MoveTask(c.act.taskId, change)] + close)
  {
    change := if c.act.accept then TaskChange(AwaitingReview, c.at, Some(Accepted), None, None)
              else TaskChange(Rejected, c.at, Some(Declined), None, None);
    close := if c.act.accept then [] else CloseProposal(db.deks, c.act.taskId, c.at);
    assert c.act.accept ==> plan.ops == [MoveTask(c.act.taskId, change)] + close;
  }

  lemma AnswerMeans(p: Pack, db: Db, c: Call)
    requires TasksOk(p, db) && DeksOk(db.deks) && c.at > 0 && c.act.Respond?
    ensures Acts(p, db, c) ==>
      var a, now := c.act, Step(p, db, c);
      && MayAnswer(p, db, a.who, a.taskId)
      && Entered(db, now, Envelope(if a.accept then TaskAccept else TaskReject, a.who.sub, c.at, a.taskId, c.message))
      && TaskMoved(db, now, a.taskId, db.tasks[a.taskId].(
           state := if a.accept then AwaitingReview else Rejected, answer := if a.accept then Accepted else Declined,
           updatedAt := c.at))
  {
    var a := c.act;
    AnswerExactly(p, db, c);
    if Acts(p, db, c) {
      var plan := ActsBy(p, db, c);
      var change, close := AnswerOps(p, db, c, plan);
      MovedAlone(db, TxOf(p, plan), a.taskId, change, close);
    }
  }

  /** Only its proposer withdraws a proposal, before it is decided. */
  ghost predicate MayWithdraw(db: Db, who: Principal, t: Id) {
    t in db.tasks && db.tasks[t].proposer == who.sub && !Terminal(db.tasks[t].state)
  }

  lemma WithdrawExactly(p: Pack, db: Db, c: Call)
    requires TasksOk(p, db) && DeksOk(db.deks) && c.act.Withdraw?
    ensures Plan(p, db, c).Ok? <==> MayWithdraw(db, c.act.who, c.act.taskId)
  {
    if c.act.taskId in db.tasks {
      TaskOpens(p, db, c.act.taskId);
    }
  }

  lemma WithdrawOps(p: Pack, db: Db, c: Call, plan: Planned) returns (change: TaskChange)
    requires c.act.Withdraw? && Plan(p, db, c) == Ok(plan)
    ensures change == TaskChange(Withdrawn, c.at, None, None, Some(c.act.who.sub))
    ensures plan == Planned(
      Envelope(TaskWithdraw, c.act.who.sub, c.at, c.act.taskId, c.message),
      [MoveTask(c.act.taskId, change)] + CloseProposal(db.deks, c.act.taskId, c.at))
  {
    change := TaskChange(Withdrawn, c.at, None, None, Some(c.act.who.sub));
  }

  lemma WithdrawMeans(p: Pack, db: Db, c: Call)
    requires TasksOk(p, db) && DeksOk(db.deks) && c.at > 0 && c.act.Withdraw? && c.act.who.sub != PLACEHOLDER
    ensures Acts(p, db, c) ==>
      var a, now := c.act, Step(p, db, c);
      && MayWithdraw(db, a.who, a.taskId)
      && Entered(db, now, Envelope(TaskWithdraw, a.who.sub, c.at, a.taskId, c.message))
      && TaskMoved(db, now, a.taskId, db.tasks[a.taskId].(
           state := Withdrawn, updatedAt := c.at, decidedBy := a.who.sub, decidedAt := c.at))
  {
    var a := c.act;
    WithdrawExactly(p, db, c);
    if Acts(p, db, c) {
      var plan := ActsBy(p, db, c);
      var change := WithdrawOps(p, db, c, plan);
      MovedAlone(db, TxOf(p, plan), a.taskId, change, CloseProposal(db.deks, a.taskId, c.at));
    }
  }

  /** Who may decide a proposal that is under review. */
  ghost predicate MayDecide(p: Pack, db: Db, who: Principal, t: Id) {
    && t in db.tasks && db.tasks[t].workflow in p.workflows && db.tasks[t].state == AwaitingReview
    && (var wf := p.workflows[db.tasks[t].workflow];
        && Permitted(who.perms, "approve", wf.name) && who.acting in wf.approveRoles
        && (wf.independence ==> who.sub != db.tasks[t].proposer))
  }

  lemma RefusalExactly(p: Pack, db: Db, c: Call)
    requires TasksOk(p, db) && DeksOk(db.deks) && c.act.Decide? && !c.act.approve
    ensures Plan(p, db, c).Ok? <==> MayDecide(p, db, c.act.who, c.act.taskId)
  {
    if c.act.taskId in db.tasks {
      TaskOpens(p, db, c.act.taskId);
    }
  }

  lemma RefusalOps(p: Pack, db: Db, c: Call, plan: Planned) returns (change: TaskChange)
    requires c.act.Decide? && !c.act.approve && Plan(p, db, c) == Ok(plan)
    ensures change == TaskChange(Rejected, c.at, None, None, Some(c.act.who.sub))
    ensures plan == Planned(
      Envelope(TaskReject, c.act.who.sub, c.at, c.act.taskId, c.message),
      [MoveTask(c.act.taskId, change)] + CloseProposal(db.deks, c.act.taskId, c.at))
  {
    change := TaskChange(Rejected, c.at, None, None, Some(c.act.who.sub));
  }

  lemma RefusalMeans(p: Pack, db: Db, c: Call)
    requires TasksOk(p, db) && DeksOk(db.deks) && c.at > 0 && c.act.Decide? && !c.act.approve && c.act.who.sub != PLACEHOLDER
    ensures Acts(p, db, c) ==>
      var a, now := c.act, Step(p, db, c);
      && MayDecide(p, db, a.who, a.taskId)
      && Entered(db, now, Envelope(TaskReject, a.who.sub, c.at, a.taskId, c.message))
      && TaskMoved(db, now, a.taskId, db.tasks[a.taskId].(
           state := Rejected, updatedAt := c.at, decidedBy := a.who.sub, decidedAt := c.at))
  {
    var a := c.act;
    RefusalExactly(p, db, c);
    if Acts(p, db, c) {
      var plan := ActsBy(p, db, c);
      var change := RefusalOps(p, db, c, plan);
      MovedAlone(db, TxOf(p, plan), a.taskId, change, CloseProposal(db.deks, a.taskId, c.at));
    }
  }

  // ---- approving ---------------------------------------------------------------------------------------

  /** Who may approve: a person, or the register itself when the workflow says so. */
  ghost predicate MayApprove(p: Pack, db: Db, c: Call, t: Id) {
    match c.act
    case Decide(who, taskId, approve, _) => approve && taskId == t && MayDecide(p, db, who, t)
    case PolicyApproval(taskId, _) =>
      && taskId == t && t in db.tasks && db.tasks[t].workflow in p.workflows && db.tasks[t].state == AwaitingReview
      && p.workflows[db.tasks[t].workflow].autoApprove
    case _ => false
  }

  lemma ApproverMay(p: Pack, db: Db, c: Call, t: Id, plan: Planned)
    requires Plan(p, db, c) == Ok(plan) && Approver(c, t).Some?
    ensures MayApprove(p, db, c, t)
  {
  }

  /** What conditions say in the state a decision is taken in. */
  ghost predicate ConditionsAllow(p: Pack, db: Db, wf: Workflow, who: Principal, ctx: Context) {
    && NothingRejects(p, db, wf.conditions, ctx)
    && (who.sub == "policy" ==> forall i :: 0 <= i < |wf.conditions| ==>
          (p.count(wf.conditions[i].sql, db, ctx) == 0 <==> wf.conditions[i].expectZero))
  }

  lemma AllowsMeans(p: Pack, db: Db, wf: Workflow, who: Principal, ctx: Context)
    requires NoRejection(p, db, wf.conditions, ctx) && (who.sub == POLICY ==> AllHold(p, db, wf.conditions, ctx))
    ensures ConditionsAllow(p, db, wf, who, ctx)
  {
    VerdictMeans(p, db, wf.conditions, ctx);
    RejectsMeans(p, db, wf.conditions, ctx);
    if who.sub == "policy" {
      forall i | 0 <= i < |wf.conditions|
        ensures p.count(wf.conditions[i].sql, db, ctx) == 0 <==> wf.conditions[i].expectZero
      {
        assert Holds(p, db, ctx, wf.conditions[i]);
      }
    }
  }

  /** The subject of the entry and of the row is the record the effects were about in the end. */
  function AboutFinally(p: Pack, db: Db, c: Call, t: Id): Id
    requires t in db.tasks && db.tasks[t].workflow in p.workflows
  {
    var wf := p.workflows[db.tasks[t].workflow];
    if |Declared(wf)| <= |SupplyOf(c)| then AboutAt(wf.action, Declared(wf), SupplyOf(c), db.tasks[t].objectId, |Declared(wf)|) else ""
  }

  lemma ApprovedRow(p: Pack, db: Db, tx: TxId, w: WriteCtx, who: Principal, t: Id, s: Progress, ops: seq<Op>)
    requires RecordsOk(p, db.rec, db.deks) && R.MarksOk(p, db.rec) && t in db.tasks && w.at > 0 && w.pending == map[]
    requires who.sub != PLACEHOLDER && DraftsProper(p, db, s.drafts) && SoundDrafts(p, db, s.drafts)
    requires BuildAll(p, db, w, s.drafts).Ok?
    requires ops ==
      BuildAll(p, db, w, s.drafts).value + ([ApproveMove(t, s.objectId, who, w.at)] + CloseProposal(db.deks, t, w.at))
    requires Apply(db, tx, ops).Some?
    ensures
      var after := Apply(db, tx, ops).value;
      && after.people == db.people && !KeyLive(after.deks, TaskKey(t))
      && after.tasks == db.tasks[t := db.tasks[t].(
           state := Approved, objectId := s.objectId, updatedAt := w.at, decidedBy := who.sub, decidedAt := w.at)]
  {
    ApprovalLands(p, db, tx, w, s.drafts, t, TaskChange(Approved, w.at, None, Some(s.objectId), Some(who.sub)));
  }

  /**
   A step that makes a proposal approved was taken by somebody who may, in a state whose conditions allow it
   as the workflow asks.
   */
  lemma ApprovalAllowed(p: Pack, db: Db, c: Call, t: Id)
    requires PackSound(p) && Inv(p, db) && Sound(p, db, c) && JustApproved(db, Step(p, db, c), t)
    ensures MayApprove(p, db, c, t) && Approver(c, t).Some?
    ensures
      var who := Approver(c, t).value;
      ConditionsAllow(p, db, p.workflows[db.tasks[t].workflow], who, DecisionContext(p, db, who, t, c.at))
  {
    var plan, who, wf, s := ApprovalPlanned(p, db, c, t);
    ApproverMay(p, db, c, t, plan);
    ApprovalHeld(p, db, c, t, plan);
    AllowsMeans(p, db, wf, who, DecisionContext(p, db, who, t, c.at));
  }

  /** What the entry of an approval says. */
  lemma ApprovalSays(p: Pack, db: Db, c: Call, t: Id, who: Principal, wf: Workflow, plan: Planned, s: Progress)
    requires t in db.tasks && PlanApproval(p, db, who, wf, t, SupplyOf(c), c.message, CtxOf(c)) == Ok(plan)
    requires
      var seen := OpenProposal(db.deks, true, t, db.tasks[t].payload);
      seen.Ok? && Effects(p, db, who, wf, t, db.tasks[t], seen.value.payload, SupplyOf(c), CtxOf(c)) == Ok(s)
    ensures plan.env == Envelope(
      if wf.action.CorrectAction? && db.tasks[t].objectId != "" then RecordCorrect else TaskApprove, who.sub, c.at, s.objectId,
      c.message)
  {
  }

  /**
   It decides that proposal and no other, in their name, about the record its effects came to, and destroys the
   proposal's key. What it does to the records is `EffectsRecorded`.
   */
  lemma ApprovalMeans(p: Pack, db: Db, c: Call, t: Id)
    requires PackSound(p) && Inv(p, db) && Sound(p, db, c) && JustApproved(db, Step(p, db, c), t)
    ensures DecidedSo(p, db, Step(p, db, c), c, t)
  {
    var plan, who, wf, s := ApprovalPlanned(p, db, c, t);
    ApprovalDone(p, db, c, t, who, wf, plan, s);
    StepIs(p, db, c, plan);
  }

  /** What an approval leaves of the proposal, its key and the log. */
  ghost predicate DecidedSo(p: Pack, db: Db, now: Db, c: Call, t: Id) {
    && Approver(c, t).Some? && t in db.tasks && db.tasks[t].workflow in p.workflows
    && (var who, wf := Approver(c, t).value, p.workflows[db.tasks[t].workflow];
        && now.people == db.people && !KeyLive(now.deks, TaskKey(t))
        && now.tasks == db.tasks[t := db.tasks[t].(
             state := Approved, objectId := AboutFinally(p, db, c, t), updatedAt := c.at, decidedBy := who.sub, decidedAt := c.at)]
        && Entered(db, now, Envelope(
             if wf.action.CorrectAction? && db.tasks[t].objectId != "" then RecordCorrect else TaskApprove, who.sub, c.at,
             AboutFinally(p, db, c, t), c.message)))
  }

  lemma ApprovalDone(p: Pack, db: Db, c: Call, t: Id, who: Principal, wf: Workflow, plan: Planned, s: Progress)
    requires PackOk(p) && RecordsOk(p, db.rec, db.deks) && R.MarksOk(p, db.rec) && c.at > 0
    requires Approving(p, db, c, t, who, wf, plan, s)
    ensures DecidedSo(p, db, Logged(Apply(db, TxOf(p, plan), plan.ops).value, TxOf(p, plan)), c, t)
  {
    PlannedEffects(p, db, c, t, who, wf, s);
    ApprovalSays(p, db, c, t, who, wf, plan, s);
    ApprovedRow(p, db, TxOf(p, plan), CtxOf(c), who, t, s, plan.ops);
    ApplyKeepsLog(db, TxOf(p, plan), plan.ops);
  }

  // ---- from the proposal to the record --------------------------------------------------------------------

  /** Before it is approved, a proposal about a record stays about that record, whatever effects come first. */
  lemma {:induction false} AboutStays(action: ActionKind, effects: seq<Effect>, minted: seq<Minted>, o: Id, i: nat)
    requires i <= |effects| && i <= |minted| && o != "" && !action.CreateAction?
    ensures AboutAt(action, effects, minted, o, i) == o
    decreases i
  {
    if i > 0 {
      AboutStays(action, effects[1..], minted[1..], o, i - 1);
    }
  }

  /** The record holds one version more, which says what was proposed and reads as that. */
  ghost predicate HoldsProposed(before: Db, now: Db, at: int, w: Wish) {
    && now.log != [] && VersionAdded(before.rec, now.rec, Latest(now), at, w)
    && (var head := now.rec.objects[w.objectId].head;
        ReadRow(now.deks, true, w.objectId, head, now.rec.versions[(w.objectId, head)]) == Ok(Read(w.payload, false, false)))
  }

  /** A version just added reads as what it says. */
  lemma AddedReads(p: Pack, pre: Records, now: Db, at: int, w: Wish)
    requires ClassesOk(p.classes) && RecordsOk(p, now.rec, now.deks)
    requires now.log != [] && VersionAdded(pre, now.rec, Latest(now), at, w)
    ensures
      var head := now.rec.objects[w.objectId].head;
      ReadRow(now.deks, true, w.objectId, head, now.rec.versions[(w.objectId, head)]) == Ok(Read(w.payload, false, false))
  {
    var ob := now.rec.objects[w.objectId];
    HeadRow(p, now.rec, now.deks, w.objectId);
    KeyLives(p.classes[ob.cls], now.deks, w.objectId, ob, ob.head, now.rec.versions[(w.objectId, ob.head)]);
    ReadsBack(p, now.rec, now.deks, true, (w.objectId, ob.head));
  }

  /** While it is undecided, a proposal opens as it did. */
  lemma PayloadStays(p: Pack, a: Db, b: Db, t: Id)
    requires TasksOk(p, a) && TasksOk(p, b) && t in a.tasks && t in b.tasks && TaskOnward(a.tasks[t], b.tasks[t])
    requires !Terminal(a.tasks[t].state) && !Terminal(b.tasks[t].state)
    ensures ProposedPayload(b, t) == ProposedPayload(a, t)
  {
    TaskKnown(p, a, t);
    TaskKnown(p, b, t);
    OpensAlike(a.deks, b.deks, t, a.tasks[t].payload, true);
  }

  /** What is on file of a proposal at any later moment. */
  lemma StillFiled(p: Pack, now: Db, calls: seq<Call>, t: Id)
    requires PackSound(p) && Inv(p, now) && SoundRun(p, now, calls) && t in now.tasks && !Terminal(now.tasks[t].state)
    ensures Inv(p, Run(p, now, calls)) && t in Run(p, now, calls).tasks
    ensures
      var b := Run(p, now, calls);
      && TaskOnward(now.tasks[t], b.tasks[t])
      && (!Terminal(b.tasks[t].state) ==> ProposedPayload(b, t) == ProposedPayload(now, t))
  {
    RunKeeps(p, now, calls);
    var b := Run(p, now, calls);
    if !Terminal(b.tasks[t].state) {
      PayloadStays(p, now, b, t);
    }
  }

  /** What approving a proposal of a record adds: a new record, or the next version of the record it is about. */
  ghost function ProposedWish(p: Pack, rec: Records, wf: Workflow, o: Id, payload: Payload): Wish {
    Wish(
      wf.action.CreateAction?, o, wf.cls, payload,
      if wf.action.CreateAction? then InitialStatus(p, wf.cls, "") else HeadStatus(rec, o))
  }

  /** The effect on the record itself asks for what was proposed. */
  lemma RecordAsked(
    p: Pack, db: Db, wf: Workflow, effects: seq<Effect>, proposed: Payload, minted: seq<Minted>, about: Id, ctx: Context, i: nat)
    returns (o: Id)
    requires i < |effects| && |effects| <= |minted| && effects[i] == RecordEffect && !wf.action.StatusAction?
    requires wf.action.CreateAction? || about != ""
    ensures AskedAt(p, db, wf, effects, proposed, minted, about, ctx, i) == Some(ProposedWish(p, db.rec, wf, o, proposed))
    ensures !wf.action.CreateAction? ==> o == about
  {
    if wf.action.CreateAction? {
      o := minted[i].objectId;
    } else {
      o := about;
      AboutStays(wf.action, effects, minted, about, i);
    }
  }

  /** A step that approves a proposal of a record adds the version that says what was proposed. */
  lemma RecordMet(p: Pack, db: Db, c: Call, t: Id, wf: Workflow)
    requires PackSound(p) && Inv(p, db) && Sound(p, db, c) && JustApproved(db, Step(p, db, c), t)
    requires t in db.tasks && db.tasks[t].workflow in p.workflows && p.workflows[db.tasks[t].workflow] == wf
    requires RecordsPayload(wf) && (wf.action.CreateAction? || db.tasks[t].objectId != "")
    ensures RecordHolds(p, db, Step(p, db, c), c.at, wf, db.tasks[t].objectId, ProposedPayload(db, t))
  {
    EffectsRecorded(p, db, c, t);
    StepKeeps(p, db, c);
    RecordIn(p, db, Step(p, db, c), c, t, wf);
  }

  /** A workflow whose approval puts the payload proposed on record. */
  predicate RecordsPayload(wf: Workflow) {
    !wf.action.StatusAction? && (|wf.effects| == 0 || RecordEffect in wf.effects)
  }

  /** A record holds a payload since this step: a new record, or the one the proposal is about. */
  ghost predicate RecordHolds(p: Pack, db: Db, now: Db, at: int, wf: Workflow, about: Id, payload: Payload) {
    exists o ::
      HoldsProposed(db, now, at, ProposedWish(p, db.rec, wf, o, payload)) && (!wf.action.CreateAction? ==> o == about)
  }

  lemma RecordIn(p: Pack, db: Db, now: Db, c: Call, t: Id, wf: Workflow)
    requires EffectsOnRecord(p, db, now, c, t) && p.workflows[db.tasks[t].workflow] == wf
    requires ClassesOk(p.classes) && RecordsOk(p, now.rec, now.deks)
    requires RecordsPayload(wf) && (wf.action.CreateAction? || db.tasks[t].objectId != "")
    ensures RecordHolds(p, db, now, c.at, wf, db.tasks[t].objectId, ProposedPayload(db, t))
  {
    var i: nat :| i < |Declared(wf)| && Declared(wf)[i] == RecordEffect;
    var ctx := DecisionContext(p, db, Approver(c, t).value, t, c.at);
    var o := RecordAsked(p, db, wf, Declared(wf), ProposedPayload(db, t), SupplyOf(c), db.tasks[t].objectId, ctx, i);
    WishHeld(p, db, now, c.at, wf, Declared(wf), ProposedPayload(db, t), SupplyOf(c), db.tasks[t].objectId, ctx, i);
    AddedReads(p, db.rec, now, c.at, ProposedWish(p, db.rec, wf, o, ProposedPayload(db, t)));
    assert HoldsProposed(db, now, c.at, ProposedWish(p, db.rec, wf, o, ProposedPayload(db, t)));
  }

  lemma WishHeld(
    p: Pack, db: Db, now: Db, at: int, wf: Workflow, effects: seq<Effect>, proposed: Payload, minted: seq<Minted>, about: Id,
    ctx: Context, i: nat)
    requires now.log != [] && EffectsDone(p, db, now.rec, Latest(now), at, wf, effects, proposed, minted, about, ctx)
    requires i < |effects| && AskedAt(p, db, wf, effects, proposed, minted, about, ctx, i).Some?
    ensures VersionAdded(db.rec, now.rec, Latest(now), at, AskedAt(p, db, wf, effects, proposed, minted, about, ctx, i).value)
  {
    assert WishMet(db.rec, now.rec, Latest(now), at, AskedAt(p, db, wf, effects, proposed, minted, about, ctx, i));
  }

  /** Three states of a run: where a proposal was made, where it was filed, and where it is decided. */
  ghost predicate ProposedIn(p: Pack, earlier: seq<Call>, c: Call, later: seq<Call>) {
    && PackSound(p) && SoundRun(p, Blank(), earlier)
    && c.act.Propose? && Sound(p, Run(p, Blank(), earlier), c) && Acts(p, Run(p, Blank(), earlier), c)
    && SoundRun(p, Step(p, Run(p, Blank(), earlier), c), later)
  }

  /** A proposal on file as it should be. */
  ghost predicate OnFile(p: Pack, filed: Db, c: Call)
    requires c.act.Propose?
  {
    var t := c.act.taskId;
    && filed.log != [] && c.act.name in p.workflows && p.workflows[c.act.name].name == c.act.name
    && t in filed.tasks && !Terminal(filed.tasks[t].state)
    && Filed(p, p.workflows[c.act.name], c.act.who, c.act.req, Latest(filed).digest, c.at, filed.tasks[t])
    && ProposedPayload(filed, t) == c.act.req.payload
  }

  lemma FiledSays(p: Pack, db: Db, now: Db, c: Call)
    requires PackOk(p) && c.act.Propose? && ProposalFiled(p, db, now, c)
    ensures OnFile(p, now, c)
  {
  }

  lemma FiledFacts(p: Pack, a: Db, c: Call)
    requires PackSound(p) && Inv(p, a) && Sound(p, a, c) && c.act.Propose? && Acts(p, a, c)
    ensures Inv(p, Step(p, a, c)) && OnFile(p, Step(p, a, c), c)
  {
    ProposeMeans(p, a, c);
    FiledSays(p, a, Step(p, a, c), c);
    StepKeeps(p, a, c);
  }

  lemma ProposedFacts(p: Pack, earlier: seq<Call>, c: Call, later: seq<Call>)
    requires ProposedIn(p, earlier, c, later)
    ensures
      var filed := Step(p, Run(p, Blank(), earlier), c);
      var db, t := Run(p, filed, later), c.act.taskId;
      && Inv(p, db) && t in db.tasks && OnFile(p, filed, c)
      && TaskOnward(filed.tasks[t], db.tasks[t])
      && (!Terminal(db.tasks[t].state) ==> ProposedPayload(db, t) == c.act.req.payload)
  {
    ReachableInv(p, earlier);
    var a := Run(p, Blank(), earlier);
    FiledFacts(p, a, c);
    StillFiled(p, Step(p, a, c), later, c.act.taskId);
  }

  /**
   What is proposed is what is recorded. Once a proposal to make, change or correct a record has been filed,
   the step that approves it, whatever happened between, adds one version that says what was proposed, and
   a cleared reader then reads that: a new record, or the next version of the record it is about.
   */
  lemma ProposedIsRecorded(p: Pack, earlier: seq<Call>, c: Call, later: seq<Call>, d: Call)
    requires ProposedIn(p, earlier, c, later) && c.act.name in p.workflows
    requires RecordsPayload(p.workflows[c.act.name])
    requires
      var db := Run(p, Step(p, Run(p, Blank(), earlier), c), later);
      Sound(p, db, d) && JustApproved(db, Step(p, db, d), c.act.taskId)
    ensures
      var db := Run(p, Step(p, Run(p, Blank(), earlier), c), later);
      RecordHolds(p, db, Step(p, db, d), d.at, p.workflows[c.act.name], c.act.req.objectId, c.act.req.payload)
  {
    ProposedFacts(p, earlier, c, later);
    FiledAbout(p, earlier, c);
    var filed := Step(p, Run(p, Blank(), earlier), c);
    RecordedWhenApproved(p, filed, Run(p, filed, later), c, d);
  }

  /** From the proposal on file to the record. */
  lemma RecordedWhenApproved(p: Pack, filed: Db, db: Db, c: Call, d: Call)
    requires c.act.Propose? && OnFile(p, filed, c) && c.act.taskId in db.tasks
    requires PackSound(p) && Inv(p, db) && Sound(p, db, d) && JustApproved(db, Step(p, db, d), c.act.taskId)
    requires TaskOnward(filed.tasks[c.act.taskId], db.tasks[c.act.taskId])
    requires !Terminal(db.tasks[c.act.taskId].state) ==> ProposedPayload(db, c.act.taskId) == c.act.req.payload
    requires RecordsPayload(p.workflows[c.act.name]) && (p.workflows[c.act.name].action.CreateAction? || c.act.req.objectId != "")
    ensures RecordHolds(p, db, Step(p, db, d), d.at, p.workflows[c.act.name], c.act.req.objectId, c.act.req.payload)
  {
    SameProposal(p, filed, db, c);
    TerminalStays(p, db, d, c.act.taskId);
    RecordMet(p, db, d, c.act.taskId, p.workflows[c.act.name]);
  }

  lemma SameProposal(p: Pack, filed: Db, db: Db, c: Call)
    requires c.act.Propose? && OnFile(p, filed, c) && c.act.taskId in db.tasks
    requires TaskOnward(filed.tasks[c.act.taskId], db.tasks[c.act.taskId])
    ensures db.tasks[c.act.taskId].workflow == c.act.name
    ensures !db.tasks[c.act.taskId].state.Approved? ==> db.tasks[c.act.taskId].objectId == c.act.req.objectId
  {
  }

  lemma FiledAbout(p: Pack, earlier: seq<Call>, c: Call)
    requires ProposedIn(p, earlier, c, [])
    ensures c.act.name in p.workflows && (p.workflows[c.act.name].action.CreateAction? || c.act.req.objectId != "")
  {
    var a := Run(p, Blank(), earlier);
    ReachableInv(p, earlier);
    var plan := ActsBy(p, a, c);
    ProposeMeans(p, a, c);
  }

  /** A decided proposal is not approved later. */
  lemma TerminalStays(p: Pack, db: Db, d: Call, t: Id)
    requires PackSound(p) && Inv(p, db) && Sound(p, db, d) && t in db.tasks && JustApproved(db, Step(p, db, d), t)
    ensures !Terminal(db.tasks[t].state)
  {
    StepKeeps(p, db, d);
    assert TaskOnward(db.tasks[t], Step(p, db, d).tasks[t]);
  }

  /**
   In every later state an approved proposal was decided by policy or by somebody else than whoever proposed
   it, when its workflow asks for independence, and after an earlier entry in which the party printed in the
   payload submitted accepted it, when it names one.
   */
  lemma ApprovedAsProposed(p: Pack, earlier: seq<Call>, c: Call, later: seq<Call>)
    requires ProposedIn(p, earlier, c, later)
    requires
      var db := Run(p, Step(p, Run(p, Blank(), earlier), c), later);
      c.act.taskId in db.tasks && db.tasks[c.act.taskId].state.Approved?
    ensures c.act.name in p.workflows
    ensures
      var filed := Step(p, Run(p, Blank(), earlier), c);
      var db, t, wf := Run(p, filed, later), c.act.taskId, p.workflows[c.act.name];
      var party := NamedParty(p, wf, c.act.req.payload);
      && filed.log != []
      && (wf.independence ==> db.tasks[t].decidedBy == "policy" || db.tasks[t].decidedBy != c.act.who.sub)
      && (wf.counterpartyField.Some? && party != "$txid" ==> AcceptedFirst(db.log, t, party))
      && (wf.counterpartyField.Some? && party == "$txid" ==> AcceptedFirst(db.log, t, Latest(filed).digest))
  {
    ProposedFacts(p, earlier, c, later);
    var db := Run(p, Step(p, Run(p, Blank(), earlier), c), later);
    TaskKnown(p, db, c.act.taskId);
  }
}
