/**
 The register as a transactional state machine: every action plans a write set against the state and
 commits it whole. What every reachable state satisfies, and what no step ever takes back.
 */
module Runs {
  import opened Outcomes
  import opened Tables
  import opened Packs
  import opened RecordBuild
  import opened RecordInvariant
  import opened RecordSafety
  import opened Batch
  import opened History
  import opened Workflows
  import opened WorkflowSafety
  import opened Approval
  import opened Membership
  import opened MembershipSafety
  import R = RetentionPolicy

  // ---- actions ---------------------------------------------------------------------------

  datatype Act =
    | Seed(cls: string, payload: Payload, status: string, m: Minted)
    | Propose(who: Principal, name: string, req: Request, taskId: Id, minted: Key)
    | Respond(who: Principal, taskId: Id, accept: bool)
    | Decide(who: Principal, taskId: Id, approve: bool, supply: seq<Minted>)
    | PolicyApproval(taskId: Id, supply: seq<Minted>)
    | Withdraw(who: Principal, taskId: Id)
    | Prune(who: Principal, policyId: string, objectId: Id, rows: seq<(Id, nat)>)
    | Erase(who: Principal, objectId: Id, policyId: string)
    | Grant(actor: Option<Principal>, sub: string, role: string)
    | Revoke(who: Principal, sub: string, role: string)
    | Invite(actor: Option<Principal>, role: string, validFor: int, recipient: Option<Payload>, id: Id, secret: string, minted: Key)
    | WithdrawInvitation(who: Principal, id: Id)
    | Redeem(sub: string, id: Id, secret: string)
    | Remind(id: Id)
    | Expire(id: Id)
    | SeeIdentity(sub: string, email: string, name: string, minted: Key)
    | EraseProfile(who: Principal, sub: string, reason: string)

  /** An action, when it is taken, whether a customer key is enrolled then, and what it says for itself. */
  datatype Call = Call(act: Act, at: int, recover: bool, message: string)

  function CtxOf(c: Call): WriteCtx {
    WriteCtx(c.at, c.recover, map[])
  }

  /** The deployer acts for itself; anybody else needs the permission to manage members. */
  function ManagerOf(actor: Option<Principal>): Result<string, Refusal> {
    if actor.None? then Ok("configure")
    else if Can(actor.value, PERM_MEMBERS) then Ok(actor.value.sub)
    else Err(Refused("permission"))
  }

  function SeedDrafts(p: Pack, a: Act): Result<seq<Draft>, Refusal>
    requires a.Seed?
  {
    var c :- ClassOf(p, a.cls);
    var d :- CreateDraft(c, a.payload, a.status, a.m);
    Ok([d])
  }

  function PlanPrune(p: Pack, a: Act, message: string, at: int): Result<Planned, Refusal>
    requires a.Prune?
  {
    if !Can(a.who, PERM_RETENTION) then Err(Refused("permission"))
    else if a.policyId !in p.policies then Err(Refused("policy"))
    else if p.policies[a.policyId].cls !in p.classes then Err(Refused("class"))
    else if a.rows == [] then Err(Refused("nothing to prune"))
    else
      Ok(Planned(
        Envelope(RetentionPrune, a.who.sub, at, a.objectId, message),
        R.PruneOps(p.policies[a.policyId], at, a.rows, 0)))
  }

  /** What an action would commit in a state. */
  ghost function Plan(p: Pack, db: Db, c: Call): Result<Planned, Refusal> {
    match c.act
    case Seed(cls, payload, status, m) =>
      var drafts :- SeedDrafts(p, c.act);
      var ops :- BuildAll(p, db, CtxOf(c), drafts);
      Ok(Planned(Envelope(RecordCreate, "seed", c.at, m.objectId, c.message), ops))
    case Propose(who, name, req, taskId, minted) =>
      PlanProposal(p, db, who, name, req, taskId, minted, CtxOf(c))
    case Respond(who, taskId, accept) => PlanAnswer(p, db, who, taskId, accept, c.message, c.at)
    case Decide(who, taskId, approve, supply) => PlanDecision(p, db, who, taskId, approve, supply, c.message, CtxOf(c))
    case PolicyApproval(taskId, supply) => PlanPolicyApproval(p, db, taskId, supply, c.message, CtxOf(c))
    case Withdraw(who, taskId) => PlanWithdrawal(db, who, taskId, c.message, c.at)
    case Prune(_, _, _, _) => PlanPrune(p, c.act, c.message, c.at)
    case Erase(who, o, policyId) =>
      if !Can(who, PERM_ERASURE) then Err(Refused("permission"))
      else
        var ops :- R.PlanErasure(p, db, o, policyId, c.at);
        Ok(Planned(Envelope(Erasure, who.sub, c.at, o, c.message), ops))
    case Grant(actor, sub, role) =>
      var author :- ManagerOf(actor);
      if sub == "" then Err(Refused("subject"))
      else PlanGrant(p, db, MemberGrant, author, sub, role, c.message, c.at, [])
    case Revoke(who, sub, role) => PlanRevoke(p, db, who, sub, role, c.message, c.at)
    case Invite(actor, role, validFor, recipient, id, secret, minted) =>
      var author :- ManagerOf(actor);
      PlanInvite(p, db, author, role, validFor, recipient, id, secret, minted, c.message, CtxOf(c))
    case WithdrawInvitation(who, id) => PlanInviteRevoke(db, who, id, c.message, c.at)
    case Redeem(sub, id, secret) => PlanRedeem(p, db, sub, id, secret, c.message, c.at)
    case Remind(id) => Ok(PlanRemind(id, c.message, c.at))
    case Expire(id) => PlanExpire(db, id, c.message, c.at)
    case SeeIdentity(sub, email, name, minted) => PlanSeeIdentity(db, sub, email, name, minted, c.message, CtxOf(c))
    case EraseProfile(who, sub, reason) => PlanEraseProfile(db, who, sub, reason, c.at)
  }

  /** One call: a refused plan or a refused commit leaves the state as it was. */
  ghost function Step(p: Pack, db: Db, c: Call): Db {
    var plan := Plan(p, db, c);
    if plan.Err? then db
    else
      var done := Commit(db, TxOf(p, plan.value));
      if done.Err? then db else done.value
  }

  ghost function Run(p: Pack, db: Db, calls: seq<Call>): Db
    decreases |calls|
  {
    if calls == [] then db else Run(p, Step(p, db, calls[0]), calls[1..])
  }

  // ---- the invariant ---------------------------------------------------------------------------

  ghost predicate RecordSide(p: Pack, db: Db) {
    && RecordsOk(p, db.rec, db.deks)
    && R.MarksOk(p, db.rec)
    && R.MarksLogged(db.rec.marks, db.log)
  }

  ghost predicate PeopleSide(p: Pack, db: Db) {
    && MembersOk(p, db.people.members)
    && SealsOk(db.people, db.deks)
    && SpendsOk(db.people.invites, db.log)
  }

  ghost predicate Inv(p: Pack, db: Db) {
    RecordSide(p, db) && TasksOk(p, db) && PeopleSide(p, db)
  }

  /** The order no step goes against. */
  ghost predicate Later(a: Db, b: Db) {
    && RecordsOnward(a.rec, a.deks, b.rec, b.deks)
    && TasksOnward(a.tasks, b.tasks)
    && InvitesOnward(a.people.invites, b.people.invites)
    && a.log <= b.log
  }

  /** The same, with somebody left to administer. */
  ghost predicate Onward(p: Pack, a: Db, b: Db) {
    Later(a, b) && (Administrators(p, a.people.members) != {} ==> Administrators(p, b.people.members) != {})
  }

  /** No declared name that rows store and nothing checks is the placeholder. */
  ghost predicate NamesSound(p: Pack) {
    PLACEHOLDER !in p.policies && forall name :: name in p.classes ==> PLACEHOLDER !in p.classes[name].statuses
  }

  ghost predicate PackSound(p: Pack) {
    PackOk(p) && RolesSound(p) && NamesSound(p)
  }

  // ---- what a caller must see to -------------------------------------------------------------------

  /** The record changes an approval would make, when it would make any. */
  ghost function ApprovalDrafts(p: Pack, db: Db, who: Principal, taskId: Id, supply: seq<Minted>, w: WriteCtx): seq<Draft> {
    if taskId !in db.tasks || db.tasks[taskId].workflow !in p.workflows then []
    else
      var t := db.tasks[taskId];
      var seen := OpenProposal(db.deks, true, taskId, t.payload);
      if seen.Err? then []
      else
        var s := Effects(p, db, who, p.workflows[t.workflow], taskId, t, seen.value.payload, supply, w);
        if s.Err? then [] else s.value.drafts
  }

  /** Everybody whose name an action puts into a row. */
  function Persons(a: Act): set<string> {
    match a
    case Propose(who, _, _, _, _) => {who.sub}
    case Decide(who, _, _, _) => {who.sub}
    case Withdraw(who, _) => {who.sub}
    case Grant(actor, sub, _) => {sub} + (if actor.Some? then {actor.value.sub} else {})
    case Invite(actor, _, _, _, _, _, _) => if actor.Some? then {actor.value.sub} else {}
    case Redeem(sub, _, _) => {sub}
    case SeeIdentity(sub, _, _, _) => {sub}
    case EraseProfile(_, sub, _) => {sub}
    case _ => {}
  }

  /**
   What the register relies on and does not check: identifiers it mints are new, the changes of one
   write set address distinct objects, mint a key once and have natural keys, a page of prunes answers
   the query, nobody is called by the placeholder, and the clock is past zero.
   */
  ghost predicate Sound(p: Pack, db: Db, c: Call) {
    && c.at > 0 && PLACEHOLDER !in Persons(c.act)
    && match c.act
       case Seed(_, _, _, m) =>
         m.objectId !in db.rec.objects
         && (SeedDrafts(p, c.act).Ok? ==> SoundDrafts(p, db, SeedDrafts(p, c.act).value))
       case Propose(_, _, _, taskId, _) => taskId !in db.tasks
       case Decide(who, taskId, approve, supply) =>
         approve ==> FreshIds(db, supply) && SoundDrafts(p, db, ApprovalDrafts(p, db, who, taskId, supply, CtxOf(c)))
       case PolicyApproval(taskId, supply) =>
         FreshIds(db, supply)
         && SoundDrafts(p, db, ApprovalDrafts(p, db, PolicyPrincipal(), taskId, supply, CtxOf(c)))
       case Prune(_, policyId, objectId, rows) =>
         policyId in p.policies ==> R.IsPage(db.rec, p.policies[policyId], c.at, objectId, rows)
       case Invite(_, _, _, _, id, _, _) => id !in db.people.invites
       case _ => true
  }

  /** A transaction under the id its envelope and its write set have. */
  predicate Genuine(p: Pack, tx: TxId) {
    tx == TxOf(p, Planned(tx.env, tx.ops))
  }

  // ---- parts of a step -------------------------------------------------------------------------------

  /** A state with one more entry in its log. */
  function Logged(db: Db, tx: TxId): Db {
    db.(log := db.log + [tx])
  }

  predicate SpendsNothing(ops: seq<Op>) {
    forall op :: op in ops ==> !(op.Ppl? && op.p.SpendInvite?)
  }

  lemma NoSpends(tx: TxId)
    requires SpendsNothing(tx.ops)
    ensures forall id, sub :: !Spends(tx, id, sub)
  {
  }

  /** The log grows by an entry that touches no person. */
  lemma PeopleAlone(p: Pack, db: Db, now: Db, tx: TxId)
    requires PeopleSide(p, db) && now.people == db.people && now.log == db.log + [tx] && SpendsNothing(tx.ops)
    requires forall s: Scope :: s.InviteKey? || s.PersonKey? ==> SameKeyAt(db.deks, now.deks, s)
    ensures PeopleSide(p, now)
  {
    NoSpends(tx);
    SealsAlone(db.people, db.deks, now.people, now.deks);
    SpendsAlone(db.people.invites, now.people.invites, db.log, tx);
  }

  lemma MarksStayLogged(marks: map<(TxId, nat), Mark>, log: seq<TxId>, tx: TxId)
    requires R.MarksLogged(marks, log)
    ensures R.MarksLogged(marks, log + [tx])
  {
  }

  lemma OnwardParts(p: Pack, db: Db, now: Db, tx: TxId)
    requires RecordsOnward(db.rec, db.deks, now.rec, now.deks) && TasksOnward(db.tasks, now.tasks)
    requires now.people == db.people && now.log == db.log + [tx]
    ensures Onward(p, db, now)
  {
  }

  /** Committing this plan keeps the invariant and takes nothing back. */
  ghost predicate Kept(p: Pack, db: Db, plan: Planned) {
    var tx := TxOf(p, plan);
    var landed := Apply(db, tx, plan.ops);
    tx !in db.log && landed.Some? ==> Inv(p, Logged(landed.value, tx)) && Onward(p, db, Logged(landed.value, tx))
  }

  /** One key that protects no record changed, and nothing else of the record tables did. */
  lemma KeyStep(p: Pack, db: Db, now: Db, tx: TxId, s: Scope)
    requires RecordSide(p, db) && now.rec == db.rec && now.log == db.log + [tx]
    requires AgreeBut(db.deks, now.deks, s) && !ForRecords(s)
    requires s in now.deks ==> DekOk(s, now.deks[s])
    requires s in db.deks ==> s in now.deks && DekOnward(db.deks[s], now.deks[s])
    ensures RecordSide(p, now) && RecordsOnward(db.rec, db.deks, now.rec, now.deks)
  {
    ButAt(db.deks, now.deks, s);
    RecordsOffKey(p, db.rec, db.deks, now.deks, s);
    MarksStayLogged(db.rec.marks, db.log, tx);
    forall t | t in db.deks
      ensures t in now.deks && DekOnward(db.deks[t], now.deks[t])
    {
    }
  }

  lemma ButAt(deks: map<Scope, Dek>, now: map<Scope, Dek>, s: Scope)
    requires AgreeBut(deks, now, s)
    ensures forall t :: t != s ==> (t in now <==> t in deks) && (t in deks ==> now[t] == deks[t])
    ensures AgreeOff(deks, now, s) && now.Keys <= deks.Keys + {s}
  {
    forall t | t != s
      ensures (t in now <==> t in deks) && (t in deks ==> now[t] == deks[t])
    {
      assert SameKeyAt(deks, now, t);
    }
  }

  lemma ButTaskKeys(deks: map<Scope, Dek>, now: map<Scope, Dek>, s: Scope)
    requires AgreeBut(deks, now, s)
    ensures !s.TaskKey? ==> TaskKeysSame(deks, now)
    ensures s.TaskKey? ==> forall t: Scope :: t.InviteKey? || t.PersonKey? ==> SameKeyAt(deks, now, t)
  {
    ButAt(deks, now, s);
  }

  lemma TasksSelf(tasks: map<Id, TaskRow>)
    ensures TasksOnward(tasks, tasks)
  {
  }

  lemma InvitesSelf(invites: map<Id, InviteRow>)
    ensures InvitesOnward(invites, invites)
  {
  }

  // ---- record changes --------------------------------------------------------------------------------

  lemma BatchStep(p: Pack, db: Db, mid: Db, tx: TxId, drafts: seq<Draft>)
    requires Inv(p, db) && BatchLanded(p, db, mid, drafts) && PlainOps(tx.ops)
    ensures Inv(p, Logged(mid, tx)) && Onward(p, db, Logged(mid, tx))
  {
    var now := Logged(mid, tx);
    MarksStayLogged(db.rec.marks, db.log, tx);
    TasksAlone(p, db, now, tx);
    PeopleAlone(p, db, now, tx);
    OnwardParts(p, db, now, tx);
  }

  lemma SeedKeeps(p: Pack, db: Db, a: Act, w: WriteCtx, plan: Planned)
    requires PackSound(p) && Inv(p, db) && a.Seed? && w.pending == map[]
    requires SeedDrafts(p, a).Ok? && a.m.objectId !in db.rec.objects && SoundDrafts(p, db, SeedDrafts(p, a).value)
    requires BuildAll(p, db, w, SeedDrafts(p, a).value) == Ok(plan.ops)
    ensures Kept(p, db, plan)
  {
    var tx := TxOf(p, plan);
    var drafts := SeedDrafts(p, a).value;
    CreateProper(p, db, p.classes[a.cls], a.payload, a.status, a.m);
    if Apply(db, tx, plan.ops).Some? {
      SoundBatchLands(p, db, tx, w, drafts);
      BatchPlain(p, db, w, drafts);
      BatchStep(p, db, Apply(db, tx, plan.ops).value, tx, drafts);
    }
  }

  lemma PruneKeeps(p: Pack, db: Db, a: Act, message: string, at: int, plan: Planned)
    requires PackSound(p) && Inv(p, db) && a.Prune?
    requires PlanPrune(p, a, message, at) == Ok(plan)
    requires R.IsPage(db.rec, p.policies[a.policyId], at, a.objectId, a.rows)
    ensures Kept(p, db, plan)
  {
    var tx, policy := TxOf(p, plan), p.policies[a.policyId];
    if tx !in db.log {
      assert R.MarksBelow(db.rec.marks, tx, 0);
      R.PageLands(p, db, tx, policy, at, a.objectId, a.rows, 0);
      PruneOpsPlain(policy, at, a.rows, 0);
      PageStep(p, db, Apply(db, tx, plan.ops).value, tx, policy, a.rows);
    }
  }

  lemma PageStep(p: Pack, db: Db, mid: Db, tx: TxId, policy: Policy, rows: seq<(Id, nat)>)
    requires Inv(p, db) && R.PageLanded(p, db, mid, tx, policy, rows) && PlainOps(tx.ops)
    ensures Inv(p, Logged(mid, tx)) && Onward(p, db, Logged(mid, tx))
  {
    var now := Logged(mid, tx);
    PrunedLogged(db.rec.marks, now.rec.marks, db.log, tx);
    TasksAlone(p, db, now, tx);
    PeopleAlone(p, db, now, tx);
    OnwardParts(p, db, now, tx);
  }

  lemma PrunedLogged(marks: map<(TxId, nat), Mark>, now: map<(TxId, nat), Mark>, log: seq<TxId>, tx: TxId)
    requires R.MarksLogged(marks, log) && R.MarksTagged(marks, now, tx)
    ensures R.MarksLogged(now, log + [tx])
  {
  }

  lemma {:induction false} PruneOpsPlain(policy: Policy, at: int, rows: seq<(Id, nat)>, i: nat)
    ensures PlainOps(R.PruneOps(policy, at, rows, i))
    decreases |rows|
  {
    if rows != [] {
      PruneOpsPlain(policy, at, rows[1..], i + 1);
    }
  }

  /** An erasure has landed. */
  ghost predicate ErasureLanded(p: Pack, db: Db, mid: Db, tx: TxId, o: Id) {
    && mid == db.(rec := mid.rec, deks := mid.deks)
    && RecordsOk(p, mid.rec, mid.deks) && R.MarksOk(p, mid.rec)
    && R.MarksTagged(db.rec.marks, mid.rec.marks, tx)
    && RecordsOnward(db.rec, db.deks, mid.rec, mid.deks)
    && AgreeBut(db.deks, mid.deks, SubjectKey(o))
  }

  lemma ErasureTags(p: Pack, db: Db, tx: TxId, o: Id, policyId: string, at: int)
    requires R.PlanErasure(p, db, o, policyId, at).Ok?
    ensures
      var mid := R.ErasedDb(db, tx, o, policyId, at);
      && mid == db.(rec := mid.rec, deks := mid.deks)
      && R.MarksTagged(db.rec.marks, mid.rec.marks, tx) && AgreeBut(db.deks, mid.deks, SubjectKey(o))
  {
  }

  lemma ErasureMid(p: Pack, db: Db, tx: TxId, o: Id, policyId: string, at: int)
    requires RecordsOk(p, db.rec, db.deks) && R.MarksOk(p, db.rec) && at > 0 && (tx, 0) !in db.rec.marks
    requires R.PlanErasure(p, db, o, policyId, at).Ok? && ObjectOk(p, db.rec, db.deks, o)
    ensures ErasureLanded(p, db, R.ErasedDb(db, tx, o, policyId, at), tx, o)
  {
    R.ErasureKeeps(p, db, tx, o, policyId, at);
    R.ErasureOnward(p, db, tx, o, policyId, at);
    R.ErasureKeepsMarks(p, db, tx, o, policyId, at);
    ErasureTags(p, db, tx, o, policyId, at);
  }

  lemma EraseStep(p: Pack, db: Db, mid: Db, tx: TxId, o: Id)
    requires Inv(p, db) && ErasureLanded(p, db, mid, tx, o)
    requires MovesNothing(tx.ops) && SpendsNothing(tx.ops)
    ensures Inv(p, Logged(mid, tx)) && Onward(p, db, Logged(mid, tx))
  {
    var now := Logged(mid, tx);
    PrunedLogged(db.rec.marks, now.rec.marks, db.log, tx);
    ButTaskKeys(db.deks, now.deks, SubjectKey(o));
    ButAt(db.deks, now.deks, SubjectKey(o));
    TasksAlone(p, db, now, tx);
    PeopleAlone(p, db, now, tx);
    OnwardParts(p, db, now, tx);
  }

  lemma ErasePlain(p: Pack, db: Db, o: Id, policyId: string, at: int)
    requires R.PlanErasure(p, db, o, policyId, at).Ok?
    ensures o in db.rec.objects && policyId in p.policies
    ensures
      var ops := R.PlanErasure(p, db, o, policyId, at).value;
      MovesNothing(ops) && SpendsNothing(ops)
  {
  }

  lemma EraseKeeps(p: Pack, db: Db, o: Id, policyId: string, at: int, plan: Planned)
    requires PackSound(p) && Inv(p, db) && at > 0
    requires R.PlanErasure(p, db, o, policyId, at) == Ok(plan.ops)
    ensures Kept(p, db, plan)
  {
    var tx := TxOf(p, plan);
    ErasePlain(p, db, o, policyId, at);
    if tx !in db.log {
      assert (tx, 0) !in db.rec.marks;
      assert ObjectOk(p, db.rec, db.deks, o);
      R.ErasureLands(p, db, tx, o, policyId, at);
      ErasureMid(p, db, tx, o, policyId, at);
      EraseStep(p, db, R.ErasedDb(db, tx, o, policyId, at), tx, o);
    }
  }

  // ---- tasks --------------------------------------------------------------------------------------------

  lemma ProposalParts(
    p: Pack, db: Db, who: Principal, name: string, req: Request, taskId: Id, minted: Key, w: WriteCtx, plan: Planned)
    returns (task: TaskRow)
    requires PlanProposal(p, db, who, name, req, taskId, minted, w) == Ok(plan)
    ensures name in p.workflows
    ensures
      var sealed := SealProposal(db.deks, w, ProposalPii(p, p.workflows[name]), taskId, req.payload, minted);
      && sealed.Ok? && task.payload == sealed.value.stored
      && plan.ops == sealed.value.mint + [PutTask(taskId, task)]
      && SpendsNothing(plan.ops)
    ensures task.workflow == p.workflows[name].name
    ensures task.state == if p.workflows[name].counterpartyField.Some? then AwaitingCounterparty else AwaitingReview
  {
    task := plan.ops[|plan.ops| - 1].task;
  }

  lemma ProposeKeeps(
    p: Pack, db: Db, who: Principal, name: string, req: Request, taskId: Id, minted: Key, w: WriteCtx, plan: Planned)
    requires PackSound(p) && Inv(p, db) && taskId !in db.tasks
    requires PlanProposal(p, db, who, name, req, taskId, minted, w) == Ok(plan)
    ensures Kept(p, db, plan)
  {
    var task := ProposalParts(p, db, who, name, req, taskId, minted, w, plan);
    var tx := TxOf(p, plan);
    ProposalLands(db, tx, w, ProposalPii(p, p.workflows[name]), taskId, req.payload, minted, task);
    var now := Logged(Apply(db, tx, plan.ops).value, tx);
    ProposalKeeps(p, db, now, tx, taskId, FillTask(tx.digest, task));
    ProposeStep(p, db, now, tx, taskId);
  }

  lemma ProposeStep(p: Pack, db: Db, now: Db, tx: TxId, taskId: Id)
    requires RecordSide(p, db) && PeopleSide(p, db) && TasksOk(p, now) && TasksOnward(db.tasks, now.tasks)
    requires now.rec == db.rec && now.people == db.people && now.log == db.log + [tx]
    requires AgreeOff(db.deks, now.deks, TaskKey(taskId)) && DeksExtend(db.deks, now.deks)
    requires now.deks.Keys <= db.deks.Keys + {TaskKey(taskId)}
    requires TaskKey(taskId) in now.deks ==> DekOk(TaskKey(taskId), now.deks[TaskKey(taskId)])
    requires SpendsNothing(tx.ops)
    ensures Inv(p, now) && Onward(p, db, now)
  {
    assert AgreeBut(db.deks, now.deks, TaskKey(taskId));
    KeyStep(p, db, now, tx, TaskKey(taskId));
    ButTaskKeys(db.deks, now.deks, TaskKey(taskId));
    PeopleAlone(p, db, now, tx);
    OnwardParts(p, db, now, tx);
  }

  /** What a move without record changes does to the keys. */
  lemma MoveKeys(deks: map<Scope, Dek>, taskId: Id, at: int, close: seq<Op>)
    requires DeksOk(deks) && at > 0 && (close == [] || close == CloseProposal(deks, taskId, at))
    ensures
      var now := if close == [] then deks else Closed(deks, taskId, at);
      var s := TaskKey(taskId);
      && AgreeBut(deks, now, s) && AgreeOff(deks, now, s) && now.Keys == deks.Keys
      && (s in now ==> DekOk(s, now[s]) && DekOnward(deks[s], now[s]))
      && (s in deks ==> now[s] == deks[s] || !now[s].Live())
      && (close == CloseProposal(deks, taskId, at) && s in now ==> !now[s].Live())
  {
    ClosedOk(deks, taskId, at);
  }

  function MovedDb(db: Db, taskId: Id, c: TaskChange, close: seq<Op>): Db
    requires taskId in db.tasks
  {
    db.(tasks := db.tasks[taskId := Moved(db.tasks[taskId], c)],
        deks := if close == [] then db.deks else Closed(db.deks, taskId, c.at))
  }

  lemma MoveMid(p: Pack, db: Db, tx: TxId, taskId: Id, c: TaskChange, close: seq<Op>)
    requires TasksOk(p, db) && DeksOk(db.deks) && taskId in db.tasks && c.at > 0 && MovesOne(tx.ops, taskId, c)
    requires close == [] || close == CloseProposal(db.deks, taskId, c.at)
    requires db.tasks[taskId].workflow in p.workflows && MoveJustified(p, db.tasks[taskId], tx, taskId, c)
    requires if Terminal(c.state) then close == CloseProposal(db.deks, taskId, c.at) else close == []
    ensures
      var now := Logged(MovedDb(db, taskId, c, close), tx);
      TasksOk(p, now) && TasksOnward(db.tasks, now.tasks)
  {
    MoveKeys(db.deks, taskId, c.at, close);
    MoveKeeps(p, db, Logged(MovedDb(db, taskId, c, close), tx), tx, taskId, c);
  }

  lemma MoveAll(p: Pack, db: Db, tx: TxId, taskId: Id, c: TaskChange, close: seq<Op>)
    requires Inv(p, db) && taskId in db.tasks && c.at > 0 && MovesOne(tx.ops, taskId, c) && SpendsNothing(tx.ops)
    requires close == [] || close == CloseProposal(db.deks, taskId, c.at)
    requires db.tasks[taskId].workflow in p.workflows && MoveJustified(p, db.tasks[taskId], tx, taskId, c)
    requires if Terminal(c.state) then close == CloseProposal(db.deks, taskId, c.at) else close == []
    ensures
      var now := Logged(MovedDb(db, taskId, c, close), tx);
      Inv(p, now) && Onward(p, db, now)
  {
    MoveMid(p, db, tx, taskId, c, close);
    MoveKeys(db.deks, taskId, c.at, close);
    MoveRest(p, db, Logged(MovedDb(db, taskId, c, close), tx), tx, taskId);
  }

  /** The moves that change no record. */
  lemma MoveStep(p: Pack, db: Db, tx: TxId, taskId: Id, c: TaskChange, close: seq<Op>)
    requires Genuine(p, tx) && Signed(c)
    requires Inv(p, db) && taskId in db.tasks && c.at > 0
    requires tx.ops == [MoveTask(taskId, c)] + close && (close == [] || close == CloseProposal(db.deks, taskId, c.at))
    requires db.tasks[taskId].workflow in p.workflows && MoveJustified(p, db.tasks[taskId], tx, taskId, c)
    requires if Terminal(c.state) then close == CloseProposal(db.deks, taskId, c.at) else close == []
    ensures Kept(p, db, Planned(tx.env, tx.ops))
  {
    MoveLands(db, tx, db.deks, taskId, c, close);
    assert Apply(db, tx, tx.ops) == Some(MovedDb(db, taskId, c, close));
    MoveAll(p, db, tx, taskId, c, close);
  }

  lemma MoveRest(p: Pack, db: Db, now: Db, tx: TxId, taskId: Id)
    requires RecordSide(p, db) && PeopleSide(p, db) && TasksOk(p, now) && TasksOnward(db.tasks, now.tasks)
    requires now.rec == db.rec && now.people == db.people && now.log == db.log + [tx]
    requires AgreeBut(db.deks, now.deks, TaskKey(taskId))
    requires TaskKey(taskId) in now.deks ==> DekOk(TaskKey(taskId), now.deks[TaskKey(taskId)])
    requires TaskKey(taskId) in db.deks ==>
      TaskKey(taskId) in now.deks && DekOnward(db.deks[TaskKey(taskId)], now.deks[TaskKey(taskId)])
    requires SpendsNothing(tx.ops)
    ensures Inv(p, now) && Onward(p, db, now)
  {
    KeyStep(p, db, now, tx, TaskKey(taskId));
    ButTaskKeys(db.deks, now.deks, TaskKey(taskId));
    PeopleAlone(p, db, now, tx);
    OnwardParts(p, db, now, tx);
  }

  lemma TaskKnown(p: Pack, db: Db, taskId: Id)
    requires TasksOk(p, db) && taskId in db.tasks
    ensures TaskOk(p, db.deks, db.log, taskId, db.tasks[taskId])
  {
  }

  lemma AcceptKeeps(p: Pack, db: Db, tx: TxId, taskId: Id, at: int)
    requires Genuine(p, tx)
    requires Inv(p, db) && at > 0 && taskId in db.tasks && db.tasks[taskId].state.AwaitingCounterparty?
    requires db.tasks[taskId].workflow in p.workflows
    requires tx.env.kind.TaskAccept? && tx.env.author == db.tasks[taskId].counterparty
    requires tx.ops == [MoveTask(taskId, TaskChange(AwaitingReview, at, Some(Accepted), None, None))]
    ensures Kept(p, db, Planned(tx.env, tx.ops))
  {
    var c := TaskChange(AwaitingReview, at, Some(Accepted), None, None);
    assert tx.ops[0] == MoveTask(taskId, c) && AcceptsAs(tx, taskId, tx.env.author);
    assert tx.ops == [MoveTask(taskId, c)] + [];
    MoveStep(p, db, tx, taskId, c, []);
  }

  lemma DeclineKeeps(p: Pack, db: Db, tx: TxId, taskId: Id, at: int)
    requires Genuine(p, tx)
    requires Inv(p, db) && at > 0 && taskId in db.tasks && db.tasks[taskId].state.AwaitingCounterparty?
    requires db.tasks[taskId].workflow in p.workflows
    requires tx.ops ==
      [MoveTask(taskId, TaskChange(Rejected, at, Some(Declined), None, None))] + CloseProposal(db.deks, taskId, at)
    ensures Kept(p, db, Planned(tx.env, tx.ops))
  {
    MoveStep(
      p, db, tx, taskId, TaskChange(Rejected, at, Some(Declined), None, None), CloseProposal(db.deks, taskId, at));
  }

  lemma RespondKeeps(p: Pack, db: Db, who: Principal, taskId: Id, accept: bool, message: string, at: int, plan: Planned)
    requires PackSound(p) && Inv(p, db) && at > 0
    requires PlanAnswer(p, db, who, taskId, accept, message, at) == Ok(plan)
    ensures Kept(p, db, plan)
  {
    var tx := TxOf(p, plan);
    if accept {
      AcceptKeeps(p, db, tx, taskId, at);
    } else {
      DeclineKeeps(p, db, tx, taskId, at);
    }
  }

  lemma WithdrawalKeeps(p: Pack, db: Db, tx: TxId, taskId: Id, sub: string, at: int)
    requires Genuine(p, tx) && sub != PLACEHOLDER
    requires Inv(p, db) && at > 0 && taskId in db.tasks && !Terminal(db.tasks[taskId].state)
    requires tx.ops ==
      [MoveTask(taskId, TaskChange(Withdrawn, at, None, None, Some(sub)))] + CloseProposal(db.deks, taskId, at)
    ensures Kept(p, db, Planned(tx.env, tx.ops))
  {
    TaskKnown(p, db, taskId);
    MoveStep(p, db, tx, taskId, TaskChange(Withdrawn, at, None, None, Some(sub)), CloseProposal(db.deks, taskId, at));
  }

  lemma WithdrawKeeps(p: Pack, db: Db, who: Principal, taskId: Id, message: string, at: int, plan: Planned)
    requires who.sub != PLACEHOLDER
    requires PackSound(p) && Inv(p, db) && at > 0
    requires PlanWithdrawal(db, who, taskId, message, at) == Ok(plan)
    ensures Kept(p, db, plan)
  {
    WithdrawalKeeps(p, db, TxOf(p, plan), taskId, who.sub, at);
  }

  lemma RejectKeeps(p: Pack, db: Db, who: Principal, taskId: Id, at: int, plan: Planned)
    requires who.sub != PLACEHOLDER
    requires PackSound(p) && Inv(p, db) && at > 0 && taskId in db.tasks && db.tasks[taskId].state.AwaitingReview?
    requires plan.ops == RejectOps(db, taskId, who, at)
    ensures Kept(p, db, plan)
  {
    TaskKnown(p, db, taskId);
    MoveStep(
      p, db, TxOf(p, plan), taskId, TaskChange(Rejected, at, None, None, Some(who.sub)),
      CloseProposal(db.deks, taskId, at));
  }

  // ---- approvals ---------------------------------------------------------------------------------------

  lemma ApprovedTasks(p: Pack, db: Db, mid: Db, tx: TxId, taskId: Id, c: TaskChange, drafts: seq<Draft>)
    requires TasksOk(p, db) && taskId in db.tasks && ApprovalLanded(p, db, mid, taskId, c, drafts)
    requires MovesOne(tx.ops, taskId, c) && c.state.Approved?
    requires db.tasks[taskId].workflow in p.workflows && MoveJustified(p, db.tasks[taskId], tx, taskId, c)
    ensures TasksOk(p, Logged(mid, tx)) && TasksOnward(db.tasks, mid.tasks)
  {
    OthersSame(db.deks, mid.deks, TaskKey(taskId));
    OtherTaskKeysSame(db.deks, mid.deks, taskId);
    MoveKeeps(p, db, Logged(mid, tx), tx, taskId, c);
  }

  lemma OtherTaskKeysSame(deks: map<Scope, Dek>, now: map<Scope, Dek>, taskId: Id)
    requires forall t :: !ForRecords(t) && t != TaskKey(taskId) ==> SameKeyAt(deks, now, t)
    ensures TaskKeysBut(deks, now, taskId)
  {
    forall s: Scope | s.TaskKey? && s != TaskKey(taskId)
      ensures (s in now <==> s in deks) && (s in deks ==> now[s] == deks[s])
    {
      assert SameKeyAt(deks, now, s);
    }
  }

  /** Off the records, only one key changed. */
  lemma OthersSame(deks: map<Scope, Dek>, now: map<Scope, Dek>, s: Scope)
    requires AgreeOff(OthersOf(deks), OthersOf(now), s) && OthersOf(now).Keys == OthersOf(deks).Keys && !ForRecords(s)
    ensures s in deks <==> s in now
    ensures forall t :: !ForRecords(t) && t != s ==> SameKeyAt(deks, now, t)
  {
    forall t | !ForRecords(t)
      ensures t in deks <==> t in now
      ensures t != s ==> SameKeyAt(deks, now, t)
    {
      assert t in OthersOf(deks) <==> t in OthersOf(now);
      assert t in deks ==> t in OthersOf(deks) && OthersOf(deks)[t] == deks[t];
      assert t in now ==> t in OthersOf(now) && OthersOf(now)[t] == now[t];
    }
  }

  lemma ApprovalPeople(p: Pack, db: Db, mid: Db, tx: TxId, s: Scope)
    requires PeopleSide(p, db) && mid.people == db.people && mid.log == db.log && SpendsNothing(tx.ops)
    requires AgreeOff(OthersOf(db.deks), OthersOf(mid.deks), s) && OthersOf(mid.deks).Keys == OthersOf(db.deks).Keys
    requires s.TaskKey?
    ensures PeopleSide(p, Logged(mid, tx))
  {
    OthersSame(db.deks, mid.deks, s);
    PeopleAlone(p, db, Logged(mid, tx), tx);
  }

  lemma ApprovalStep(p: Pack, db: Db, mid: Db, tx: TxId, taskId: Id, c: TaskChange, drafts: seq<Draft>)
    requires RecordSide(p, db) && PeopleSide(p, db)
    requires taskId in db.tasks && ApprovalLanded(p, db, mid, taskId, c, drafts)
    requires TasksOk(p, Logged(mid, tx)) && TasksOnward(db.tasks, mid.tasks) && SpendsNothing(tx.ops)
    ensures Inv(p, Logged(mid, tx)) && Onward(p, db, Logged(mid, tx))
  {
    MarksStayLogged(db.rec.marks, db.log, tx);
    ApprovalPeople(p, db, mid, tx, TaskKey(taskId));
    OnwardParts(p, db, Logged(mid, tx), tx);
  }

  /** What `PlanApproval` commits. */
  lemma ApprovalParts(
    p: Pack, db: Db, who: Principal, wf: Workflow, taskId: Id, supply: seq<Minted>, message: string, w: WriteCtx,
    plan: Planned) returns (s: Progress)
    requires taskId in db.tasks && db.tasks[taskId].workflow in p.workflows && p.workflows[db.tasks[taskId].workflow] == wf
    requires PlanApproval(p, db, who, wf, taskId, supply, message, w) == Ok(plan)
    ensures s.drafts == ApprovalDrafts(p, db, who, taskId, supply, w)
    ensures BuildAll(p, db, w, s.drafts).Ok?
    ensures plan.ops ==
      BuildAll(p, db, w, s.drafts).value + ([ApproveMove(taskId, s.objectId, who, w.at)] + CloseProposal(db.deks, taskId, w.at))
    ensures
      var t := db.tasks[taskId];
      var seen := OpenProposal(db.deks, true, taskId, t.payload);
      seen.Ok? && Effects(p, db, who, wf, taskId, t, seen.value.payload, supply, w) == Ok(s)
  {
    var t := db.tasks[taskId];
    var seen := OpenProposal(db.deks, true, taskId, t.payload).value;
    s := Effects(p, db, who, wf, taskId, t, seen.payload, supply, w).value;
  }

  lemma ApproveKeeps(
    p: Pack, db: Db, who: Principal, wf: Workflow, taskId: Id, supply: seq<Minted>, message: string, w: WriteCtx,
    plan: Planned)
    requires who.sub != PLACEHOLDER
    requires PackSound(p) && Inv(p, db) && w.at > 0 && w.pending == map[]
    requires taskId in db.tasks && db.tasks[taskId].workflow in p.workflows && p.workflows[db.tasks[taskId].workflow] == wf
    requires db.tasks[taskId].state.AwaitingReview?
    requires wf.independence ==> who.sub == POLICY || who.sub != db.tasks[taskId].proposer
    requires FreshIds(db, supply) && SoundDrafts(p, db, ApprovalDrafts(p, db, who, taskId, supply, w))
    requires PlanApproval(p, db, who, wf, taskId, supply, message, w) == Ok(plan)
    ensures Kept(p, db, plan)
  {
    var s := ApprovalParts(p, db, who, wf, taskId, supply, message, w, plan);
    ApprovalProper(p, db, who, wf, taskId, supply, w, s);
    ApprovalOps(p, db, w, s.drafts, taskId, s.objectId, who);
    ApproveBatch(p, db, TxOf(p, plan), w, s.drafts, taskId, TaskChange(Approved, w.at, None, Some(s.objectId), Some(who.sub)));
  }

  lemma ApprovalOps(p: Pack, db: Db, w: WriteCtx, drafts: seq<Draft>, taskId: Id, objectId: Id, who: Principal)
    requires BuildAll(p, db, w, drafts).Ok?
    ensures SpendsNothing(
      BuildAll(p, db, w, drafts).value + ([ApproveMove(taskId, objectId, who, w.at)] + CloseProposal(db.deks, taskId, w.at)))
  {
    BatchPlain(p, db, w, drafts);
  }

  lemma ApproveBatch(p: Pack, db: Db, tx: TxId, w: WriteCtx, drafts: seq<Draft>, taskId: Id, c: TaskChange)
    requires Genuine(p, tx) && Signed(c)
    requires Inv(p, db) && c.at == w.at > 0 && w.pending == map[] && c.state.Approved?
    requires taskId in db.tasks && db.tasks[taskId].workflow in p.workflows
    requires MoveJustified(p, db.tasks[taskId], tx, taskId, c)
    requires DraftsProper(p, db, drafts) && SoundDrafts(p, db, drafts) && BuildAll(p, db, w, drafts).Ok?
    requires tx.ops == BuildAll(p, db, w, drafts).value + ([MoveTask(taskId, c)] + CloseProposal(db.deks, taskId, w.at))
    requires SpendsNothing(tx.ops)
    ensures Kept(p, db, Planned(tx.env, tx.ops))
  {
    if Apply(db, tx, tx.ops).Some? {
      ApprovalLands(p, db, tx, w, drafts, taskId, c);
      var mid := Apply(db, tx, tx.ops).value;
      ApprovedTasks(p, db, mid, tx, taskId, c, drafts);
      ApprovalStep(p, db, mid, tx, taskId, c, drafts);
    }
  }

  lemma ApprovalProper(
    p: Pack, db: Db, who: Principal, wf: Workflow, taskId: Id, supply: seq<Minted>, w: WriteCtx, s: Progress)
    requires PackSound(p) && FreshIds(db, supply) && taskId in db.tasks
    requires
      var t := db.tasks[taskId];
      var seen := OpenProposal(db.deks, true, taskId, t.payload);
      seen.Ok? && Effects(p, db, who, wf, taskId, t, seen.value.payload, supply, w) == Ok(s)
    ensures DraftsProper(p, db, s.drafts)
  {
    var t := db.tasks[taskId];
    var payload := OpenProposal(db.deks, true, taskId, t.payload).value.payload;
    var ctx := p.context(db, Subject(who.sub, who.acting, taskId, t.objectId, payload, w.at));
    EffectsProper(p, db, wf, EffectsOf(wf), payload, supply, Progress([], t.objectId, ctx));
  }
}
