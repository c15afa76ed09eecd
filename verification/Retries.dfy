/**
 The retried request: a commit whose envelope and write set are already in the log answers as if it had been
 done and does nothing (`internal/register/register.go`, `commit`). Which actions that can never happen to, and
 what becomes of the others.
 */
module Retries {
  import opened Outcomes
  import opened Tables
  import opened Packs
  import opened RecordBuild
  import opened RecordInvariant
  import opened Batch
  import opened History
  import opened Workflows
  import opened WorkflowSafety
  import opened Membership
  import opened MembershipSafety
  import opened Runs
  import opened PeopleSteps
  import opened RunSafety
  import R = RetentionPolicy

  // ---- what an entry of a write set leaves for good ------------------------------------------

  /** What the entry did can still be seen. */
  predicate Lasts(db: Db, op: Op) {
    match op
    case Rec(PutVersion(o, v, _, _, _, _, _)) => (o, v) in db.rec.versions
    case Rec(PruneVersion(o, v, _)) => (o, v) in db.rec.versions && db.rec.versions[(o, v)].pruned
    case Rec(EraseObject(o, _)) => o in db.rec.objects && db.rec.objects[o].erased
    case DestroyKey(s, at) => at != 0 ==> s in db.deks && !db.deks[s].Live()
    case PutTask(t, _) => t in db.tasks
    case Ppl(PutInvite(id, _)) => id in db.people.invites
    case Ppl(WithdrawInvite(id)) => id in db.people.invites && db.people.invites[id].revoked
    case _ => true
  }

  /** An entry whose mark a later entry of the same write set could take away. */
  predicate Undoable(op: Op) {
    op.DestroyKey? || (op.Rec? && (op.r.PruneVersion? || op.r.EraseObject?)) || (op.Ppl? && op.p.WithdrawInvite?)
  }

  /** An entry that writes a whole row, or ends a key at no time at all, and so could. */
  predicate Overwrites(op: Op) {
    op.MintKey? || (op.DestroyKey? && op.at == 0) || (op.Rec? && (op.r.PutVersion? || op.r.PutObject?)) || (op.Ppl? && op.p.PutInvite?)
  }

  lemma OneLasts(db: Db, tx: TxId, op: Op)
    requires ApplyOne(db, tx, op).Some?
    ensures Lasts(ApplyOne(db, tx, op).value, op)
  {
  }

  lemma RecordStillLasts(db: Db, tx: TxId, op: Op, later: RecordOp)
    requires Lasts(db, op) && ApplyRecord(db.rec, tx, later).Some? && (Undoable(op) ==> !Overwrites(Rec(later)))
    ensures Lasts(db.(rec := ApplyRecord(db.rec, tx, later).value), op)
  {
  }

  lemma StillLasts(db: Db, tx: TxId, op: Op, later: Op)
    requires Lasts(db, op) && ApplyOne(db, tx, later).Some? && (Undoable(op) ==> !Overwrites(later))
    ensures Lasts(ApplyOne(db, tx, later).value, op)
  {
    if later.Rec? {
      RecordStillLasts(db, tx, op, later.r);
    }
  }

  ghost predicate NoneUndoable(ops: seq<Op>) {
    forall op :: op in ops ==> !Undoable(op)
  }

  ghost predicate NoneOverwrites(ops: seq<Op>) {
    forall op :: op in ops ==> !Overwrites(op)
  }

  lemma {:induction false} RestKeeps(db: Db, tx: TxId, op: Op, ops: seq<Op>)
    requires Lasts(db, op) && Apply(db, tx, ops).Some? && (Undoable(op) ==> NoneOverwrites(ops))
    ensures Lasts(Apply(db, tx, ops).value, op)
    decreases |ops|
  {
    if ops != [] {
      StillLasts(db, tx, op, ops[0]);
      RestKeeps(ApplyOne(db, tx, ops[0]).value, tx, op, ops[1..]);
    }
  }

  /** A write set that lands leaves the mark of every entry, when what could take marks away comes first. */
  lemma {:induction false} AllLast(db: Db, tx: TxId, a: seq<Op>, b: seq<Op>, op: Op)
    requires NoneUndoable(a) && NoneOverwrites(b) && Apply(db, tx, a + b).Some? && op in a + b
    ensures Lasts(Apply(db, tx, a + b).value, op)
    decreases |a| + |b|
  {
    var ops := a + b;
    var next := ApplyOne(db, tx, ops[0]).value;
    if op == ops[0] {
      OneLasts(db, tx, op);
      if a != [] {
        assert ops[0] == a[0];
      } else {
        assert ops[1..] == b[1..];
      }
      RestKeeps(next, tx, op, ops[1..]);
    } else if a != [] {
      assert ops[1..] == a[1..] + b;
      AllLast(next, tx, a[1..], b, op);
    } else {
      assert ops == b && ops[1..] == [] + b[1..];
      AllLast(next, tx, [], b[1..], op);
    }
  }

  /** What every entry of every logged write set did can still be seen. */
  ghost predicate LogLasts(db: Db) {
    forall tx, op :: tx in db.log && op in tx.ops ==> Lasts(db, op)
  }

  lemma LaterLasts(a: Db, b: Db, op: Op)
    requires Later(a, b) && Lasts(a, op)
    ensures Lasts(b, op)
  {
    match op
    case Rec(PruneVersion(o, v, _)) => assert VersionOnward(a.rec.versions[(o, v)], b.rec.versions[(o, v)]);
    case Rec(EraseObject(o, _)) => assert ObjectOnward(a.rec.objects[o], b.rec.objects[o]);
    case DestroyKey(s, at) => if at != 0 { assert DekOnward(a.deks[s], b.deks[s]); }
    case Ppl(WithdrawInvite(id)) => assert InviteOnward(a.people.invites[id], b.people.invites[id]);
    case _ =>
  }

  // ---- every plan leaves its marks ---------------------------------------------------------------

  /** The write set in two parts: what could take marks away, then what makes such marks. */
  ghost predicate Parts(ops: seq<Op>, a: seq<Op>, b: seq<Op>) {
    ops == a + b && NoneUndoable(a) && NoneOverwrites(b)
  }

  lemma {:induction false} BatchMild(p: Pack, db: Db, w: WriteCtx, drafts: seq<Draft>)
    requires BuildAll(p, db, w, drafts).Ok?
    ensures NoneUndoable(BuildAll(p, db, w, drafts).value)
    decreases |drafts|
  {
    if drafts != [] {
      BatchMild(p, db, After(w, drafts[0]), drafts[1..]);
      BuiltParts(p, db, w, drafts[0]);
    }
  }

  lemma {:induction false} PruneMild(policy: Policy, at: int, rows: seq<(Id, nat)>, i: nat)
    ensures NoneOverwrites(R.PruneOps(policy, at, rows, i))
    decreases |rows|
  {
    if rows != [] {
      PruneMild(policy, at, rows[1..], i + 1);
    }
  }

  /** No approval writes a record after it has closed the proposal. */
  lemma ApprovalSplits(
    p: Pack, db: Db, who: Principal, wf: Workflow, taskId: Id, supply: seq<Minted>, c: Call, plan: Planned)
    returns (a: seq<Op>, b: seq<Op>)
    requires taskId in db.tasks && db.tasks[taskId].workflow in p.workflows && p.workflows[db.tasks[taskId].workflow] == wf
    requires PlanApproval(p, db, who, wf, taskId, supply, c.message, CtxOf(c)) == Ok(plan) && c.at > 0
    ensures Parts(plan.ops, a, b)
  {
    var s := ApprovalParts(p, db, who, wf, taskId, supply, c.message, CtxOf(c), plan);
    BatchMild(p, db, CtxOf(c), s.drafts);
    a := BuildAll(p, db, CtxOf(c), s.drafts).value;
    b := [ApproveMove(taskId, s.objectId, who, c.at)] + CloseProposal(db.deks, taskId, c.at);
  }

  lemma DecisionSplits(p: Pack, db: Db, c: Call, plan: Planned) returns (a: seq<Op>, b: seq<Op>)
    requires (c.act.Decide? || c.act.PolicyApproval?) && Plan(p, db, c) == Ok(plan) && c.at > 0
    ensures Parts(plan.ops, a, b)
  {
    var t := c.act.taskId;
    if c.act.Decide? && !c.act.approve {
      a, b := [], plan.ops;
    } else {
      var who := if c.act.Decide? then c.act.who else PolicyPrincipal();
      a, b := ApprovalSplits(p, db, who, p.workflows[db.tasks[t].workflow], t, c.act.supply, c, plan);
    }
  }

  /** The actions that only make rows. */
  predicate OnlyMakes(a: Act) {
    a.Seed? || a.Propose? || a.Invite? || a.SeeIdentity?
  }

  lemma SeedMild(p: Pack, db: Db, c: Call, plan: Planned)
    requires Plan(p, db, c) == Ok(plan) && c.act.Seed?
    ensures NoneUndoable(plan.ops)
  {
    BatchMild(p, db, CtxOf(c), SeedDrafts(p, c.act).value);
  }

  lemma MakingMild(p: Pack, db: Db, c: Call, plan: Planned)
    requires Plan(p, db, c) == Ok(plan) && OnlyMakes(c.act)
    ensures NoneUndoable(plan.ops)
  {
    if c.act.Seed? {
      SeedMild(p, db, c, plan);
    }
  }

  lemma PeopleMild(p: Pack, db: Db, c: Call, plan: Planned)
    requires Plan(p, db, c) == Ok(plan) && c.at > 0 && AboutPeople(c.act) && !OnlyMakes(c.act)
    ensures NoneOverwrites(plan.ops)
  {
  }

  lemma OthersMild(p: Pack, db: Db, c: Call, plan: Planned)
    requires Plan(p, db, c) == Ok(plan) && c.at > 0 && !OnlyMakes(c.act) && !c.act.Decide? && !c.act.PolicyApproval?
    ensures NoneOverwrites(plan.ops)
  {
    if AboutPeople(c.act) {
      PeopleMild(p, db, c, plan);
    } else if c.act.Prune? {
      PruneMild(p.policies[c.act.policyId], c.at, c.act.rows, 0);
    }
  }

  lemma PlanSplits(p: Pack, db: Db, c: Call, plan: Planned) returns (a: seq<Op>, b: seq<Op>)
    requires Plan(p, db, c) == Ok(plan) && c.at > 0
    ensures Parts(plan.ops, a, b)
  {
    if OnlyMakes(c.act) {
      MakingMild(p, db, c, plan);
      a, b := plan.ops, [];
    } else if c.act.Decide? || c.act.PolicyApproval? {
      a, b := DecisionSplits(p, db, c, plan);
    } else {
      OthersMild(p, db, c, plan);
      a, b := [], plan.ops;
    }
  }

  lemma StepLasts(p: Pack, db: Db, c: Call)
    requires PackSound(p) && Inv(p, db) && Sound(p, db, c) && LogLasts(db)
    ensures LogLasts(Step(p, db, c))
  {
    var now := Step(p, db, c);
    StepKeeps(p, db, c);
    if now != db {
      var plan := Plan(p, db, c).value;
      var mine := TxOf(p, plan);
      StepIs(p, db, c, plan);
      var a, b := PlanSplits(p, db, c, plan);
      forall tx, op | tx in now.log && op in tx.ops
        ensures Lasts(now, op)
      {
        if tx in db.log {
          LaterLasts(db, now, op);
        } else {
          AllLast(db, mine, a, b, op);
        }
      }
    }
  }

  lemma {:induction false} RunLasts(p: Pack, db: Db, calls: seq<Call>)
    requires PackSound(p) && Inv(p, db) && SoundRun(p, db, calls) && LogLasts(db)
    ensures LogLasts(Run(p, db, calls))
    decreases |calls|
  {
    if calls != [] {
      StepKeeps(p, db, calls[0]);
      StepLasts(p, db, calls[0]);
      RunLasts(p, Step(p, db, calls[0]), calls[1..]);
    }
  }

  // ---- the actions no retry check ever swallows -----------------------------------------------------

  /** The actions that only say what a row shall hold, and so can be said again. */
  predicate Repeatable(a: Act) {
    a.Grant? || a.Revoke? || a.Remind? || a.SeeIdentity?
  }

  /** An entry of the plan whose mark is not there yet. */
  lemma NewByMark(p: Pack, db: Db, plan: Planned, op: Op)
    requires LogLasts(db) && op in plan.ops && !Lasts(db, op)
    ensures TxOf(p, plan) !in db.log
  {
  }

  /** A built change puts the version it is about. */
  lemma PutsVersion(p: Pack, db: Db, w: WriteCtx, d: Draft) returns (put: Op)
    requires BuildRecord(p, db, w, d).Ok?
    ensures put in BuildRecord(p, db, w, d).value && put.Rec? && put.r.PutVersion?
    ensures put.r.objectId == d.objectId && put.r.version == d.version
  {
    BuiltParts(p, db, w, d);
    var e := EnsureFor(db.deks, w, d).value;
    put := HeadOps(p, w, d, e.key)[0];
    assert BuildRecord(p, db, w, d).value[|e.mint|] == put;
  }

  lemma OneBuilt(p: Pack, db: Db, w: WriteCtx, d: Draft)
    requires BuildAll(p, db, w, [d]).Ok?
    ensures BuildRecord(p, db, w, d) == BuildAll(p, db, w, [d])
  {
    assert [d][1..] == [] && BuildAll(p, db, After(w, d), []) == Ok([]);
    assert BuildRecord(p, db, w, d).value + [] == BuildRecord(p, db, w, d).value;
  }

  lemma SeedIsNew(p: Pack, db: Db, c: Call, plan: Planned)
    requires Inv(p, db) && Sound(p, db, c) && LogLasts(db) && c.act.Seed? && Plan(p, db, c) == Ok(plan)
    ensures TxOf(p, plan) !in db.log
  {
    var d := SeedDrafts(p, c.act).value[0];
    assert SeedDrafts(p, c.act).value == [d];
    OneBuilt(p, db, CtxOf(c), d);
    var put := PutsVersion(p, db, CtxOf(c), d);
    NewByMark(p, db, plan, put);
  }

  lemma TaskCallIsNew(p: Pack, db: Db, c: Call, plan: Planned)
    requires Inv(p, db) && Sound(p, db, c) && LogLasts(db) && AboutTasks(c.act) && Plan(p, db, c) == Ok(plan)
    ensures TxOf(p, plan) !in db.log
  {
    var tx, t := TxOf(p, plan), c.act.taskId;
    if c.act.Propose? {
      var put := plan.ops[|plan.ops| - 1];
      assert put in plan.ops && put.PutTask? && put.taskId == t;
      NewByMark(p, db, plan, put);
    } else {
      var move := MoveOf(p, db, c, plan);
      MoveIsNew(p, db, tx, t, move);
    }
  }

  /** The move a decision, an answer or a withdrawal plans. */
  lemma MoveOf(p: Pack, db: Db, c: Call, plan: Planned) returns (move: TaskChange)
    requires Inv(p, db) && AboutTasks(c.act) && !c.act.Propose? && Plan(p, db, c) == Ok(plan)
    ensures c.act.taskId in db.tasks && Moves(TxOf(p, plan), c.act.taskId, move)
    ensures Forward(db.tasks[c.act.taskId].state, move.state)
  {
    if c.act.Respond? || c.act.Withdraw? || (c.act.Decide? && !c.act.approve) {
      move := FirstMove(p, db, c, plan);
    } else {
      var who, wf := if c.act.Decide? then c.act.who else PolicyPrincipal(), p.workflows[db.tasks[c.act.taskId].workflow];
      move := ApprovalMove(p, db, who, wf, c.act.taskId, c.act.supply, c, plan);
    }
  }

  lemma FirstMove(p: Pack, db: Db, c: Call, plan: Planned) returns (move: TaskChange)
    requires TasksOk(p, db) && Plan(p, db, c) == Ok(plan)
    requires c.act.Respond? || c.act.Withdraw? || (c.act.Decide? && !c.act.approve)
    ensures c.act.taskId in db.tasks && Moves(TxOf(p, plan), c.act.taskId, move)
    ensures Forward(db.tasks[c.act.taskId].state, move.state)
  {
    TaskKnown(p, db, c.act.taskId);
    assert plan.ops[0].MoveTask? && plan.ops[0].taskId == c.act.taskId;
    move := plan.ops[0].change;
  }

  lemma ApprovalMove(
    p: Pack, db: Db, who: Principal, wf: Workflow, taskId: Id, supply: seq<Minted>, c: Call, plan: Planned)
    returns (move: TaskChange)
    requires taskId in db.tasks && db.tasks[taskId].workflow in p.workflows && p.workflows[db.tasks[taskId].workflow] == wf
    requires PlanApproval(p, db, who, wf, taskId, supply, c.message, CtxOf(c)) == Ok(plan)
    ensures Moves(TxOf(p, plan), taskId, move) && move.state.Approved?
  {
    var s := ApprovalParts(p, db, who, wf, taskId, supply, c.message, CtxOf(c), plan);
    var ops := BuildAll(p, db, CtxOf(c), s.drafts).value;
    var op := ApproveMove(taskId, s.objectId, who, c.at);
    assert plan.ops[|ops|] == op;
    move := op.change;
  }

  lemma PruneIsNew(p: Pack, db: Db, c: Call, plan: Planned)
    requires Sound(p, db, c) && LogLasts(db) && c.act.Prune? && Plan(p, db, c) == Ok(plan)
    ensures TxOf(p, plan) !in db.log
  {
    var rows, policy := c.act.rows, p.policies[c.act.policyId];
    assert R.Eligible(db.rec, policy, c.at, c.act.objectId, rows[0]);
    assert plan.ops == R.PrunePair(policy, c.at, rows[0], 0) + R.PruneOps(policy, c.at, rows[1..], 1);
    NewByMark(p, db, plan, plan.ops[0]);
  }

  lemma EraseIsNew(p: Pack, db: Db, c: Call, plan: Planned)
    requires LogLasts(db) && c.act.Erase? && Plan(p, db, c) == Ok(plan)
    ensures TxOf(p, plan) !in db.log
  {
    var o := c.act.objectId;
    assert plan.ops == R.EraseOps(o, db.rec.objects[o].head, c.act.policyId, c.at);
    NewByMark(p, db, plan, Rec(EraseObject(o, c.at)));
  }

  lemma RedeemIsNew(p: Pack, db: Db, c: Call, plan: Planned)
    requires Inv(p, db) && c.act.Redeem? && Plan(p, db, c) == Ok(plan)
    ensures TxOf(p, plan) !in db.log
  {
    var tx, id, sub := TxOf(p, plan), c.act.id, c.act.sub;
    assert IsSpend(plan.ops[1], id, sub) && Spends(tx, id, sub);
    forall i | 0 <= i < |db.log|
      ensures db.log[i] != tx
    {
      assert Spends(db.log[i], id, sub) ==> SpendRecorded(db.people.invites, db.log[i], id, sub);
      assert !SpendRecorded(db.people.invites, db.log[i], id, sub);
    }
  }

  lemma InvitationCallIsNew(p: Pack, db: Db, c: Call, plan: Planned)
    requires Inv(p, db) && Sound(p, db, c) && LogLasts(db) && AboutInvitations(c.act) && !c.act.Remind?
    requires Plan(p, db, c) == Ok(plan)
    ensures TxOf(p, plan) !in db.log
  {
    if c.act.Redeem? {
      RedeemIsNew(p, db, c, plan);
    } else {
      NewByMark(p, db, plan, plan.ops[0]);
    }
  }

  lemma EraseProfileIsNew(p: Pack, db: Db, c: Call, plan: Planned)
    requires Sound(p, db, c) && LogLasts(db) && c.act.EraseProfile? && Plan(p, db, c) == Ok(plan)
    ensures TxOf(p, plan) !in db.log
  {
    NewByMark(p, db, plan, plan.ops[0]);
  }

  /**
   In every reachable state, an action that is let through and is not one of the four repeatable ones has
   never been committed before: the retry check never answers for it.
   */
  lemma NeverSwallowed(p: Pack, calls: seq<Call>, c: Call)
    requires PackSound(p) && SoundRun(p, Blank(), calls) && Sound(p, Run(p, Blank(), calls), c)
    requires !Repeatable(c.act) && Plan(p, Run(p, Blank(), calls), c).Ok?
    ensures
      var plan := Plan(p, Run(p, Blank(), calls), c).value;
      TxOf(p, plan) !in Run(p, Blank(), calls).log
  {
    var db := Run(p, Blank(), calls);
    BlankInv(p);
    ReachableInv(p, calls);
    RunLasts(p, Blank(), calls);
    var plan := Plan(p, db, c).value;
    if AboutTasks(c.act) {
      TaskCallIsNew(p, db, c, plan);
    } else if AboutInvitations(c.act) {
      InvitationCallIsNew(p, db, c, plan);
    } else if c.act.Seed? {
      SeedIsNew(p, db, c, plan);
    } else if c.act.EraseProfile? {
      EraseProfileIsNew(p, db, c, plan);
    } else if c.act.Prune? {
      PruneIsNew(p, db, c, plan);
    } else {
      EraseIsNew(p, db, c, plan);
    }
  }

  // ---- the four that can be said again ---------------------------------------------------------------

  /**
   A grant that is let through has its row afterwards exactly when it is not such a retry; a new row names
   the subject exactly when nobody is called by the placeholder.
   */
  lemma GrantTakesEffectExactly(p: Pack, db: Db, c: Call)
    requires PackSound(p) && Inv(p, db) && c.act.Grant? && Plan(p, db, c).Ok?
    ensures
      var plan := Plan(p, db, c).value;
      && Commit(db, TxOf(p, plan)).Ok?
      && (MemberId(p, c.act.sub, c.act.role) in Step(p, db, c).people.members <==> TxOf(p, plan) !in db.log)
      && (TxOf(p, plan) !in db.log ==>
            (Step(p, db, c).people.members[MemberId(p, c.act.sub, c.act.role)].sub == c.act.sub <==> c.act.sub != PLACEHOLDER))
  {
    var plan := Plan(p, db, c).value;
    NewMember(p, db.people.members, c.act.sub, c.act.role);
    assert plan.ops == [plan.ops[0]];
    ApplySingle(db, TxOf(p, plan), plan.ops[0]);
    StepIs(p, db, c, plan);
  }

  /** A revocation that is let through has taken the row away exactly when it is not such a retry. */
  lemma RevokeTakesEffectExactly(p: Pack, db: Db, c: Call)
    requires c.act.Revoke? && Plan(p, db, c).Ok?
    ensures
      var plan := Plan(p, db, c).value;
      && Commit(db, TxOf(p, plan)).Ok?
      && (MemberId(p, c.act.sub, c.act.role) !in Step(p, db, c).people.members <==> TxOf(p, plan) !in db.log)
  {
    var plan := Plan(p, db, c).value;
    assert plan.ops == [plan.ops[0]];
    ApplySingle(db, TxOf(p, plan), plan.ops[0]);
    StepIs(p, db, c, plan);
  }

  /** Something new is asserted, so the profile does not read so yet. */
  lemma SomethingNew(p: Pack, db: Db, c: Call)
    requires c.act.SeeIdentity? && Plan(p, db, c).Ok?
    ensures OpenProfile(db, c.act.sub).Ok?
    ensures
      var held := OpenProfile(db, c.act.sub).value;
      Merged(held, c.act.email, c.act.name, c.at) != held
  {
  }

  lemma SeenApplied(p: Pack, db: Db, c: Call, plan: Planned)
    requires Inv(p, db) && c.act.SeeIdentity? && Plan(p, db, c) == Ok(plan) && c.act.sub != PLACEHOLDER
    ensures
      var tx := TxOf(p, plan);
      var after := Apply(db, tx, plan.ops);
      && after.Some?
      && (forall log ::
            OpenProfile(after.value.(log := log), c.act.sub) ==
            Ok(Merged(OpenProfile(db, c.act.sub).value, c.act.email, c.act.name, c.at)))
  {
    SeenReads(p, db, c.act.sub, c.act.email, c.act.name, c.act.minted, c.message, CtxOf(c), plan);
  }

  /** A profile put under the placeholder lands under the transaction's id. */
  lemma SeenElsewhere(p: Pack, db: Db, c: Call, plan: Planned)
    requires c.act.SeeIdentity? && Plan(p, db, c) == Ok(plan) && c.act.sub == PLACEHOLDER
    ensures
      var after := Apply(db, TxOf(p, plan), plan.ops);
      after.Some? && (forall log :: OpenProfile(after.value.(log := log), c.act.sub) == OpenProfile(db, c.act.sub))
  {
    var tx, last := TxOf(p, plan), |plan.ops| - 1;
    assert plan.ops == plan.ops[..last] + [plan.ops[last]];
    ApplyAppend(db, tx, plan.ops[..last], [plan.ops[last]]);
    if last == 0 {
      assert plan.ops[..last] == [];
      ApplySingle(db, tx, plan.ops[last]);
    } else {
      assert plan.ops[..last] == [plan.ops[0]];
      ApplySingle(db, tx, plan.ops[0]);
      ApplySingle(ApplyOne(db, tx, plan.ops[0]).value, tx, plan.ops[last]);
    }
  }

  /**
   A profile reads as what was asserted over what was held exactly when saying so is not such a retry and
   the person is not called by the placeholder.
   */
  lemma SeenTakesEffectExactly(p: Pack, db: Db, c: Call)
    requires Inv(p, db) && c.act.SeeIdentity? && Plan(p, db, c).Ok?
    ensures
      var plan, held := Plan(p, db, c).value, OpenProfile(db, c.act.sub).value;
      && Commit(db, TxOf(p, plan)).Ok?
      && (OpenProfile(Step(p, db, c), c.act.sub) == Ok(Merged(held, c.act.email, c.act.name, c.at)) <==>
            TxOf(p, plan) !in db.log && c.act.sub != PLACEHOLDER)
  {
    var plan := Plan(p, db, c).value;
    if c.act.sub == PLACEHOLDER {
      SeenElsewhere(p, db, c, plan);
    } else {
      SeenApplied(p, db, c, plan);
    }
    SomethingNew(p, db, c);
    StepIs(p, db, c, plan);
  }

  /** A reminder is on record afterwards unless it is such a retry and another has been sent since. */
  lemma RemindTakesEffectExactly(p: Pack, db: Db, c: Call)
    requires c.act.Remind? && c.act.id in db.people.recipients
    ensures
      var plan := Plan(p, db, c).value;
      && c.act.id in Step(p, db, c).people.recipients
      && (Step(p, db, c).people.recipients[c.act.id].remindedAt == c.at <==>
            TxOf(p, plan) !in db.log || db.people.recipients[c.act.id].remindedAt == c.at)
  {
    var plan := Plan(p, db, c).value;
    assert plan.ops == [plan.ops[0]];
    ApplySingle(db, TxOf(p, plan), plan.ops[0]);
    StepIs(p, db, c, plan);
  }

  /** A request that says again exactly what has been committed since the clock last moved does nothing. */
  lemma SaidAgain(p: Pack, db: Db, between: Db, c: Call)
    requires Plan(p, db, c).Ok? && Plan(p, between, c) == Plan(p, db, c)
    requires Commit(db, TxOf(p, Plan(p, db, c).value)).Ok? && Later(Step(p, db, c), between)
    ensures Step(p, between, c) == between
  {
    var plan := Plan(p, db, c).value;
    var tx, log := TxOf(p, plan), Step(p, db, c).log;
    StepIs(p, db, c, plan);
    assert tx in log && between.log[..|log|] == log;
    StepIs(p, between, c, plan);
  }

  /**
   A role granted, taken away and granted again within one second and in the same words, or revoked,
   granted and revoked again: the third request is taken for the first, and does nothing.
   */
  lemma ThirdIsSwallowed(p: Pack, db: Db, between: Db, c: Call)
    requires (c.act.Grant? || c.act.Revoke?) && Plan(p, db, c).Ok? && Later(Step(p, db, c), between)
    ensures Step(p, between, c) == between
  {
    var plan := Plan(p, db, c).value;
    assert plan.ops == [plan.ops[0]];
    ApplySingle(db, TxOf(p, plan), plan.ops[0]);
    if Plan(p, between, c).Ok? {
      SaidAgain(p, db, between, c);
    }
  }
}
