/** The keys a step makes (`internal/register/records.go`, `ensureDEK`): when, for what, and for whom they are wrapped. */
module KeyMeanings {
  import opened Outcomes
  import opened Tables
  import opened Packs
  import opened RecordBuild
  import opened RecordInvariant
  import opened Batch
  import opened Workflows
  import opened Membership
  import opened Runs
  import opened RunSafety
  import opened TaskMeanings
  import opened PeopleMeanings
  import opened RetentionMeanings
  import R = RetentionPolicy

  /** A key just made: wrapped for its scope, also for the customer exactly when one is enrolled, and not destroyed. */
  predicate JustMade(s: Scope, dek: Dek, at: int, recover: bool) {
    && dek.opWrap.Wrapped? && dek.opWrap.scope == s && dek.createdAt == at && dek.destroyedAt == 0
    && dek.recWrap == if recover then dek.opWrap else NoWrap
  }

  /** What an entry may do to keys: make one so, or destroy one that was there. */
  predicate KeyOpOk(deks: map<Scope, Dek>, op: Op, at: int, recover: bool) {
    && (op.MintKey? ==> JustMade(op.scope, Dek(op.opWrap, op.recWrap, op.at, 0), at, recover))
    && (op.DestroyKey? ==> op.scope in deks)
  }

  ghost predicate KeyOpsOk(deks: map<Scope, Dek>, ops: seq<Op>, at: int, recover: bool) {
    forall op :: op in ops ==> KeyOpOk(deks, op, at, recover)
  }

  /** Every key was there before, or was just made. */
  ghost predicate OldOrMade(deks: map<Scope, Dek>, now: map<Scope, Dek>, at: int, recover: bool) {
    forall s :: s in now && s !in deks ==> JustMade(s, now[s], at, recover)
  }

  lemma {:induction false} KeysMade(deks: map<Scope, Dek>, db: Db, tx: TxId, ops: seq<Op>, at: int, recover: bool)
    requires KeyOpsOk(deks, ops, at, recover) && OldOrMade(deks, db.deks, at, recover) && Apply(db, tx, ops).Some?
    ensures OldOrMade(deks, Apply(db, tx, ops).value.deks, at, recover)
    decreases |ops|
  {
    if ops != [] {
      KeyMade(deks, db, tx, ops[0], at, recover);
      KeysMade(deks, ApplyOne(db, tx, ops[0]).value, tx, ops[1..], at, recover);
    }
  }

  lemma KeyMade(deks: map<Scope, Dek>, db: Db, tx: TxId, op: Op, at: int, recover: bool)
    requires KeyOpOk(deks, op, at, recover) && OldOrMade(deks, db.deks, at, recover) && ApplyOne(db, tx, op).Some?
    ensures OldOrMade(deks, ApplyOne(db, tx, op).value.deks, at, recover)
  {
    if !op.MintKey? && !op.DestroyKey? {
      assert ApplyOne(db, tx, op).value.deks == db.deks;
    }
  }

  lemma BuiltKeysOk(p: Pack, db: Db, w: WriteCtx, d: Draft)
    requires BuildRecord(p, db, w, d).Ok?
    ensures KeyOpsOk(db.deks, BuildRecord(p, db, w, d).value, w.at, w.recover)
  {
    BuiltParts(p, db, w, d);
  }

  lemma {:induction false} BatchKeysOk(p: Pack, db: Db, w: WriteCtx, drafts: seq<Draft>)
    requires BuildAll(p, db, w, drafts).Ok?
    ensures KeyOpsOk(db.deks, BuildAll(p, db, w, drafts).value, w.at, w.recover)
    decreases |drafts|
  {
    if drafts != [] {
      BuiltKeysOk(p, db, w, drafts[0]);
      BatchKeysOk(p, db, After(w, drafts[0]), drafts[1..]);
    }
  }

  lemma ApprovalKeysOk(p: Pack, db: Db, who: Principal, wf: Workflow, t: Id, supply: seq<Minted>, c: Call, plan: Planned)
    requires t in db.tasks && db.tasks[t].workflow in p.workflows && p.workflows[db.tasks[t].workflow] == wf
    requires PlanApproval(p, db, who, wf, t, supply, c.message, CtxOf(c)) == Ok(plan)
    ensures KeyOpsOk(db.deks, plan.ops, c.at, c.recover)
  {
    var s := ApprovalParts(p, db, who, wf, t, supply, c.message, CtxOf(c), plan);
    BatchKeysOk(p, db, CtxOf(c), s.drafts);
  }

  lemma MoveKeysOk(deks: map<Scope, Dek>, t: Id, change: TaskChange, close: seq<Op>, at: int, recover: bool)
    requires close == [] || close == CloseProposal(deks, t, at)
    ensures KeyOpsOk(deks, [MoveTask(t, change)] + close, at, recover)
  {
  }

  lemma TaskKeysOk(p: Pack, db: Db, c: Call, plan: Planned)
    requires AboutTasks(c.act) && Plan(p, db, c) == Ok(plan)
    ensures KeyOpsOk(db.deks, plan.ops, c.at, c.recover)
  {
    var a := c.act;
    if a.Propose? {
      var task := ProposalParts(p, db, a.who, a.name, a.req, a.taskId, a.minted, CtxOf(c), plan);
    } else if a.Respond? {
      var change, close := AnswerOps(p, db, c, plan);
      MoveKeysOk(db.deks, a.taskId, change, close, c.at, c.recover);
    } else if a.Withdraw? {
      var change := WithdrawOps(p, db, c, plan);
      MoveKeysOk(db.deks, a.taskId, change, CloseProposal(db.deks, a.taskId, c.at), c.at, c.recover);
    } else {
      DecisionKeysOk(p, db, c, plan);
    }
  }

  lemma DecisionKeysOk(p: Pack, db: Db, c: Call, plan: Planned)
    requires (c.act.Decide? || c.act.PolicyApproval?) && Plan(p, db, c) == Ok(plan)
    ensures KeyOpsOk(db.deks, plan.ops, c.at, c.recover)
  {
    var a := c.act;
    if a.PolicyApproval? {
      ApprovalKeysOk(p, db, PolicyPrincipal(), p.workflows[db.tasks[a.taskId].workflow], a.taskId, a.supply, c, plan);
    } else if a.approve {
      DecisionGuards(p, db, a.who, a.taskId, a.approve, a.supply, c.message, CtxOf(c), plan);
      ApprovalKeysOk(p, db, a.who, p.workflows[db.tasks[a.taskId].workflow], a.taskId, a.supply, c, plan);
    } else {
      var change := RefusalOps(p, db, c, plan);
      MoveKeysOk(db.deks, a.taskId, change, CloseProposal(db.deks, a.taskId, c.at), c.at, c.recover);
    }
  }

  lemma {:induction false} PruneKeysOk(deks: map<Scope, Dek>, policy: Policy, at: int, rows: seq<(Id, nat)>, i: nat, recover: bool)
    ensures KeyOpsOk(deks, R.PruneOps(policy, at, rows, i), at, recover)
    decreases |rows|
  {
    if rows != [] {
      PruneKeysOk(deks, policy, at, rows[1..], i + 1, recover);
    }
  }

  lemma RecordKeysOk(p: Pack, db: Db, c: Call, plan: Planned)
    requires (c.act.Seed? || c.act.Prune? || c.act.Erase?) && Plan(p, db, c) == Ok(plan)
    ensures KeyOpsOk(db.deks, plan.ops, c.at, c.recover)
  {
    if c.act.Seed? {
      BatchKeysOk(p, db, CtxOf(c), SeedDrafts(p, c.act).value);
    } else if c.act.Prune? {
      PruneKeysOk(db.deks, p.policies[c.act.policyId], c.at, c.act.rows, 0, c.recover);
    } else {
      EraseExactly(p, db, c);
    }
  }

  lemma ForgetKeysOk(db: Db, id: Id, at: int, recover: bool)
    ensures KeyOpsOk(db.deks, ForgetOps(db, id, at), at, recover)
  {
  }

  lemma PeopleKeysOk(p: Pack, db: Db, c: Call, plan: Planned)
    requires AboutPeople(c.act) && Plan(p, db, c) == Ok(plan)
    ensures KeyOpsOk(db.deks, plan.ops, c.at, c.recover)
  {
    if AboutInvitations(c.act) {
      InvitationKeysOk(p, db, c, plan);
    } else if c.act.Grant? {
      GrantExactly(p, db, c);
    } else if c.act.Revoke? {
      RevokeExactly(p, db, c);
    } else if c.act.SeeIdentity? {
      var e := SeePlanned(p, db, c, plan);
    } else {
      assert plan.ops[0].scope in db.deks && plan.ops == [plan.ops[0], plan.ops[1]];
    }
  }

  lemma InvitationKeysOk(p: Pack, db: Db, c: Call, plan: Planned)
    requires AboutInvitations(c.act) && Plan(p, db, c) == Ok(plan)
    ensures KeyOpsOk(db.deks, plan.ops, c.at, c.recover)
  {
    ForgetKeysOk(db, c.act.id, c.at, c.recover);
    if c.act.Invite? {
      SealKeysOk(db.deks, CtxOf(c), c.act.id, c.act.recipient, c.act.minted);
    } else if c.act.WithdrawInvitation? {
      WithdrawInvitationExactly(p, db, c);
    } else if c.act.Redeem? {
      RedeemExactly(p, db, c);
    }
  }

  lemma SealKeysOk(deks: map<Scope, Dek>, w: WriteCtx, id: Id, recipient: Option<Payload>, minted: Key)
    ensures
      var ops := SealRecipient(deks, w, id, recipient, minted);
      ops.Ok? ==> KeyOpsOk(deks, ops.value, w.at, w.recover)
  {
  }

  /**
   Whatever a step does, a key that is there after it and was not before is wrapped for its own scope, dated by the
   step, live, and recoverable by the customer exactly when the customer's key was enrolled then.
   */
  lemma KeysJustMade(p: Pack, db: Db, c: Call)
    ensures OldOrMade(db.deks, Step(p, db, c).deks, c.at, c.recover)
  {
    StillOrActs(p, db, c);
    if Acts(p, db, c) {
      var plan := ActsBy(p, db, c);
      if AboutPeople(c.act) {
        PeopleKeysOk(p, db, c, plan);
      } else if AboutTasks(c.act) {
        TaskKeysOk(p, db, c, plan);
      } else {
        RecordKeysOk(p, db, c, plan);
      }
      KeysMade(db.deks, db, TxOf(p, plan), plan.ops, c.at, c.recover);
    }
  }
}
