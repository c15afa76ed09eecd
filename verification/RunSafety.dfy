/** The theorems about whole runs of the register. */
module RunSafety {
  import opened Outcomes
  import opened Tables
  import opened Packs
  import opened RecordBuild
  import opened RecordInvariant
  import opened Batch
  import opened BatchLimits
  import opened History
  import opened Workflows
  import opened WorkflowSafety
  import opened Approval
  import opened Membership
  import opened MembershipSafety
  import opened Runs
  import opened PeopleSteps
  import ReadBack
  import R = RetentionPolicy

  // ---- every step ------------------------------------------------------------------------

  /** What a person's decision has passed by the time it is planned. */
  lemma DecisionGuards(
    p: Pack, db: Db, who: Principal, taskId: Id, approve: bool, supply: seq<Minted>, message: string, w: WriteCtx,
    plan: Planned)
    requires PlanDecision(p, db, who, taskId, approve, supply, message, w) == Ok(plan)
    ensures taskId in db.tasks && db.tasks[taskId].workflow in p.workflows && db.tasks[taskId].state.AwaitingReview?
    ensures
      var wf := p.workflows[db.tasks[taskId].workflow];
      && (wf.independence ==> who.sub != db.tasks[taskId].proposer)
      && (approve ==> PlanApproval(p, db, who, wf, taskId, supply, message, w) == Ok(plan))
      && (!approve ==> plan.ops == RejectOps(db, taskId, who, w.at))
  {
  }

  lemma DecideKeeps(
    p: Pack, db: Db, who: Principal, taskId: Id, approve: bool, supply: seq<Minted>, message: string, w: WriteCtx,
    plan: Planned)
    requires who.sub != PLACEHOLDER
    requires PackSound(p) && Inv(p, db) && w.at > 0 && w.pending == map[]
    requires approve ==> FreshIds(db, supply) && SoundDrafts(p, db, ApprovalDrafts(p, db, who, taskId, supply, w))
    requires PlanDecision(p, db, who, taskId, approve, supply, message, w) == Ok(plan)
    ensures Kept(p, db, plan)
  {
    DecisionGuards(p, db, who, taskId, approve, supply, message, w, plan);
    if approve {
      ApproveKeeps(p, db, who, p.workflows[db.tasks[taskId].workflow], taskId, supply, message, w, plan);
    } else {
      RejectKeeps(p, db, who, taskId, w.at, plan);
    }
  }

  lemma PolicyKeeps(
    p: Pack, db: Db, taskId: Id, supply: seq<Minted>, message: string, w: WriteCtx, plan: Planned)
    requires PackSound(p) && Inv(p, db) && w.at > 0 && w.pending == map[]
    requires FreshIds(db, supply) && SoundDrafts(p, db, ApprovalDrafts(p, db, PolicyPrincipal(), taskId, supply, w))
    requires PlanPolicyApproval(p, db, taskId, supply, message, w) == Ok(plan)
    ensures Kept(p, db, plan)
  {
    var wf := p.workflows[db.tasks[taskId].workflow];
    ApproveKeeps(p, db, PolicyPrincipal(), wf, taskId, supply, message, w, plan);
  }

  predicate AboutPeople(a: Act) {
    || a.Grant? || a.Revoke? || a.Invite? || a.WithdrawInvitation? || a.Redeem? || a.Remind? || a.Expire?
    || a.SeeIdentity? || a.EraseProfile?
  }

  predicate AboutInvitations(a: Act) {
    a.Invite? || a.WithdrawInvitation? || a.Redeem? || a.Remind? || a.Expire?
  }

  lemma InvitationPlanKeeps(p: Pack, db: Db, c: Call, plan: Planned)
    requires PackSound(p) && Inv(p, db) && Sound(p, db, c) && AboutInvitations(c.act)
    requires Plan(p, db, c) == Ok(plan)
    ensures Kept(p, db, plan)
  {
    var a := c.act;
    if a.Invite? {
      InviteKeeps(
        p, db, ManagerOf(a.actor).value, a.role, a.validFor, a.recipient, a.id, a.secret, a.minted, c.message, CtxOf(c),
        plan);
    } else if a.WithdrawInvitation? {
      InviteRevokeKeeps(p, db, a.who, a.id, c.message, c.at, plan);
    } else if a.Redeem? {
      RedeemKeeps(p, db, a.sub, a.id, a.secret, c.message, c.at, plan);
    } else if a.Remind? {
      RemindKeeps(p, db, a.id, c.message, c.at);
    } else {
      ExpireKeeps(p, db, a.id, c.message, c.at, plan);
    }
  }

  /** A revocation that names a role with a bar in it. */
  predicate Barred(c: Call) {
    c.act.Revoke? && '|' in c.act.role
  }

  lemma PeoplePlanKeeps(p: Pack, db: Db, c: Call, plan: Planned)
    requires PackSound(p) && Inv(p, db) && Sound(p, db, c) && AboutPeople(c.act)
    requires Plan(p, db, c) == Ok(plan)
    ensures KeptLater(p, db, plan) && (!Barred(c) ==> Kept(p, db, plan))
  {
    if AboutInvitations(c.act) {
      InvitationPlanKeeps(p, db, c, plan);
    } else {
      var a := c.act;
      if a.Grant? {
        GrantKeeps(p, db, ManagerOf(a.actor).value, a.sub, a.role, c.message, c.at, plan);
      } else if a.Revoke? {
        RevokeKeeps(p, db, a.who, a.sub, a.role, c.message, c.at, plan);
      } else if a.SeeIdentity? {
        SeeKeeps(p, db, a.sub, a.email, a.name, a.minted, c.message, CtxOf(c), plan);
      } else {
        EraseProfileKeeps(p, db, a.who, a.sub, a.reason, c.at, plan);
      }
    }
  }

  predicate AboutTasks(a: Act) {
    a.Propose? || a.Respond? || a.Decide? || a.PolicyApproval? || a.Withdraw?
  }

  lemma TaskPlanKeeps(p: Pack, db: Db, c: Call, plan: Planned)
    requires PackSound(p) && Inv(p, db) && Sound(p, db, c) && AboutTasks(c.act)
    requires Plan(p, db, c) == Ok(plan)
    ensures Kept(p, db, plan)
  {
    var a := c.act;
    if a.Propose? {
      ProposeKeeps(p, db, a.who, a.name, a.req, a.taskId, a.minted, CtxOf(c), plan);
    } else if a.Respond? {
      RespondKeeps(p, db, a.who, a.taskId, a.accept, c.message, c.at, plan);
    } else if a.Withdraw? {
      WithdrawKeeps(p, db, a.who, a.taskId, c.message, c.at, plan);
    } else {
      DecisionPlanKeeps(p, db, c, plan);
    }
  }

  lemma DecisionPlanKeeps(p: Pack, db: Db, c: Call, plan: Planned)
    requires PackSound(p) && Inv(p, db) && Sound(p, db, c) && (c.act.Decide? || c.act.PolicyApproval?)
    requires Plan(p, db, c) == Ok(plan)
    ensures Kept(p, db, plan)
  {
    match c.act
    case Decide(who, taskId, approve, supply) =>
      DecideKeeps(p, db, who, taskId, approve, supply, c.message, CtxOf(c), plan);
    case PolicyApproval(taskId, supply) => PolicyKeeps(p, db, taskId, supply, c.message, CtxOf(c), plan);
  }

  lemma PrunePlanKeeps(p: Pack, db: Db, c: Call, plan: Planned)
    requires PackSound(p) && Inv(p, db) && Sound(p, db, c) && c.act.Prune? && Plan(p, db, c) == Ok(plan)
    ensures Kept(p, db, plan)
  {
    PruneKeeps(p, db, c.act, c.message, c.at, plan);
  }

  lemma ErasureIsPlanned(p: Pack, db: Db, c: Call, plan: Planned)
    requires c.act.Erase? && Plan(p, db, c) == Ok(plan)
    ensures R.PlanErasure(p, db, c.act.objectId, c.act.policyId, c.at) == Ok(plan.ops)
  {
  }

  lemma ErasePlanKeeps(p: Pack, db: Db, c: Call, plan: Planned)
    requires PackSound(p) && Inv(p, db) && Sound(p, db, c) && c.act.Erase? && Plan(p, db, c) == Ok(plan)
    ensures Kept(p, db, plan)
  {
    ErasureIsPlanned(p, db, c, plan);
    EraseKeeps(p, db, c.act.objectId, c.act.policyId, c.at, plan);
  }

  lemma RecordPlanKeeps(p: Pack, db: Db, c: Call, plan: Planned)
    requires PackSound(p) && Inv(p, db) && Sound(p, db, c) && (c.act.Seed? || c.act.Prune? || c.act.Erase?)
    requires Plan(p, db, c) == Ok(plan)
    ensures Kept(p, db, plan)
  {
    if c.act.Seed? {
      SeedKeeps(p, db, c.act, CtxOf(c), plan);
    } else if c.act.Prune? {
      PrunePlanKeeps(p, db, c, plan);
    } else {
      ErasePlanKeeps(p, db, c, plan);
    }
  }

  lemma PlanKeeps(p: Pack, db: Db, c: Call, plan: Planned)
    requires PackSound(p) && Inv(p, db) && Sound(p, db, c)
    requires Plan(p, db, c) == Ok(plan)
    ensures KeptLater(p, db, plan) && (!Barred(c) ==> Kept(p, db, plan))
  {
    if AboutPeople(c.act) {
      PeoplePlanKeeps(p, db, c, plan);
    } else if AboutTasks(c.act) {
      TaskPlanKeeps(p, db, c, plan);
    } else {
      RecordPlanKeeps(p, db, c, plan);
    }
  }

  lemma LaterSame(db: Db)
    ensures Later(db, db)
  {
    OnwardSelf(db.rec, db.deks);
  }

  lemma LaterTrans(a: Db, b: Db, c: Db)
    requires Later(a, b) && Later(b, c)
    ensures Later(a, c)
  {
    OnwardChain(a.rec, a.deks, b.rec, b.deks, c.rec, c.deks);
    forall t | t in a.tasks
      ensures t in c.tasks && TaskOnward(a.tasks[t], c.tasks[t])
    {
      assert TaskOnward(a.tasks[t], b.tasks[t]) && TaskOnward(b.tasks[t], c.tasks[t]);
    }
    forall id | id in a.people.invites
      ensures id in c.people.invites && InviteOnward(a.people.invites[id], c.people.invites[id])
    {
      assert InviteOnward(a.people.invites[id], b.people.invites[id]);
      assert InviteOnward(b.people.invites[id], c.people.invites[id]);
    }
  }

  /** Every call, whatever it does and however it ends, keeps the invariant and takes nothing back. */
  lemma StepKeeps(p: Pack, db: Db, c: Call)
    requires PackSound(p) && Inv(p, db) && Sound(p, db, c)
    ensures Inv(p, Step(p, db, c)) && Later(db, Step(p, db, c))
    ensures !Barred(c) ==> Onward(p, db, Step(p, db, c))
  {
    LaterSame(db);
    var plan := Plan(p, db, c);
    if plan.Ok? {
      PlanKeeps(p, db, c, plan.value);
      StepIs(p, db, c, plan.value);
    }
  }

  lemma StepIs(p: Pack, db: Db, c: Call, plan: Planned)
    requires Plan(p, db, c) == Ok(plan)
    ensures
      var tx := TxOf(p, plan);
      var landed := Apply(db, tx, plan.ops);
      Step(p, db, c) == if tx in db.log || landed.None? then db else Logged(landed.value, tx)
  {
    var tx := TxOf(p, plan);
    if Apply(db, tx, plan.ops).Some? {
      ApplyKeepsLog(db, tx, plan.ops);
    }
  }

  /** The call was let through, went through and was not a repetition: the log has one entry more. */
  ghost predicate Acts(p: Pack, db: Db, c: Call) {
    Step(p, db, c).log != db.log
  }

  /** The entry a state was left by. */
  function Latest(now: Db): TxId
    requires now.log != []
  {
    now.log[|now.log| - 1]
  }

  /** The last entry of the log is new and says this. */
  ghost predicate Entered(db: Db, now: Db, env: Envelope) {
    now.log != [] && now.log == db.log + [Latest(now)] && Latest(now).env == env
  }

  /** A call that acts is planned, and leaves what its plan does. */
  lemma ActsBy(p: Pack, db: Db, c: Call) returns (plan: Planned)
    requires Acts(p, db, c)
    ensures Plan(p, db, c) == Ok(plan) && TxOf(p, plan) !in db.log && Apply(db, TxOf(p, plan), plan.ops).Some?
    ensures Step(p, db, c) == Logged(Apply(db, TxOf(p, plan), plan.ops).value, TxOf(p, plan))
    ensures Entered(db, Step(p, db, c), plan.env) && Latest(Step(p, db, c)) == TxOf(p, plan)
  {
    plan := Plan(p, db, c).value;
    StepIs(p, db, c, plan);
    ApplyKeepsLog(db, TxOf(p, plan), plan.ops);
  }

  /** Each call is sound in the state it is made in. */
  ghost predicate SoundRun(p: Pack, db: Db, calls: seq<Call>)
    decreases |calls|
  {
    calls != [] ==> Sound(p, db, calls[0]) && SoundRun(p, Step(p, db, calls[0]), calls[1..])
  }

  lemma RunOne(p: Pack, db: Db, a: Call)
    ensures Run(p, db, [a]) == Step(p, db, a)
  {
    assert [a][1..] == [] && Run(p, Step(p, db, a), []) == Step(p, db, a);
  }

  lemma RunTwo(p: Pack, db: Db, a: Call, b: Call)
    ensures Run(p, db, [a, b]) == Step(p, Step(p, db, a), b)
    ensures Sound(p, db, a) && Sound(p, Step(p, db, a), b) ==> SoundRun(p, db, [a, b])
  {
    var s := Step(p, db, a);
    assert [a, b][1..] == [b] && [b][1..] == [];
    assert Run(p, Step(p, s, b), []) == Step(p, s, b);
    assert Run(p, s, [b]) == Run(p, Step(p, s, b), []);
    assert SoundRun(p, Step(p, s, b), []);
    assert SoundRun(p, s, [b]) <==> Sound(p, s, b);
  }

  lemma RunThree(p: Pack, db: Db, a: Call, b: Call, c: Call)
    ensures Run(p, db, [a, b, c]) == Step(p, Step(p, Step(p, db, a), b), c)
    ensures Sound(p, db, a) && Sound(p, Step(p, db, a), b) && Sound(p, Step(p, Step(p, db, a), b), c) ==>
      SoundRun(p, db, [a, b, c])
  {
    assert [a, b, c][1..] == [b, c];
    RunTwo(p, Step(p, db, a), b, c);
  }

  lemma BlankInv(p: Pack)
    ensures Inv(p, Blank())
  {
    assert forall id :: InviteLocal(Blank().people, map[], id);
    assert forall sub :: ProfileLocal(Blank().people, map[], sub);
  }

  /** Over any run, the invariant holds throughout and later states follow earlier ones. */
  lemma {:induction false} RunKeeps(p: Pack, db: Db, calls: seq<Call>)
    requires PackSound(p) && Inv(p, db) && SoundRun(p, db, calls)
    ensures Inv(p, Run(p, db, calls)) && Later(db, Run(p, db, calls))
    decreases |calls|
  {
    if calls == [] {
      LaterSame(db);
    } else {
      StepKeeps(p, db, calls[0]);
      RunKeeps(p, Step(p, db, calls[0]), calls[1..]);
      LaterTrans(db, Step(p, db, calls[0]), Run(p, db, calls));
    }
  }

  /** Every state reachable from an empty register. */
  lemma ReachableInv(p: Pack, calls: seq<Call>)
    requires PackSound(p) && SoundRun(p, Blank(), calls)
    ensures Inv(p, Run(p, Blank(), calls))
  {
    BlankInv(p);
    RunKeeps(p, Blank(), calls);
  }

  // ---- records -----------------------------------------------------------------------------

  /** What reading a version says, when `written` is what was written: that, its part without personal data, or that it was pruned. */
  ghost predicate ReadsAs(p: Pack, b: Db, cleared: bool, k: (Id, nat), written: Payload) {
    && k in b.rec.versions && k.0 in b.rec.objects && b.rec.objects[k.0].cls in p.classes
    && var row, pii := b.rec.versions[k], p.classes[b.rec.objects[k.0].cls].pii;
       ReadRow(b.deks, cleared, k.0, k.1, row) ==
       if row.pruned then Ok(Pruned(row.policy))
       else if row.scope == NoScope then Ok(Read(written, false, false))
       else if !cleared then Ok(Read(Clear(pii, written), true, false))
       else if row.scope in b.deks && b.deks[row.scope].Live() then Ok(Read(written, false, false))
       else Ok(Read(Clear(pii, written), true, true))
  }

  lemma ReadAfter(p: Pack, before: map<(Id, nat), VersionRow>, b: Db, cleared: bool, k: (Id, nat))
    requires ClassesOk(p.classes) && RecordsOk(p, b.rec, b.deks)
    requires VersionsOnward(before, b.rec.versions) && k in before
    ensures ReadsAs(p, b, cleared, k, before[k].hash.payload)
  {
    assert VersionOnward(before[k], b.rec.versions[k]);
    ReadBack.ReadsBack(p, b.rec, b.deks, cleared, k);
    PlainHasNoScope(p, b.rec, b.deks, k);
  }

  /**
   Whatever is done after a version is written, reading it gives the payload written, its part without
   personal data, or the word that it was pruned; never anything else and never an error.
   */
  lemma ReadBackLater(p: Pack, earlier: seq<Call>, later: seq<Call>, cleared: bool, k: (Id, nat))
    requires PackSound(p) && SoundRun(p, Blank(), earlier) && SoundRun(p, Run(p, Blank(), earlier), later)
    requires k in Run(p, Blank(), earlier).rec.versions
    ensures
      var a := Run(p, Blank(), earlier);
      ReadsAs(p, Run(p, a, later), cleared, k, a.rec.versions[k].hash.payload)
  {
    ReachableInv(p, earlier);
    var a := Run(p, Blank(), earlier);
    RunKeeps(p, a, later);
    ReadAfter(p, a.rec.versions, Run(p, a, later), cleared, k);
  }

  lemma PlainHasNoScope(p: Pack, rec: Records, deks: map<Scope, Dek>, k: (Id, nat))
    requires ObjectsOk(p, rec, deks) && VersionsOwned(rec.objects, rec.versions) && k in rec.versions
    ensures rec.versions[k].hash.PlainHash? <==> rec.versions[k].scope == NoScope
  {
    assert ObjectOk(p, rec, deks, k.0);
    assert VersionOk(p.classes[rec.objects[k.0].cls], deks, k.0, k.1, rec.versions[k]);
  }

  /** A key missing from the index really means that no record of the class has it, and a key in it names the one. */
  lemma IndexTellsTheTruth(p: Pack, calls: seq<Call>, cls: string, naturalKey: string)
    requires PackSound(p) && SoundRun(p, Blank(), calls)
    requires cls in p.classes && p.classes[cls].naturalKey != ""
    ensures
      var rec := Run(p, Blank(), calls).rec;
      forall o :: o in rec.objects ==>
        (rec.objects[o].cls == cls && rec.objects[o].naturalKey == naturalKey <==>
         (cls, naturalKey) in rec.keys && rec.keys[(cls, naturalKey)].objectId == o)
    ensures
      var rec := Run(p, Blank(), calls).rec;
      (cls, naturalKey) in rec.keys ==> rec.keys[(cls, naturalKey)].objectId in rec.objects
  {
    ReachableInv(p, calls);
    var rec := Run(p, Blank(), calls).rec;
    if (cls, naturalKey) in rec.keys {
      assert EntryRight(p, rec.objects, (cls, naturalKey), rec.keys[(cls, naturalKey)]);
    }
    forall o | o in rec.objects && rec.objects[o].cls == cls && rec.objects[o].naturalKey == naturalKey
      ensures (cls, naturalKey) in rec.keys && rec.keys[(cls, naturalKey)].objectId == o
    {
      assert Indexed(p, rec.keys, o, rec.objects[o]);
    }
  }

  /**
   In every reachable state: a record is found in the index under the key its head gives exactly when
   that key is not the placeholder, and no two records of a class give one key exactly when no two give
   the placeholder.
   */
  lemma GivenKeysExactly(p: Pack, calls: seq<Call>, cls: string)
    requires PackSound(p) && SoundRun(p, Blank(), calls)
    requires cls in p.classes && p.classes[cls].naturalKey != ""
    ensures
      var rec := Run(p, Blank(), calls).rec;
      && (forall o :: o in rec.objects && rec.objects[o].cls == cls ==>
            && ReadBack.Headed(p, rec, o)
            && (var k := (cls, ReadBack.HeadKey(p, rec, o));
                (k in rec.keys && rec.keys[k].objectId == o) <==> ReadBack.HeadKey(p, rec, o) != PLACEHOLDER))
      && ((forall o, q :: o in rec.objects && q in rec.objects && rec.objects[o].cls == cls ==>
             !ReadBack.GivenTwice(p, rec, o, q)) <==>
          forall o, q :: o in rec.objects && q in rec.objects && rec.objects[o].cls == cls ==>
            !(ReadBack.GivenTwice(p, rec, o, q) && ReadBack.HeadKey(p, rec, o) == PLACEHOLDER))
  {
    ReachableInv(p, calls);
    var db := Run(p, Blank(), calls);
    forall o | o in db.rec.objects && db.rec.objects[o].cls == cls
      ensures ReadBack.Headed(p, db.rec, o)
      ensures
        var k := (cls, ReadBack.HeadKey(p, db.rec, o));
        (k in db.rec.keys && db.rec.keys[k].objectId == o) <==> ReadBack.HeadKey(p, db.rec, o) != PLACEHOLDER
    {
      ReadBack.FoundUnderGivenKey(p, db.rec, db.deks, o);
    }
    forall o, q | o in db.rec.objects && q in db.rec.objects && ReadBack.GivenTwice(p, db.rec, o, q)
      ensures ReadBack.HeadKey(p, db.rec, o) == PLACEHOLDER
    {
      ReadBack.GivenKeysUnique(p, db.rec, db.deks, o, q);
    }
  }

  /**
   Making a query table anew at any moment of any run is refused exactly when two records of the class have
   one unique column blank or the placeholder. Otherwise it adds and drops no row, changes no status, and
   changes a row's columns exactly when a projected text of the record's head is the placeholder.
   */
  lemma RebuildAnyTime(p: Pack, calls: seq<Call>, cls: string, now: map<(QueryTable, Id), QueryRow>, k: (QueryTable, Id))
    requires PackSound(p) && SoundRun(p, Blank(), calls) && cls in p.classes
    requires
      var rec := Run(p, Blank(), calls).rec;
      ReadBack.IsRebuild(p, rec, p.classes[cls], ReadBack.OfClass(rec, p.classes[cls]), now)
    ensures
      var rec, c := Run(p, Blank(), calls).rec, p.classes[cls];
      && (ReadBack.RowsFit(p, rec, c, ReadBack.OfClass(rec, c)) <==>
            forall o, q :: o in ReadBack.OfClass(rec, c) && q in ReadBack.OfClass(rec, c) ==>
              !ReadBack.BlankTogether(p, rec, c, o, q))
      && (k in now <==> k in rec.query)
      && (k in now && k.0 != TableOf(c) ==> now[k] == rec.query[k])
      && (k in now && k.0 == TableOf(c) ==>
            && k.1 in rec.objects && (k.1, rec.objects[k.1].head) in rec.versions
            && (var given := ReadBack.HeadColumns(p, rec, c, k.1);
                && now[k].status == rec.query[k].status
                && (now[k].columns == rec.query[k].columns <==> !ReadBack.Placeheld(given))
                && (!ReadBack.Placeheld(given) && now[k] != rec.query[k] ==> rec.objects[k.1].erased)))
  {
    ReachableInv(p, calls);
    var db := Run(p, Blank(), calls);
    ReadBack.RebuildLandsExactly(p, db.rec, db.deks, p.classes[cls]);
    ReadBack.RebuildChangesExactly(p, db.rec, db.deks, p.classes[cls], now, k);
  }

  // ---- keys -----------------------------------------------------------------------------------

  /** A key once destroyed is never live again, and a live one is never exchanged for another. */
  lemma KeysNeverReturn(p: Pack, earlier: seq<Call>, later: seq<Call>, s: Scope)
    requires PackSound(p) && SoundRun(p, Blank(), earlier) && SoundRun(p, Run(p, Blank(), earlier), later)
    requires s in Run(p, Blank(), earlier).deks
    ensures
      var a := Run(p, Blank(), earlier);
      var b := Run(p, a, later);
      && s in b.deks
      && (!a.deks[s].Live() ==> !b.deks[s].Live())
      && (b.deks[s].Live() ==> b.deks[s] == a.deks[s])
      && (!b.deks[s].Live() ==> b.deks[s].opWrap == NoWrap && b.deks[s].recWrap == NoWrap)
  {
    ReachableInv(p, earlier);
    var a := Run(p, Blank(), earlier);
    RunKeeps(p, a, later);
    var b := Run(p, a, later);
    assert DekOnward(a.deks[s], b.deks[s]) && DekOk(s, b.deks[s]);
  }

  /** Whose key is live when: a subject's until the erasure, a task's until the decision, an invitation's until its use. */
  lemma KeyLifecycle(p: Pack, calls: seq<Call>, id: Id)
    requires PackSound(p) && SoundRun(p, Blank(), calls)
    ensures
      var db := Run(p, Blank(), calls);
      && (SubjectKey(id) in db.deks ==>
            id in db.rec.objects && (db.deks[SubjectKey(id)].Live() <==> !db.rec.objects[id].erased))
      && (KeyLive(db.deks, TaskKey(id)) ==> id in db.tasks && !Terminal(db.tasks[id].state))
      && (id in db.tasks && db.tasks[id].payload.enc.Some? ==>
            (KeyLive(db.deks, TaskKey(id)) <==> !Terminal(db.tasks[id].state)))
      && (InviteKey(id) in db.deks && db.deks[InviteKey(id)].Live() ==>
            id in db.people.invites && db.people.invites[id].usedBy == "" && !db.people.invites[id].revoked)
  {
    ReachableInv(p, calls);
    var db := Run(p, Blank(), calls);
    if SubjectKey(id) in db.deks {
      assert SubjectOwned(p, db.rec.objects, SubjectKey(id)) && ObjectOk(p, db.rec, db.deks, id);
    }
    if TaskKey(id) in db.deks {
      TaskKnown(p, db, TaskKey(id).taskId);
    } else if id in db.tasks {
      TaskKnown(p, db, id);
    }
    assert InviteLocal(db.people, db.deks, id);
  }

  // ---- retention ----------------------------------------------------------------------------------

  /**
   No head is ever pruned; a pruned version was superseded and past its policy's window when it was
   pruned, which one mark records; and the counts under every policy are equal.
   */
  lemma RetentionSparesThePresent(p: Pack, calls: seq<Call>, k: (Id, nat), policy: string)
    requires PackSound(p) && SoundRun(p, Blank(), calls)
    ensures
      var rec := Run(p, Blank(), calls).rec;
      && |R.PrunedBy(rec, policy)| == |R.MarksBy(rec, policy)|
      && (k in rec.versions && rec.versions[k].pruned ==>
            && k.0 in rec.objects && k.1 < rec.objects[k.0].head
            && exists i :: i in rec.marks && R.Names(rec.marks[i], k) && rec.marks[i].policy == rec.versions[k].policy
                 && rec.marks[i].policy in p.policies && p.policies[rec.marks[i].policy].cls == rec.objects[k.0].cls
                 && rec.versions[k].createdAt < R.Horizon(p.policies[rec.marks[i].policy], rec.marks[i].at))
  {
    ReachableInv(p, calls);
    var rec := Run(p, Blank(), calls).rec;
    R.RetentionConserves(p, rec, policy);
    if k in rec.versions && rec.versions[k].pruned {
      var i :| i in rec.marks && R.Names(rec.marks[i], k);
      assert R.MarkOk(p, rec, rec.marks[i]);
    }
  }

  // ---- workflow --------------------------------------------------------------------------------------

  /**
   In every reachable state: an approved proposal was approved by exactly one entry of the log, by
   somebody else than its proposer or by policy when the workflow asks for independence, and after
   an earlier entry in which its named counterparty accepted it, when it has one.
   */
  lemma ApprovedProposals(p: Pack, calls: seq<Call>, t: Id)
    requires PackSound(p) && SoundRun(p, Blank(), calls)
    ensures
      var db := Run(p, Blank(), calls);
      t in db.tasks ==>
        && db.tasks[t].workflow in p.workflows
        && (db.tasks[t].state.Approved? <==> ApprovedIn(db.log, t))
        && (forall i, j :: 0 <= i < j < |db.log| ==> !(Approves(db.log[i], t) && Approves(db.log[j], t)))
        && (db.tasks[t].state.Approved? ==>
              var wf := p.workflows[db.tasks[t].workflow];
              && (wf.independence ==> db.tasks[t].decidedBy == POLICY || db.tasks[t].decidedBy != db.tasks[t].proposer)
              && (wf.counterpartyField.Some? ==> AcceptedFirst(db.log, t, db.tasks[t].counterparty)))
  {
    ReachableInv(p, calls);
    var db := Run(p, Blank(), calls);
    if t in db.tasks {
      TaskKnown(p, db, t);
    }
  }

  /** A decided proposal stays as it was decided, whatever is done after. */
  lemma DecisionsAreFinal(p: Pack, earlier: seq<Call>, later: seq<Call>, t: Id)
    requires PackSound(p) && SoundRun(p, Blank(), earlier) && SoundRun(p, Run(p, Blank(), earlier), later)
    ensures
      var a := Run(p, Blank(), earlier);
      var b := Run(p, a, later);
      t in a.tasks && Terminal(a.tasks[t].state) ==> t in b.tasks && b.tasks[t] == a.tasks[t]
  {
    ReachableInv(p, earlier);
    var a := Run(p, Blank(), earlier);
    RunKeeps(p, a, later);
    if t in a.tasks {
      assert TaskOnward(a.tasks[t], Run(p, a, later).tasks[t]);
    }
  }

  /** While a proposal is undecided, opening it says what opening it said when it was made, whatever happened between. */
  lemma ProposalReadsBack(p: Pack, earlier: seq<Call>, later: seq<Call>, t: Id, cleared: bool)
    requires PackSound(p) && SoundRun(p, Blank(), earlier) && SoundRun(p, Run(p, Blank(), earlier), later)
    requires
      var a := Run(p, Blank(), earlier);
      var b := Run(p, a, later);
      t in a.tasks && t in b.tasks && !Terminal(b.tasks[t].state)
    ensures
      var a := Run(p, Blank(), earlier);
      var b := Run(p, a, later);
      && OpenProposal(b.deks, cleared, t, b.tasks[t].payload) == OpenProposal(a.deks, cleared, t, a.tasks[t].payload)
      && OpenProposal(b.deks, cleared, t, b.tasks[t].payload).Ok?
      && (cleared ==> !OpenProposal(b.deks, cleared, t, b.tasks[t].payload).value.redacted)
  {
    ReachableInv(p, earlier);
    var a := Run(p, Blank(), earlier);
    RunKeeps(p, a, later);
    var b := Run(p, a, later);
    assert TaskOnward(a.tasks[t], b.tasks[t]);
    TaskKnown(p, a, t);
    TaskKnown(p, b, t);
    OpensAlike(a.deks, b.deks, t, a.tasks[t].payload, cleared);
  }

  lemma OpensAlike(deks: map<Scope, Dek>, now: map<Scope, Dek>, t: Id, stored: Stored, cleared: bool)
    requires SealedOk(deks, t, stored) && SealedOk(now, t, stored)
    requires stored.enc.Some? ==> KeyLive(deks, TaskKey(t)) && KeyLive(now, TaskKey(t))
    ensures OpenProposal(now, cleared, t, stored) == OpenProposal(deks, cleared, t, stored)
    ensures OpenProposal(now, cleared, t, stored).Ok?
    ensures cleared ==> !OpenProposal(now, cleared, t, stored).value.redacted
  {
  }

  /** A proposal just made opens as what was proposed. */
  lemma ProposalOpens(
    p: Pack, db: Db, who: Principal, name: string, req: Request, taskId: Id, minted: Key, w: WriteCtx, plan: Planned)
    requires PackSound(p) && Inv(p, db) && taskId !in db.tasks
    requires PlanProposal(p, db, who, name, req, taskId, minted, w) == Ok(plan)
    ensures
      var after := Apply(db, TxOf(p, plan), plan.ops);
      && after.Some? && taskId in after.value.tasks
      && OpenProposal(after.value.deks, true, taskId, after.value.tasks[taskId].payload) == Ok(Opened(req.payload, false))
  {
    var task := ProposalParts(p, db, who, name, req, taskId, minted, w, plan);
    ProposalLands(db, TxOf(p, plan), w, ProposalPii(p, p.workflows[name]), taskId, req.payload, minted, task);
  }

  /** The person, if any, a call would approve this proposal as. */
  function Approver(c: Call, t: Id): Option<Principal> {
    match c.act
    case Decide(who, taskId, approve, _) => if approve && taskId == t then Some(who) else None
    case PolicyApproval(taskId, _) => if taskId == t then Some(PolicyPrincipal()) else None
    case _ => None
  }

  function SupplyOf(c: Call): seq<Minted> {
    match c.act
    case Decide(_, _, _, supply) => supply
    case PolicyApproval(_, supply) => supply
    case _ => []
  }

  lemma QuietInvitations(p: Pack, db: Db, c: Call, plan: Planned)
    requires Plan(p, db, c) == Ok(plan) && AboutInvitations(c.act)
    ensures MovesNothing(plan.ops)
  {
    match c.act
    case Invite(_, _, _, recipient, id, _, minted) => QuietSealing(db.deks, CtxOf(c), id, recipient, minted);
    case WithdrawInvitation(_, id) => ForgetPlain(db, id, c.at);
    case Redeem(_, id, _) => ForgetPlain(db, id, c.at);
    case Remind(id) =>
    case Expire(id) => ForgetPlain(db, id, c.at);
  }

  lemma QuietSealing(deks: map<Scope, Dek>, w: WriteCtx, id: Id, recipient: Option<Payload>, minted: Key)
    requires SealRecipient(deks, w, id, recipient, minted).Ok?
    ensures MovesNothing(SealRecipient(deks, w, id, recipient, minted).value)
  {
  }

  lemma QuietPeople(p: Pack, db: Db, c: Call, plan: Planned)
    requires Plan(p, db, c) == Ok(plan) && AboutPeople(c.act)
    ensures MovesNothing(plan.ops)
  {
    if AboutInvitations(c.act) {
      QuietInvitations(p, db, c, plan);
    } else if c.act.Grant? {
      assert plan.ops == [plan.ops[0]];
    }
  }

  /** No plan but an approval's has an approving entry. */
  lemma QuietPlans(p: Pack, db: Db, c: Call, plan: Planned)
    requires Plan(p, db, c) == Ok(plan)
    requires !c.act.Decide? && !c.act.PolicyApproval? && !c.act.Respond? && !c.act.Withdraw?
    ensures MovesNothing(plan.ops)
  {
    if AboutPeople(c.act) {
      QuietPeople(p, db, c, plan);
    } else {
      match c.act
      case Seed(_, _, _, _) => BatchPlain(p, db, CtxOf(c), SeedDrafts(p, c.act).value);
      case Prune(_, policyId, _, rows) => PruneOpsPlain(p.policies[policyId], c.at, rows, 0);
      case Erase(_, o, policyId) => ErasePlain(p, db, o, policyId, c.at);
      case Propose(who, name, req, taskId, minted) =>
        var task := ProposalParts(p, db, who, name, req, taskId, minted, CtxOf(c), plan);
    }
  }

  lemma ApprovingPlan(p: Pack, db: Db, c: Call, plan: Planned, t: Id)
    requires Plan(p, db, c) == Ok(plan) && Approves(TxOf(p, plan), t)
    ensures Approver(c, t).Some?
    ensures t in db.tasks && db.tasks[t].workflow in p.workflows && db.tasks[t].state.AwaitingReview?
    ensures
      PlanApproval(p, db, Approver(c, t).value, p.workflows[db.tasks[t].workflow], t, SupplyOf(c), c.message, CtxOf(c)) == Ok(plan)
  {
    var change :| Moves(TxOf(p, plan), t, change) && change.state.Approved?;
    assert MoveTask(t, change) in plan.ops;
    if !c.act.Decide? && !c.act.PolicyApproval? && !c.act.Respond? && !c.act.Withdraw? {
      QuietPlans(p, db, c, plan);
    } else if c.act.Decide? && c.act.approve {
      ApprovalMoves(p, db, c.act.who, c.act.taskId, c.act.supply, c, plan, t, change);
    } else if c.act.PolicyApproval? {
      ApprovalMoves(p, db, PolicyPrincipal(), c.act.taskId, c.act.supply, c, plan, t, change);
    }
  }

  lemma ApprovalMoves(
    p: Pack, db: Db, who: Principal, taskId: Id, supply: seq<Minted>, c: Call, plan: Planned, t: Id, change: TaskChange)
    requires taskId in db.tasks && db.tasks[taskId].workflow in p.workflows
    requires PlanApproval(p, db, who, p.workflows[db.tasks[taskId].workflow], taskId, supply, c.message, CtxOf(c)) == Ok(plan)
    requires MoveTask(t, change) in plan.ops
    ensures t == taskId
  {
    var s := ApprovalParts(p, db, who, p.workflows[db.tasks[taskId].workflow], taskId, supply, c.message, CtxOf(c), plan);
    BatchPlain(p, db, CtxOf(c), s.drafts);
  }

  /** The state in which a proposal is decided, as its conditions see it. */
  function DecisionContext(p: Pack, db: Db, who: Principal, t: Id, at: int): Context
    requires t in db.tasks
  {
    var seen := OpenProposal(db.deks, true, t, db.tasks[t].payload);
    var payload := if seen.Ok? then seen.value.payload else map[];
    p.context(db, Subject(who.sub, who.acting, t, db.tasks[t].objectId, payload, at))
  }

  /**
   Whenever a step makes a proposal approved, it is an approval of that proposal; in the state it
   was taken in no reject condition failed, and no condition at all when policy took it; and the same
   step has put every one of its effects on record.
   */
  lemma ApprovalJustified(p: Pack, db: Db, c: Call, t: Id)
    requires PackSound(p) && Inv(p, db) && Sound(p, db, c)
    requires t in Step(p, db, c).tasks && Step(p, db, c).tasks[t].state.Approved?
    requires t in db.tasks ==> !db.tasks[t].state.Approved?
    ensures Approver(c, t).Some? && t in db.tasks && db.tasks[t].workflow in p.workflows
    ensures
      var who, wf := Approver(c, t).value, p.workflows[db.tasks[t].workflow];
      var ctx := DecisionContext(p, db, who, t, c.at);
      && NoRejection(p, db, wf.conditions, ctx)
      && (who.sub == POLICY ==> AllHold(p, db, wf.conditions, ctx))
      && (var drafts := ApprovalDrafts(p, db, who, t, SupplyOf(c), CtxOf(c));
          forall i :: 0 <= i < |drafts| ==> Recorded(Step(p, db, c).rec, drafts[i]))
  {
    StepKeeps(p, db, c);
    var plan := StepApproves(p, db, c, t);
    ApprovingPlan(p, db, c, plan, t);
    ApprovalHeld(p, db, c, t, plan);
    ApprovalRecorded(p, db, c, t, plan);
  }

  /** What the conditions said in the state the approval was taken in. */
  lemma ApprovalHeld(p: Pack, db: Db, c: Call, t: Id, plan: Planned)
    requires Approver(c, t).Some? && t in db.tasks && db.tasks[t].workflow in p.workflows
    requires
      PlanApproval(p, db, Approver(c, t).value, p.workflows[db.tasks[t].workflow], t, SupplyOf(c), c.message, CtxOf(c)) == Ok(plan)
    ensures
      var who, wf := Approver(c, t).value, p.workflows[db.tasks[t].workflow];
      var ctx := DecisionContext(p, db, who, t, c.at);
      NoRejection(p, db, wf.conditions, ctx) && (who.sub == POLICY ==> AllHold(p, db, wf.conditions, ctx))
  {
    var who, wf := Approver(c, t).value, p.workflows[db.tasks[t].workflow];
    var s := ApprovalParts(p, db, who, wf, t, SupplyOf(c), c.message, CtxOf(c), plan);
    VerdictMeans(p, db, wf.conditions, DecisionContext(p, db, who, t, c.at));
  }

  /** What the approval put on record. */
  lemma ApprovalRecorded(p: Pack, db: Db, c: Call, t: Id, plan: Planned)
    requires PackSound(p) && Inv(p, db) && Sound(p, db, c) && Plan(p, db, c) == Ok(plan)
    requires Approver(c, t).Some? && t in db.tasks && db.tasks[t].workflow in p.workflows
    requires
      PlanApproval(p, db, Approver(c, t).value, p.workflows[db.tasks[t].workflow], t, SupplyOf(c), c.message, CtxOf(c)) == Ok(plan)
    requires TxOf(p, plan) !in db.log && Apply(db, TxOf(p, plan), plan.ops).Some?
    ensures
      var drafts := ApprovalDrafts(p, db, Approver(c, t).value, t, SupplyOf(c), CtxOf(c));
      forall i :: 0 <= i < |drafts| ==> Recorded(Step(p, db, c).rec, drafts[i])
  {
    var who, wf := Approver(c, t).value, p.workflows[db.tasks[t].workflow];
    var s := ApprovalParts(p, db, who, wf, t, SupplyOf(c), c.message, CtxOf(c), plan);
    ApprovalProper(p, db, who, wf, t, SupplyOf(c), CtxOf(c), s);
    ApprovalRecords(p, db, c, plan, t, who, s);
  }

  lemma ApprovalRecords(p: Pack, db: Db, c: Call, plan: Planned, t: Id, who: Principal, s: Progress)
    requires who.sub != PLACEHOLDER
    requires PackSound(p) && Inv(p, db) && c.at > 0 && Plan(p, db, c) == Ok(plan) && t in db.tasks
    requires FreshIds(db, SupplyOf(c)) && SoundDrafts(p, db, s.drafts)
    requires BuildAll(p, db, CtxOf(c), s.drafts).Ok?
    requires plan.ops ==
      BuildAll(p, db, CtxOf(c), s.drafts).value + ([ApproveMove(t, s.objectId, who, c.at)] + CloseProposal(db.deks, t, c.at))
    requires DraftsProper(p, db, s.drafts)
    requires
      var tx := TxOf(p, plan);
      tx !in db.log && Apply(db, tx, plan.ops).Some?
    ensures forall i :: 0 <= i < |s.drafts| ==> Recorded(Step(p, db, c).rec, s.drafts[i])
  {
    StepIs(p, db, c, plan);
    ApprovalLands(
      p, db, TxOf(p, plan), CtxOf(c), s.drafts, t,
      TaskChange(Approved, c.at, None, Some(s.objectId), Some(who.sub)));
  }

  /** A task newly approved is approved by the entry the step logged. */
  lemma StepApproves(p: Pack, db: Db, c: Call, t: Id) returns (plan: Planned)
    requires Inv(p, db) && Inv(p, Step(p, db, c))
    requires t in Step(p, db, c).tasks && Step(p, db, c).tasks[t].state.Approved?
    requires t in db.tasks ==> !db.tasks[t].state.Approved?
    ensures Plan(p, db, c) == Ok(plan) && Approves(TxOf(p, plan), t)
    ensures
      var tx := TxOf(p, plan);
      tx !in db.log && Apply(db, tx, plan.ops).Some?
  {
    var now := Step(p, db, c);
    TaskKnown(p, now, t);
    ApprovedIsKnown(db.tasks, db.log, t);
    assert now != db;
    plan := Plan(p, db, c).value;
    StepIs(p, db, c, plan);
    LogGrows(db.log, TxOf(p, plan), t, "");
  }

  // ---- membership ---------------------------------------------------------------------------------------

  /** No revocation in the run names a role with a bar in it. */
  ghost predicate NoneBarred(calls: seq<Call>) {
    forall i :: 0 <= i < |calls| ==> !Barred(calls[i])
  }

  lemma {:induction false} AdministratorsStay(p: Pack, db: Db, calls: seq<Call>)
    requires PackSound(p) && Inv(p, db) && SoundRun(p, db, calls) && NoneBarred(calls)
    requires Administrators(p, db.people.members) != {}
    ensures Administrators(p, Run(p, db, calls).people.members) != {}
    decreases |calls|
  {
    if calls != [] {
      StepKeeps(p, db, calls[0]);
      AdministratorsStay(p, Step(p, db, calls[0]), calls[1..]);
    }
  }

  /** Once somebody may manage membership, somebody always may, as long as revocations name plain roles. */
  lemma AdministratorsRemain(p: Pack, earlier: seq<Call>, later: seq<Call>)
    requires PackSound(p) && SoundRun(p, Blank(), earlier) && SoundRun(p, Run(p, Blank(), earlier), later)
    requires NoneBarred(later)
    ensures
      var a := Run(p, Blank(), earlier);
      Administrators(p, a.people.members) != {} ==> Administrators(p, Run(p, a, later).people.members) != {}
  {
    ReachableInv(p, earlier);
    if Administrators(p, Run(p, Blank(), earlier).people.members) != {} {
      AdministratorsStay(p, Run(p, Blank(), earlier), later);
    }
  }

  /** No subject is ever granted two incompatible roles, so resolving granted roles alone is never refused for it. */
  lemma DutiesStaySeparate(p: Pack, calls: seq<Call>, sub: string, granted: seq<string>)
    requires PackSound(p) && SoundRun(p, Blank(), calls)
    requires AllHeld(Run(p, Blank(), calls).people.members, sub, granted)
    ensures !Breach(p, GrantedOf(p, granted))
  {
    ReachableInv(p, calls);
    GrantedNeverBreaches(p, Run(p, Blank(), calls).people.members, sub, granted);
  }

  /**
   An invitation is used or withdrawn and never both, for good; and it is used by somebody exactly when
   one entry of the log spends it for them, the same entry that grants them its role.
   */
  lemma InvitationsSpentOnce(p: Pack, earlier: seq<Call>, later: seq<Call>, id: Id, sub: string)
    requires PackSound(p) && SoundRun(p, Blank(), earlier) && SoundRun(p, Run(p, Blank(), earlier), later)
    requires id in Run(p, Blank(), earlier).people.invites && sub != ""
    ensures
      var a := Run(p, Blank(), earlier);
      var b := Run(p, a, later);
      && id in b.people.invites
      && (a.people.invites[id].usedBy != "" || a.people.invites[id].revoked ==> b.people.invites[id] == a.people.invites[id])
      && !(b.people.invites[id].revoked && b.people.invites[id].usedBy != "")
      && (b.people.invites[id].usedBy == sub <==> SpentIn(b.log, id, sub))
      && (forall i, j, x, y :: 0 <= i < j < |b.log| ==> !(Spends(b.log[i], id, x) && Spends(b.log[j], id, y)))
      && (forall i :: 0 <= i < |b.log| && Spends(b.log[i], id, sub) ==>
            GrantsRole(b.log[i], sub, b.people.invites[id].role))
  {
    ReachableInv(p, earlier);
    var a := Run(p, Blank(), earlier);
    RunKeeps(p, a, later);
    var b := Run(p, a, later);
    assert InviteOnward(a.people.invites[id], b.people.invites[id]);
    assert InviteLocal(b.people, b.deks, id);
    if SpentIn(b.log, id, sub) {
      var i :| 0 <= i < |b.log| && Spends(b.log[i], id, sub);
      assert SpendRecorded(b.people.invites, b.log[i], id, sub);
    }
    forall i | 0 <= i < |b.log| && Spends(b.log[i], id, sub)
      ensures GrantsRole(b.log[i], sub, b.people.invites[id].role)
    {
      assert SpendRecorded(b.people.invites, b.log[i], id, sub);
    }
  }

  /** A person whose key was destroyed reads as erased from then on, whatever anybody asserts about them later. */
  lemma ErasedPeopleStayErased(p: Pack, earlier: seq<Call>, later: seq<Call>, sub: string)
    requires PackSound(p) && SoundRun(p, Blank(), earlier) && SoundRun(p, Run(p, Blank(), earlier), later)
    requires
      var a := Run(p, Blank(), earlier);
      PersonKey(sub) in a.deks && !a.deks[PersonKey(sub)].Live()
    ensures
      var b := Run(p, Run(p, Blank(), earlier), later);
      OpenProfile(b, sub).Ok? && OpenProfile(b, sub).value.erased &&
      OpenProfile(b, sub).value.email == "" && OpenProfile(b, sub).value.name == ""
  {
    KeysNeverReturn(p, earlier, later, PersonKey(sub));
    ReachableInv(p, earlier);
    RunKeeps(p, Run(p, Blank(), earlier), later);
    assert ProfileLocal(Run(p, Run(p, Blank(), earlier), later).people, Run(p, Run(p, Blank(), earlier), later).deks, sub);
  }
}
