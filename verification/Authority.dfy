/**
 Who may do what, what seeding does, and what keys a step makes: for every action, what a call that acts has
 shown (`internal/auth/rbac.go`, and the guards of `internal/register`).
 */
module Authority {
  import opened Outcomes
  import opened Tables
  import opened Packs
  import opened RecordBuild
  import opened RecordInvariant
  import opened Batch
  import opened History
  import opened Workflows
  import opened Approval
  import opened MembershipSafety
  import opened Runs
  import opened RunSafety
  import Retries
  import opened EffectMeanings
  import opened TaskMeanings
  import opened RecordMeanings
  import opened PeopleMeanings
  import opened RetentionMeanings
  import R = RetentionPolicy

  // ---- seeding ---------------------------------------------------------------------------------

  /** A key for the scope can be had: it was never made, or it is live and wraps under it. */
  predicate KeyObtainable(deks: map<Scope, Dek>, s: Scope) {
    s in deks ==> deks[s].Live() && deks[s].opWrap.Wrapped? && deks[s].opWrap.scope == s
  }

  /** What a build asks of a change: schema, references, a key to seal with and a natural key nobody else has. */
  ghost predicate Buildable(p: Pack, db: Db, c: Class, o: Id, payload: Payload) {
    && p.accepts(c.name, payload)
    && (forall prop :: prop in c.references && prop in payload ==> Resolves(p, db.rec.objects, c, payload, prop))
    && (!c.encryption.EncNone? ==> KeyObtainable(db.deks, SealedUnder(c, o)))
    && (c.naturalKey != "" ==>
          var key := if c.naturalKey in payload then p.sprint(payload[c.naturalKey]) else o;
          forall q :: q in db.rec.objects && q != o && db.rec.objects[q].cls == c.name ==> db.rec.objects[q].naturalKey != key)
  }

  lemma ReferencesExactly(p: Pack, objects: map<Id, ObjectRow>, c: Class, payload: Payload)
    ensures ReferencesOk(p, objects, map[], c, payload) <==>
      forall prop :: prop in c.references && prop in payload ==> Resolves(p, objects, c, payload, prop)
  {
    if forall prop :: prop in c.references && prop in payload ==> Resolves(p, objects, c, payload, prop) {
      forall prop | prop in c.references && prop in payload
        ensures ReferenceOk(p, objects, map[], payload[prop], c.references[prop])
      {
        assert Resolves(p, objects, c, payload, prop);
      }
    } else {
      var prop :| prop in c.references && prop in payload && !Resolves(p, objects, c, payload, prop);
      assert !ReferenceOk(p, objects, map[], payload[prop], c.references[prop]);
    }
  }

  /** A change is built exactly when these checks pass. */
  lemma BuildsExactly(p: Pack, db: Db, w: WriteCtx, d: Draft)
    requires w.pending == map[]
    ensures BuildRecord(p, db, w, d).Ok? <==> Buildable(p, db, d.cls, d.objectId, d.payload)
  {
    ReferencesExactly(p, db.rec.objects, d.cls, d.payload);
    assert SealedUnder(d.cls, d.objectId) == DekScope(d.cls, d.objectId);
  }

  ghost predicate MaySeed(p: Pack, db: Db, a: Act)
    requires a.Seed?
  {
    && a.cls in p.classes && InitialStatus(p, a.cls, a.status) in p.classes[a.cls].statuses
    && Buildable(p, db, p.classes[a.cls], a.m.objectId, a.payload)
  }

  lemma SeedExactly(p: Pack, db: Db, c: Call)
    requires c.act.Seed?
    ensures Plan(p, db, c).Ok? <==> MaySeed(p, db, c.act)
    ensures Plan(p, db, c).Ok? ==>
      var a, d := c.act, Draft(p.classes[c.act.cls], c.act.m.objectId, 1, InitialStatus(p, c.act.cls, c.act.status), c.act.payload, c.act.m.key);
      && SeedDrafts(p, a) == Ok([d]) && BuildAll(p, db, CtxOf(c), [d]).Ok?
      && Plan(p, db, c).value == Planned(
          Envelope(RecordCreate, "seed", c.at, a.m.objectId, c.message), BuildAll(p, db, CtxOf(c), [d]).value)
  {
    var a := c.act;
    if a.cls in p.classes {
      var d := Draft(p.classes[a.cls], a.m.objectId, 1, InitialStatus(p, a.cls, a.status), a.payload, a.m.key);
      BuildsExactly(p, db, CtxOf(c), d);
      assert [d][1..] == [] && BuildAll(p, db, After(CtxOf(c), d), []) == Ok([]);
    }
  }

  /** What seeding adds: one new record, and nothing else. */
  ghost predicate Seeded(p: Pack, db: Db, now: Db, a: Act, at: int)
    requires a.Seed?
  {
    && now == db.(rec := now.rec, deks := now.deks, log := now.log) && now.log != []
    && VersionAdded(
         db.rec, now.rec, Latest(now), at,
         Wish(true, a.m.objectId, a.cls, a.payload, InitialStatus(p, a.cls, a.status)))
    && (forall o :: o != a.m.objectId ==> SameObject(db.rec.objects, now.rec.objects, o))
  }

  lemma SeedDone(p: Pack, db: Db, tx: TxId, w: WriteCtx, d: Draft)
    requires ClassesOk(p.classes) && RecordsOk(p, db.rec, db.deks) && d.objectId !in db.rec.objects && d.version == 1
    requires d.cls.name in p.classes && p.classes[d.cls.name] == d.cls && d.status in d.cls.statuses && w.pending == map[]
    requires SoundDrafts(p, db, [d]) && BuildAll(p, db, w, [d]).Ok? && Apply(db, tx, BuildAll(p, db, w, [d]).value).Some?
    requires R.MarksOk(p, db.rec)
    ensures
      var after := Apply(db, tx, BuildAll(p, db, w, [d]).value).value;
      && after == db.(rec := after.rec, deks := after.deks)
      && VersionAdded(db.rec, after.rec, tx, w.at, Wish(true, d.objectId, d.cls.name, d.payload, d.status))
      && (forall o :: o != d.objectId ==> SameObject(db.rec.objects, after.rec.objects, o))
  {
    var after := Apply(db, tx, BuildAll(p, db, w, [d]).value).value;
    SoundBatchLands(p, db, tx, w, [d]);
    BatchRows(p, db, tx, w, [d]);
    assert RowLanded(p, db, after.rec, tx, w, [d][0]);
    GrantedAdds(p, db, after.rec, tx, w, d, Wish(true, d.objectId, d.cls.name, d.payload, d.status));
    forall o | o != d.objectId
      ensures SameObject(db.rec.objects, after.rec.objects, o)
    {
      assert !Addressed([d], o);
    }
  }

  /** Seeding a record adds it as it was given. */
  lemma SeedMeans(p: Pack, db: Db, c: Call)
    requires PackSound(p) && RecordSide(p, db) && Sound(p, db, c) && c.act.Seed?
    ensures Acts(p, db, c) ==>
      && MaySeed(p, db, c.act)
      && Entered(db, Step(p, db, c), Envelope(RecordCreate, "seed", c.at, c.act.m.objectId, c.message))
      && Seeded(p, db, Step(p, db, c), c.act, c.at)
  {
    SeedExactly(p, db, c);
    if Acts(p, db, c) {
      var plan := ActsBy(p, db, c);
      SeedDone(p, db, TxOf(p, plan), CtxOf(c), SeedDrafts(p, c.act).value[0]);
    }
  }

  // ---- every action ----------------------------------------------------------------------------------

  /** What a call that acts has shown of whoever made it. */
  ghost predicate Authorised(p: Pack, db: Db, c: Call) {
    match c.act
    case Seed(_, _, _, _) => MaySeed(p, db, c.act)
    case Propose(who, name, req, t, _) => MayPropose(p, db, who, name, req, t, c.at)
    case Respond(who, t, _) => MayAnswer(p, db, who, t)
    case Decide(who, t, _, _) => MayDecide(p, db, who, t)
    case PolicyApproval(t, _) => MayApprove(p, db, c, t)
    case Withdraw(who, t) => MayWithdraw(db, who, t)
    case Prune(_, _, _, _) => MayPrune(p, db, c.act, c.at)
    case Erase(who, o, policyId) => MayErase(p, db, who, o, policyId)
    case Grant(actor, sub, role) => Manages(actor) && sub != "" && MayHold(p, db.people.members, sub, role)
    case Revoke(who, sub, role) => MayRevoke(p, db, who, sub, role)
    case Invite(actor, role, validFor, _, _, _, _) => MayInvite(p, actor, role, validFor)
    case WithdrawInvitation(who, id) => MayWithdrawInvitation(db, who, id, c.at)
    case Redeem(sub, id, secret) => MayRedeem(p, db, sub, id, secret, c.at)
    case Remind(id) => id in db.people.recipients
    case Expire(id) => RanOut(db, id, c.at)
    case SeeIdentity(_, _, _, _) => SaysNew(db, c.act)
    case EraseProfile(who, sub, reason) => MayEraseProfile(db, who, sub, reason)
  }

  lemma TasksAuthorised(p: Pack, db: Db, c: Call, plan: Planned)
    requires PackSound(p) && Inv(p, db) && Sound(p, db, c) && AboutTasks(c.act)
    requires Plan(p, db, c) == Ok(plan)
    ensures Authorised(p, db, c)
  {
    if c.act.Propose? {
      ProposeMeans(p, db, c);
    } else if c.act.Respond? {
      AnswerExactly(p, db, c);
    } else if c.act.Withdraw? {
      WithdrawExactly(p, db, c);
    } else {
      DecisionsAuthorised(p, db, c, plan);
    }
  }

  lemma DecisionsAuthorised(p: Pack, db: Db, c: Call, plan: Planned)
    requires (c.act.Decide? || c.act.PolicyApproval?) && Plan(p, db, c) == Ok(plan)
    ensures Authorised(p, db, c)
  {
    if c.act.Decide? {
      DecisionMay(p, db, c.act.who, c.act.taskId, c.act.approve, c.act.supply, c.message, CtxOf(c));
    } else {
      ApproverMay(p, db, c, c.act.taskId, plan);
    }
  }

  lemma DecisionMay(
    p: Pack, db: Db, who: Principal, t: Id, approve: bool, supply: seq<Minted>, message: string, w: WriteCtx)
    requires PlanDecision(p, db, who, t, approve, supply, message, w).Ok?
    ensures MayDecide(p, db, who, t)
  {
  }

  lemma RecordsAuthorised(p: Pack, db: Db, c: Call, plan: Planned)
    requires Sound(p, db, c) && (c.act.Seed? || c.act.Prune? || c.act.Erase?)
    requires Plan(p, db, c) == Ok(plan)
    ensures Authorised(p, db, c)
  {
    if c.act.Seed? {
      SeedExactly(p, db, c);
    } else if c.act.Prune? {
      PruneExactly(p, db, c);
    } else {
      EraseExactly(p, db, c);
    }
  }

  lemma PeopleAuthorised(p: Pack, db: Db, c: Call, plan: Planned)
    requires Inv(p, db) && Sound(p, db, c) && AboutPeople(c.act) && !c.act.Remind?
    requires Plan(p, db, c) == Ok(plan)
    ensures Authorised(p, db, c)
  {
    if AboutInvitations(c.act) {
      InvitationsAuthorised(p, db, c, plan);
    } else if c.act.Grant? {
      GrantExactly(p, db, c);
    } else if c.act.Revoke? {
      RevokeExactly(p, db, c);
    } else if c.act.SeeIdentity? {
      var e := SeePlanned(p, db, c, plan);
    } else {
      assert ProfileLocal(db.people, db.deks, c.act.sub);
      EraseProfileExactly(p, db, c);
    }
  }

  lemma InvitationsAuthorised(p: Pack, db: Db, c: Call, plan: Planned)
    requires Inv(p, db) && Sound(p, db, c) && AboutInvitations(c.act) && !c.act.Remind?
    requires Plan(p, db, c) == Ok(plan)
    ensures Authorised(p, db, c)
  {
    if c.act.Invite? {
      InviteMeans(p, db, c);
    } else if c.act.WithdrawInvitation? {
      WithdrawInvitationExactly(p, db, c);
    } else if c.act.Redeem? {
      RedeemExactly(p, db, c);
    } else {
      assert InviteLocal(db.people, db.deks, c.act.id);
      ExpireExactly(p, db, c);
    }
  }

  /**
   Whatever call acts, in whatever state, has shown what its action asks for: the permission, the role, the party, the
   secret, the state things are in. A call that has not changes nothing.
   */
  lemma NothingUnauthorised(p: Pack, db: Db, c: Call)
    requires PackSound(p) && Inv(p, db) && Sound(p, db, c)
    ensures Acts(p, db, c) ==> Authorised(p, db, c)
    ensures !Authorised(p, db, c) ==> Step(p, db, c) == db
  {
    StillOrActs(p, db, c);
    if Acts(p, db, c) {
      var plan := ActsBy(p, db, c);
      if c.act.Remind? {
        RemindMeans(p, db, c);
      } else if AboutPeople(c.act) {
        PeopleAuthorised(p, db, c, plan);
      } else if AboutTasks(c.act) {
        TasksAuthorised(p, db, c, plan);
      } else {
        RecordsAuthorised(p, db, c, plan);
      }
    }
  }

  /** In every reachable state a redemption goes through exactly for whoever presents the secret, in time, and may hold the role. */
  lemma SecretOpens(p: Pack, calls: seq<Call>, c: Call)
    requires PackSound(p) && SoundRun(p, Blank(), calls) && Sound(p, Run(p, Blank(), calls), c) && c.act.Redeem?
    ensures
      var db := Run(p, Blank(), calls);
      Acts(p, db, c) <==> MayRedeem(p, db, c.act.sub, c.act.id, c.act.secret, c.at)
  {
    var db := Run(p, Blank(), calls);
    ReachableInv(p, calls);
    RedeemMeans(p, db, c);
    RedeemExactly(p, db, c);
    if Plan(p, db, c).Ok? {
      Retries.NeverSwallowed(p, calls, c);
    }
  }
}
