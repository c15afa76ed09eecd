/**
 What is done about members, invitations and profiles (`internal/register/members.go`, `invite_mail.go`,
 `identities.go`), said of the rows before and after, of who asked and of what was asked, without the planning that
 gets there.
 */
module PeopleMeanings {
  import opened Outcomes
  import opened Tables
  import opened Packs
  import opened RecordBuild
  import opened RecordInvariant
  import opened History
  import opened Workflows
  import opened WorkflowSafety
  import opened Approval
  import opened Membership
  import opened MembershipSafety
  import opened Runs
  import opened PeopleSteps
  import opened RunSafety
  import Canon

  // ---- who may manage members ---------------------------------------------------------------

  /** The deployer, or somebody who may manage members. */
  predicate Manages(actor: Option<Principal>) {
    actor.Some? ==> "members" in actor.value.perms
  }

  function Author(actor: Option<Principal>): string {
    if actor.Some? then actor.value.sub else "configure"
  }

  /** Neither role may be held with the other. */
  predicate Excluded(p: Pack, a: string, b: string) {
    (a in p.roles && b in p.roles[a].incompatible) || (b in p.roles && a in p.roles[b].incompatible)
  }

  /** A declared role, which the subject does not hold and may hold beside what it does. */
  predicate MayHold(p: Pack, members: map<string, MemberRow>, sub: string, role: string) {
    role in p.roles
    && forall id :: id in members && members[id].sub == sub ==> members[id].role != role && !Excluded(p, role, members[id].role)
  }

  lemma HoldsExactly(p: Pack, members: map<string, MemberRow>, sub: string, role: string)
    ensures MayHold(p, members, sub, role) <==> role in p.roles && forall id :: id in members ==> !Bars(p, members[id], sub, role)
  {
  }

  /** The state with another member table, and one entry more. */
  ghost predicate MembersChanged(db: Db, now: Db, members: map<string, MemberRow>) {
    now == db.(people := db.people.(members := members), log := now.log)
  }

  function IdOf(p: Pack, sub: string, role: string): string {
    p.tenant + "|" + sub + "|" + role
  }

  lemma GrantExactly(p: Pack, db: Db, c: Call)
    requires c.act.Grant?
    ensures Plan(p, db, c).Ok? <==>
      Manages(c.act.actor) && c.act.sub != "" && MayHold(p, db.people.members, c.act.sub, c.act.role)
    ensures Plan(p, db, c).Ok? ==> Plan(p, db, c).value == Planned(
      Envelope(MemberGrant, Author(c.act.actor), c.at, IdOf(p, c.act.sub, c.act.role), c.message),
      [Ppl(PutMember(IdOf(p, c.act.sub, c.act.role), MemberRow(c.act.sub, c.act.role, Author(c.act.actor), c.at)))])
  {
    HoldsExactly(p, db.people.members, c.act.sub, c.act.role);
    var put := Ppl(PutMember(IdOf(p, c.act.sub, c.act.role), MemberRow(c.act.sub, c.act.role, Author(c.act.actor), c.at)));
    assert [put] + [] == [put];
  }

  /** A grant is let through exactly when a manager asks for what the subject may hold, and adds that row. */
  lemma GrantMeans(p: Pack, db: Db, c: Call)
    requires c.act.Grant? && PLACEHOLDER !in Persons(c.act)
    ensures Acts(p, db, c) ==>
      var a, now := c.act, Step(p, db, c);
      && Manages(a.actor) && a.sub != "" && MayHold(p, db.people.members, a.sub, a.role)
      && Entered(db, now, Envelope(MemberGrant, Author(a.actor), c.at, IdOf(p, a.sub, a.role), c.message))
      && MembersChanged(db, now, db.people.members[IdOf(p, a.sub, a.role) := MemberRow(a.sub, a.role, Author(a.actor), c.at)])
  {
    GrantExactly(p, db, c);
    if Acts(p, db, c) {
      var plan := ActsBy(p, db, c);
      ApplySingle(db, TxOf(p, plan), plan.ops[0]);
    }
  }

  /** Somebody else administers. */
  predicate SomebodyElse(p: Pack, members: map<string, MemberRow>, sub: string) {
    exists id :: id in members && members[id].sub != sub && members[id].role in p.roles
      && "members" in p.roles[members[id].role].permissions
  }

  lemma OthersExactly(p: Pack, members: map<string, MemberRow>, sub: string)
    ensures |Administrators(p, members) - {sub}| == 0 <==> !SomebodyElse(p, members, sub)
  {
    var others := Administrators(p, members) - {sub};
    if SomebodyElse(p, members, sub) {
      var id :| id in members && members[id].sub != sub && members[id].role in p.roles
        && "members" in p.roles[members[id].role].permissions;
      assert members[id].sub in others;
    }
    if others != {} {
      var s :| s in others;
      var id :| id in members && Administers(p, members[id].role) && members[id].sub == s;
    }
  }

  /** A manager may take a row away, unless the role named is one through which nobody else administers. */
  predicate MayRevoke(p: Pack, db: Db, who: Principal, sub: string, role: string) {
    && "members" in who.perms && IdOf(p, sub, role) in db.people.members
    && (role in p.roles && "members" in p.roles[role].permissions ==> SomebodyElse(p, db.people.members, sub))
  }

  lemma RevokeExactly(p: Pack, db: Db, c: Call)
    requires c.act.Revoke?
    ensures Plan(p, db, c).Ok? <==> MayRevoke(p, db, c.act.who, c.act.sub, c.act.role)
    ensures Plan(p, db, c).Ok? ==> Plan(p, db, c).value == Planned(
      Envelope(MemberRevoke, c.act.who.sub, c.at, IdOf(p, c.act.sub, c.act.role), c.message),
      [Ppl(DropMember(IdOf(p, c.act.sub, c.act.role)))])
  {
    OthersExactly(p, db.people.members, c.act.sub);
  }

  lemma RevokeMeans(p: Pack, db: Db, c: Call)
    requires c.act.Revoke?
    ensures Acts(p, db, c) ==>
      var a, now := c.act, Step(p, db, c);
      && MayRevoke(p, db, a.who, a.sub, a.role)
      && Entered(db, now, Envelope(MemberRevoke, a.who.sub, c.at, IdOf(p, a.sub, a.role), c.message))
      && MembersChanged(db, now, db.people.members - {IdOf(p, a.sub, a.role)})
  {
    RevokeExactly(p, db, c);
    if Acts(p, db, c) {
      var plan := ActsBy(p, db, c);
      ApplySingle(db, TxOf(p, plan), plan.ops[0]);
    }
  }

  // ---- invitations ------------------------------------------------------------------------------

  /** How long an invitation is good for: two weeks unless asked otherwise, a month at most. */
  function Lifetime(validFor: int): int {
    if validFor <= 0 then 14 * 24 * 3600 else validFor
  }

  predicate MayInvite(p: Pack, actor: Option<Principal>, role: string, validFor: int) {
    Manages(actor) && role in p.roles && Lifetime(validFor) <= 30 * 24 * 3600
  }

  /** One scope's key may have changed, and no other. */
  ghost predicate KeysBut(deks: map<Scope, Dek>, now: map<Scope, Dek>, s: Scope) {
    forall t :: t != s ==> (t in now <==> t in deks) && (t in deks ==> now[t] == deks[t])
  }

  /** A recipient on file, sealed under the invitation's own live key. */
  predicate RecipientSealed(ppl: People, deks: map<Scope, Dek>, id: Id, data: Payload) {
    && id in ppl.recipients && ppl.recipients[id].scope == InviteKey(id) && ppl.recipients[id].remindedAt == 0
    && ppl.recipients[id].sealed.Some? && ppl.recipients[id].sealed.value.data == data
    && ppl.recipients[id].sealed.value.scope == InviteKey(id) && ppl.recipients[id].sealed.value.owner == id
    && InviteKey(id) in deks && deks[InviteKey(id)].Live()
    && deks[InviteKey(id)].opWrap == Wrapped(InviteKey(id), ppl.recipients[id].sealed.value.key)
  }

  ghost predicate Invited(db: Db, now: Db, a: Act, at: int)
    requires a.Invite?
  {
    && now == db.(people := db.people.(invites := now.people.invites, recipients := now.people.recipients),
                  deks := now.deks, log := now.log)
    && now.people.invites == db.people.invites[a.id := InviteRow(
         a.role, a.secret, Author(a.actor), at, at + Lifetime(a.validFor), "", 0, false)]
    && KeysBut(db.deks, now.deks, InviteKey(a.id))
    && (if a.recipient.None? then now.people.recipients == db.people.recipients && now.deks == db.deks
        else
          && RecipientSealed(now.people, now.deks, a.id, a.recipient.value)
          && now.people.recipients == db.people.recipients[a.id := now.people.recipients[a.id]])
  }

  lemma FreshInviteKey(p: Pack, db: Db, id: Id)
    requires SealsOk(db.people, db.deks) && id !in db.people.invites
    ensures InviteKey(id) !in db.deks && id !in db.people.recipients
  {
    assert InviteLocal(db.people, db.deks, id);
  }

  lemma InviteExactly(p: Pack, db: Db, c: Call)
    requires c.act.Invite? && InviteKey(c.act.id) !in db.deks
    ensures Plan(p, db, c).Ok? <==> MayInvite(p, c.act.actor, c.act.role, c.act.validFor)
    ensures Plan(p, db, c).Ok? ==>
      var a := c.act;
      && SealRecipient(db.deks, CtxOf(c), a.id, a.recipient, a.minted).Ok?
      && Plan(p, db, c).value == Planned(
        Envelope(InviteCreate, Author(a.actor), c.at, a.id, c.message),
        [Ppl(PutInvite(a.id, InviteRow(a.role, a.secret, Author(a.actor), c.at, c.at + Lifetime(a.validFor), "", 0, false)))]
        + SealRecipient(db.deks, CtxOf(c), a.id, a.recipient, a.minted).value)
  {
  }

  lemma SealLands(db: Db, tx: TxId, w: WriteCtx, id: Id, recipient: Option<Payload>, minted: Key)
    requires InviteKey(id) !in db.deks && SealRecipient(db.deks, w, id, recipient, minted).Ok?
    ensures
      var after := Apply(db, tx, SealRecipient(db.deks, w, id, recipient, minted).value);
      && after.Some? && KeysBut(db.deks, after.value.deks, InviteKey(id))
      && after.value == db.(people := db.people.(recipients := after.value.people.recipients), deks := after.value.deks)
      && (if recipient.None? then after.value == db
          else
            && RecipientSealed(after.value.people, after.value.deks, id, recipient.value)
            && after.value.people.recipients == db.people.recipients[id := after.value.people.recipients[id]])
  {
    var ops := SealRecipient(db.deks, w, id, recipient, minted).value;
    if recipient.Some? {
      assert ops == [ops[0]] + [ops[1]];
      ApplyAppend(db, tx, [ops[0]], [ops[1]]);
      ApplySingle(db, tx, ops[0]);
      ApplySingle(ApplyOne(db, tx, ops[0]).value, tx, ops[1]);
    }
  }

  /** An invitation is made by a manager, for a declared role, and says what was asked. */
  lemma InviteMeans(p: Pack, db: Db, c: Call)
    requires c.act.Invite? && SealsOk(db.people, db.deks) && c.act.id !in db.people.invites && PLACEHOLDER !in Persons(c.act)
    ensures Plan(p, db, c).Ok? <==> MayInvite(p, c.act.actor, c.act.role, c.act.validFor)
    ensures Acts(p, db, c) ==>
      && MayInvite(p, c.act.actor, c.act.role, c.act.validFor)
      && Entered(db, Step(p, db, c), Envelope(InviteCreate, Author(c.act.actor), c.at, c.act.id, c.message))
      && Invited(db, Step(p, db, c), c.act, c.at)
  {
    FreshInviteKey(p, db, c.act.id);
    InviteExactly(p, db, c);
    if Acts(p, db, c) {
      var plan := ActsBy(p, db, c);
      InviteLands(db, TxOf(p, plan), CtxOf(c), c.act, plan.ops[0]);
    }
  }

  lemma InviteLands(db: Db, tx: TxId, w: WriteCtx, a: Act, put: Op)
    requires a.Invite? && PLACEHOLDER !in Persons(a) && InviteKey(a.id) !in db.deks
    requires SealRecipient(db.deks, w, a.id, a.recipient, a.minted).Ok?
    requires put == Ppl(PutInvite(
               a.id, InviteRow(a.role, a.secret, Author(a.actor), w.at, w.at + Lifetime(a.validFor), "", 0, false)))
    ensures
      var after := Apply(db, tx, [put] + SealRecipient(db.deks, w, a.id, a.recipient, a.minted).value);
      after.Some? ==> Invited(db, Logged(after.value, tx), a, w.at)
  {
    var more := SealRecipient(db.deks, w, a.id, a.recipient, a.minted).value;
    ApplyAppend(db, tx, [put], more);
    ApplySingle(db, tx, put);
    SealLands(ApplyOne(db, tx, put).value, tx, w, a.id, a.recipient, a.minted);
  }

  /** An invitation that can still be used: neither withdrawn nor used, and its time has not passed. */
  predicate StillOpen(i: InviteRow, at: int) {
    !i.revoked && i.usedBy == "" && at <= i.expiresAt
  }

  /** What is left of a recipient, and of the key it was sealed under. */
  ghost predicate RecipientForgotten(db: Db, now: Db, id: Id) {
    && KeysBut(db.deks, now.deks, InviteKey(id))
    && (if KeyLive(db.deks, InviteKey(id)) then
          && !KeyLive(now.deks, InviteKey(id)) && id in db.people.recipients
          && now.people.recipients == db.people.recipients[id := db.people.recipients[id].(sealed := None)]
        else now.people.recipients == db.people.recipients && now.deks == db.deks)
  }

  lemma ForgetsRecipient(db: Db, now: Db, tx: TxId, id: Id, at: int)
    requires InviteLocal(db.people, db.deks, id) && at > 0
    requires now.people.recipients == db.people.recipients && now.deks == db.deks
    ensures
      var after := Apply(now, tx, ForgetOps(db, id, at));
      && after.Some? && RecipientForgotten(db, after.value, id)
      && after.value == now.(people := now.people.(recipients := after.value.people.recipients), deks := after.value.deks)
  {
    ForgetLands(db, now, tx, id, at);
  }

  predicate MayWithdrawInvitation(db: Db, who: Principal, id: Id, at: int) {
    "members" in who.perms && id in db.people.invites && StillOpen(db.people.invites[id], at)
  }

  lemma WithdrawInvitationExactly(p: Pack, db: Db, c: Call)
    requires c.act.WithdrawInvitation?
    ensures Plan(p, db, c).Ok? <==> MayWithdrawInvitation(db, c.act.who, c.act.id, c.at)
    ensures Plan(p, db, c).Ok? ==> Plan(p, db, c).value == Planned(
      Envelope(InviteRevoke, c.act.who.sub, c.at, c.act.id, c.message),
      [Ppl(WithdrawInvite(c.act.id))] + ForgetOps(db, c.act.id, c.at))
  {
  }

  /** A manager withdraws an open invitation: it is marked, and its recipient forgotten. */
  lemma WithdrawInvitationMeans(p: Pack, db: Db, c: Call)
    requires c.act.WithdrawInvitation? && SealsOk(db.people, db.deks) && c.at > 0
    ensures Acts(p, db, c) ==>
      var a, now := c.act, Step(p, db, c);
      && MayWithdrawInvitation(db, a.who, a.id, c.at)
      && Entered(db, now, Envelope(InviteRevoke, a.who.sub, c.at, a.id, c.message))
      && RecipientForgotten(db, now, a.id)
      && now == db.(
           people := db.people.(
             invites := db.people.invites[a.id := db.people.invites[a.id].(revoked := true)],
             recipients := now.people.recipients),
           deks := now.deks, log := now.log)
  {
    WithdrawInvitationExactly(p, db, c);
    if Acts(p, db, c) {
      var plan := ActsBy(p, db, c);
      var first, tx := plan.ops[0], TxOf(p, plan);
      assert InviteLocal(db.people, db.deks, c.act.id);
      ApplyAppend(db, tx, [first], ForgetOps(db, c.act.id, c.at));
      ApplySingle(db, tx, first);
      ForgetsRecipient(db, ApplyOne(db, tx, first).value, tx, c.act.id, c.at);
    }
  }

  /** Whoever presents the secret of an open invitation may use it, for a role they may hold. */
  predicate MayRedeem(p: Pack, db: Db, sub: string, id: Id, secret: string, at: int) {
    && sub != "" && id in db.people.invites && db.people.invites[id].secret == secret
    && StillOpen(db.people.invites[id], at) && MayHold(p, db.people.members, sub, db.people.invites[id].role)
  }

  lemma RedeemExactly(p: Pack, db: Db, c: Call)
    requires c.act.Redeem?
    ensures Plan(p, db, c).Ok? <==> MayRedeem(p, db, c.act.sub, c.act.id, c.act.secret, c.at)
    ensures Plan(p, db, c).Ok? ==>
      var a, role := c.act, db.people.invites[c.act.id].role;
      Plan(p, db, c).value == Planned(
        Envelope(InviteRedeem, a.sub, c.at, IdOf(p, a.sub, role), c.message),
        [Ppl(PutMember(IdOf(p, a.sub, role), MemberRow(a.sub, role, a.sub, c.at)))]
        + ([Ppl(SpendInvite(a.id, a.sub, c.at))] + ForgetOps(db, a.id, c.at)))
  {
    if c.act.id in db.people.invites {
      HoldsExactly(p, db.people.members, c.act.sub, db.people.invites[c.act.id].role);
    }
  }

  ghost predicate Redeemed(p: Pack, db: Db, now: Db, sub: string, id: Id, at: int)
    requires id in db.people.invites
  {
    var role := db.people.invites[id].role;
    && RecipientForgotten(db, now, id)
    && now == db.(
         people := db.people.(
           members := db.people.members[IdOf(p, sub, role) := MemberRow(sub, role, sub, at)],
           invites := db.people.invites[id := db.people.invites[id].(usedBy := sub, usedAt := at)],
           recipients := now.people.recipients),
         deks := now.deks, log := now.log)
  }

  lemma RedemptionLands(p: Pack, db: Db, tx: TxId, sub: string, id: Id, at: int)
    requires id in db.people.invites && InviteLocal(db.people, db.deks, id) && at > 0 && sub != PLACEHOLDER
    ensures
      var role := db.people.invites[id].role;
      var after := Apply(db, tx, [Ppl(PutMember(IdOf(p, sub, role), MemberRow(sub, role, sub, at)))]
        + ([Ppl(SpendInvite(id, sub, at))] + ForgetOps(db, id, at)));
      after.Some? && Redeemed(p, db, Logged(after.value, tx), sub, id, at)
  {
    var role := db.people.invites[id].role;
    var put, spend := Ppl(PutMember(IdOf(p, sub, role), MemberRow(sub, role, sub, at))), Ppl(SpendInvite(id, sub, at));
    ApplyAppend(db, tx, [put], [spend] + ForgetOps(db, id, at));
    ApplySingle(db, tx, put);
    var one := ApplyOne(db, tx, put).value;
    ApplyAppend(one, tx, [spend], ForgetOps(db, id, at));
    ApplySingle(one, tx, spend);
    ForgetsRecipient(db, ApplyOne(one, tx, spend).value, tx, id, at);
  }

  /** Redeeming needs the secret, in time, and grants the invitation's role to whoever presented it, once. */
  lemma RedeemMeans(p: Pack, db: Db, c: Call)
    requires c.act.Redeem? && SealsOk(db.people, db.deks) && c.at > 0 && c.act.sub != PLACEHOLDER
    ensures Acts(p, db, c) <==>
      MayRedeem(p, db, c.act.sub, c.act.id, c.act.secret, c.at) && TxOf(p, Plan(p, db, c).value) !in db.log
    ensures Acts(p, db, c) ==>
      var a, now := c.act, Step(p, db, c);
      && Entered(db, now, Envelope(InviteRedeem, a.sub, c.at, IdOf(p, a.sub, db.people.invites[a.id].role), c.message))
      && Redeemed(p, db, now, a.sub, a.id, c.at)
  {
    RedeemExactly(p, db, c);
    if Plan(p, db, c).Ok? {
      var plan := Plan(p, db, c).value;
      assert InviteLocal(db.people, db.deks, c.act.id);
      RedemptionLands(p, db, TxOf(p, plan), c.act.sub, c.act.id, c.at);
      StepIs(p, db, c, plan);
    }
  }

  lemma RemindMeans(p: Pack, db: Db, c: Call)
    requires c.act.Remind?
    ensures Acts(p, db, c) ==>
      var id, now := c.act.id, Step(p, db, c);
      && id in db.people.recipients && Entered(db, now, Envelope(InviteRemind, "reminders", c.at, id, c.message))
      && now == db.(
           people := db.people.(recipients := db.people.recipients[id := db.people.recipients[id].(remindedAt := c.at)]),
           log := now.log)
  {
    if Acts(p, db, c) {
      var plan := ActsBy(p, db, c);
      assert plan.ops == [Ppl(RemindRecipient(c.act.id, c.at))];
      RemindLands(db, TxOf(p, plan), c.act.id, c.at);
    }
  }

  /** A recipient whose invitation ran out unanswered, and who is still on file. */
  ghost predicate RanOut(db: Db, id: Id, at: int) {
    && id in db.people.recipients && id in db.people.invites && KeyLive(db.deks, InviteKey(id))
    && !db.people.invites[id].revoked && db.people.invites[id].usedBy == "" && at > db.people.invites[id].expiresAt
  }

  lemma ExpireExactly(p: Pack, db: Db, c: Call)
    requires c.act.Expire? && InviteLocal(db.people, db.deks, c.act.id)
    ensures Plan(p, db, c).Ok? <==> RanOut(db, c.act.id, c.at)
    ensures Plan(p, db, c).Ok? ==>
      Plan(p, db, c).value == Planned(
        Envelope(InviteExpire, "reminders", c.at, c.act.id, c.message), ForgetOps(db, c.act.id, c.at))
  {
  }

  /** Forgetting a recipient whose invitation ran out changes that, and nothing before it runs out. */
  lemma ExpireMeans(p: Pack, db: Db, c: Call)
    requires c.act.Expire? && SealsOk(db.people, db.deks) && c.at > 0
    ensures Acts(p, db, c) ==>
      var id, now := c.act.id, Step(p, db, c);
      && RanOut(db, id, c.at) && Entered(db, now, Envelope(InviteExpire, "reminders", c.at, id, c.message))
      && RecipientForgotten(db, now, id)
      && now == db.(people := db.people.(recipients := now.people.recipients), deks := now.deks, log := now.log)
  {
    assert InviteLocal(db.people, db.deks, c.act.id);
    ExpireExactly(p, db, c);
    if Acts(p, db, c) {
      var plan := ActsBy(p, db, c);
      ForgetsRecipient(db, db, TxOf(p, plan), c.act.id, c.at);
    }
  }

  // ---- profiles -------------------------------------------------------------------------------------

  /** What is asserted over what is held. */
  function Over(asserted: string, held: string): string {
    if asserted == "" then held else asserted
  }

  /** Something is asserted of somebody not erased that is not held yet. */
  ghost predicate SaysNew(db: Db, a: Act)
    requires a.SeeIdentity?
  {
    var held := OpenProfile(db, a.sub);
    && held.Ok? && !held.value.erased
    && (Over(a.email, held.value.email) != held.value.email || Over(a.name, held.value.name) != held.value.name)
  }

  /** The profile says what is asserted over what was held, sealed under the person's own live key. */
  ghost predicate ProfileSealed(db: Db, now: Db, a: Act, at: int)
    requires a.SeeIdentity? && OpenProfile(db, a.sub).Ok?
  {
    var held, s := OpenProfile(db, a.sub).value, PersonKey(a.sub);
    && a.sub in now.people.profiles
    && (var row := now.people.profiles[a.sub];
        && row.scope == s && row.sealed.Some? && row.updatedAt == at
        && row.firstSeen == (if held.firstSeen == 0 then at else held.firstSeen)
        && row.sealed.value.scope == s && row.sealed.value.owner == a.sub
        && row.sealed.value.data == map[
             "email" := Canon.Str(Over(a.email, held.email)), "name" := Canon.Str(Over(a.name, held.name))]
        && KeyLive(now.deks, s) && now.deks[s].opWrap == Wrapped(s, row.sealed.value.key))
    && now == db.(people := db.people.(profiles := db.people.profiles[a.sub := now.people.profiles[a.sub]]), deks := now.deks, log := now.log)
    && KeysBut(db.deks, now.deks, s)
  }

  lemma SeePlanned(p: Pack, db: Db, c: Call, plan: Planned) returns (e: Ensured)
    requires c.act.SeeIdentity? && Plan(p, db, c) == Ok(plan)
    ensures SaysNew(db, c.act) && EnsureDek(db.deks, CtxOf(c), PersonKey(c.act.sub), c.act.minted) == Ok(e)
    ensures
      var a, held := c.act, OpenProfile(db, c.act.sub).value;
      plan == Planned(
        Envelope(ProfileRecord, "sign-in", c.at, a.sub, c.message),
        e.mint + [Ppl(PutProfile(
          a.sub, ProfileRow(
            PersonKey(a.sub),
            Some(Encrypt(e.key, PersonKey(a.sub), a.sub, 0, ProfileData(Over(a.email, held.email), Over(a.name, held.name)))),
            if held.firstSeen == 0 then c.at else held.firstSeen, c.at)))])
  {
    e := EnsureDek(db.deks, CtxOf(c), PersonKey(c.act.sub), c.act.minted).value;
  }

  lemma EnsuredKeyLives(db: Db, tx: TxId, w: WriteCtx, s: Scope, minted: Key, e: Ensured)
    requires DeksOk(db.deks) && EnsureDek(db.deks, w, s, minted) == Ok(e)
    ensures
      var after := Apply(db, tx, e.mint);
      && after.Some? && after.value == db.(deks := after.value.deks) && KeysBut(db.deks, after.value.deks, s)
      && KeyLive(after.value.deks, s) && after.value.deks[s].opWrap == Wrapped(s, e.key)
  {
    if s in db.deks {
      assert DekOk(s, db.deks[s]) && e.mint == [];
    } else {
      ApplySingle(db, tx, e.mint[0]);
    }
  }

  /** Seeing somebody sign in files what is new about them, and nothing when nothing is or once they are erased. */
  lemma SeeMeans(p: Pack, db: Db, c: Call)
    requires c.act.SeeIdentity? && DeksOk(db.deks) && c.act.sub != PLACEHOLDER
    ensures Acts(p, db, c) ==>
      && SaysNew(db, c.act)
      && Entered(db, Step(p, db, c), Envelope(ProfileRecord, "sign-in", c.at, c.act.sub, c.message))
      && ProfileSealed(db, Step(p, db, c), c.act, c.at)
  {
    if Acts(p, db, c) {
      var plan := ActsBy(p, db, c);
      var e := SeePlanned(p, db, c, plan);
      var put, tx := plan.ops[|plan.ops| - 1], TxOf(p, plan);
      assert plan.ops == e.mint + [put];
      ApplyAppend(db, tx, e.mint, [put]);
      EnsuredKeyLives(db, tx, CtxOf(c), PersonKey(c.act.sub), c.act.minted, e);
      ApplySingle(Apply(db, tx, e.mint).value, tx, put);
    }
  }

  /** Whoever may erase may erase a profile on file, with a reason, once. */
  ghost predicate MayEraseProfile(db: Db, who: Principal, sub: string, reason: string) {
    && "erasure" in who.perms && sub != "" && reason != "" && sub in db.people.profiles && KeyLive(db.deks, PersonKey(sub))
  }

  lemma EraseProfileExactly(p: Pack, db: Db, c: Call)
    requires c.act.EraseProfile? && ProfileLocal(db.people, db.deks, c.act.sub)
    ensures Plan(p, db, c).Ok? <==> MayEraseProfile(db, c.act.who, c.act.sub, c.act.reason)
    ensures Plan(p, db, c).Ok? ==> Plan(p, db, c).value == Planned(
      Envelope(Erasure, c.act.who.sub, c.at, c.act.sub, c.act.reason),
      [DestroyKey(PersonKey(c.act.sub), c.at), Ppl(BlankProfile(c.act.sub, c.at))])
  {
  }

  lemma EraseProfileMeans(p: Pack, db: Db, c: Call)
    requires c.act.EraseProfile? && SealsOk(db.people, db.deks) && DeksOk(db.deks) && c.at > 0 && c.act.sub != PLACEHOLDER
    ensures Acts(p, db, c) ==>
      var a, now := c.act, Step(p, db, c);
      && MayEraseProfile(db, a.who, a.sub, a.reason)
      && Entered(db, now, Envelope(Erasure, a.who.sub, c.at, a.sub, a.reason))
      && KeysBut(db.deks, now.deks, PersonKey(a.sub)) && !KeyLive(now.deks, PersonKey(a.sub))
      && now == db.(
           people := db.people.(
             profiles := db.people.profiles[a.sub := db.people.profiles[a.sub].(sealed := None, updatedAt := c.at)]),
           deks := now.deks, log := now.log)
  {
    assert ProfileLocal(db.people, db.deks, c.act.sub);
    EraseProfileExactly(p, db, c);
    if Acts(p, db, c) {
      var plan := ActsBy(p, db, c);
      var tx, first, second := TxOf(p, plan), DestroyKey(PersonKey(c.act.sub), c.at), Ppl(BlankProfile(c.act.sub, c.at));
      assert plan.ops == [first] + [second];
      ApplyAppend(db, tx, [first], [second]);
      ApplySingle(db, tx, first);
      ApplySingle(ApplyOne(db, tx, first).value, tx, second);
    }
  }

  // ---- from the invitation to the role ------------------------------------------------------------------

  /** Entries that are not about people leave them alone. */
  lemma {:induction false} OffPeople(db: Db, tx: TxId, ops: seq<Op>)
    requires (forall op :: op in ops ==> !op.Ppl?) && Apply(db, tx, ops).Some?
    ensures Apply(db, tx, ops).value.people == db.people
    decreases |ops|
  {
    if ops != [] {
      OffPeople(ApplyOne(db, tx, ops[0]).value, tx, ops[1..]);
    }
  }

  ghost predicate NobodyIn(ops: seq<Op>) {
    forall op :: op in ops ==> !op.Ppl?
  }

  lemma ApprovalNobody(p: Pack, db: Db, who: Principal, wf: Workflow, t: Id, supply: seq<Minted>, c: Call, plan: Planned)
    requires t in db.tasks && db.tasks[t].workflow in p.workflows && p.workflows[db.tasks[t].workflow] == wf
    requires PlanApproval(p, db, who, wf, t, supply, c.message, CtxOf(c)) == Ok(plan)
    ensures NobodyIn(plan.ops)
  {
    var s := ApprovalParts(p, db, who, wf, t, supply, c.message, CtxOf(c), plan);
    BatchPlain(p, db, CtxOf(c), s.drafts);
  }

  lemma TaskNobody(p: Pack, db: Db, c: Call, plan: Planned)
    requires AboutTasks(c.act) && Plan(p, db, c) == Ok(plan)
    ensures NobodyIn(plan.ops)
  {
    var a := c.act;
    if a.Propose? {
      var task := ProposalParts(p, db, a.who, a.name, a.req, a.taskId, a.minted, CtxOf(c), plan);
    } else if a.Decide? {
      DecisionGuards(p, db, a.who, a.taskId, a.approve, a.supply, c.message, CtxOf(c), plan);
      if a.approve {
        ApprovalNobody(p, db, a.who, p.workflows[db.tasks[a.taskId].workflow], a.taskId, a.supply, c, plan);
      }
    } else if a.PolicyApproval? {
      ApprovalNobody(p, db, PolicyPrincipal(), p.workflows[db.tasks[a.taskId].workflow], a.taskId, a.supply, c, plan);
    }
  }

  lemma RecordsNobody(p: Pack, db: Db, c: Call, plan: Planned)
    requires (c.act.Seed? || c.act.Prune? || c.act.Erase?) && Plan(p, db, c) == Ok(plan)
    ensures NobodyIn(plan.ops)
  {
    match c.act
    case Seed(_, _, _, _) => BatchPlain(p, db, CtxOf(c), SeedDrafts(p, c.act).value);
    case Prune(_, policyId, _, rows) => PruneOpsPlain(p.policies[policyId], c.at, rows, 0);
    case Erase(_, o, policyId) => ErasePlain(p, db, o, policyId, c.at);
  }

  /** What is done about records and proposals leaves members, invitations and profiles alone. */
  lemma PeopleUntouched(p: Pack, db: Db, c: Call)
    requires !AboutPeople(c.act)
    ensures Step(p, db, c).people == db.people
  {
    var plan := Plan(p, db, c);
    if plan.Ok? {
      if AboutTasks(c.act) {
        TaskNobody(p, db, c, plan.value);
      } else {
        RecordsNobody(p, db, c, plan.value);
      }
      StepIs(p, db, c, plan.value);
      if Apply(db, TxOf(p, plan.value), plan.value.ops).Some? {
        OffPeople(db, TxOf(p, plan.value), plan.value.ops);
      }
    }
  }

  lemma StillOrActs(p: Pack, db: Db, c: Call)
    ensures !Acts(p, db, c) ==> Step(p, db, c) == db
  {
    var plan := Plan(p, db, c);
    if plan.Ok? {
      StepIs(p, db, c, plan.value);
    }
  }

  /** The row of an invitation is another than it was. */
  predicate InviteChanged(db: Db, now: Db, id: Id) {
    id in db.people.invites && id in now.people.invites && now.people.invites[id] != db.people.invites[id]
  }

  lemma RolesKeepInvites(p: Pack, db: Db, c: Call, id: Id)
    requires Inv(p, db) && Sound(p, db, c) && (c.act.Grant? || c.act.Revoke? || c.act.Invite?)
    ensures !InviteChanged(db, Step(p, db, c), id)
  {
    StillOrActs(p, db, c);
    if c.act.Grant? {
      GrantMeans(p, db, c);
    } else if c.act.Revoke? {
      RevokeMeans(p, db, c);
    } else {
      InviteMeans(p, db, c);
    }
  }

  lemma ProfilesKeepInvites(p: Pack, db: Db, c: Call, id: Id)
    requires Inv(p, db) && Sound(p, db, c) && (c.act.Remind? || c.act.Expire? || c.act.SeeIdentity? || c.act.EraseProfile?)
    ensures !InviteChanged(db, Step(p, db, c), id)
  {
    StillOrActs(p, db, c);
    if c.act.Remind? {
      RemindMeans(p, db, c);
    } else if c.act.Expire? {
      ExpireMeans(p, db, c);
    } else if c.act.SeeIdentity? {
      SeeMeans(p, db, c);
    } else {
      EraseProfileMeans(p, db, c);
    }
  }

  /** Only redeeming an invitation, and withdrawing it, change a row of one. */
  lemma InvitesChange(p: Pack, db: Db, c: Call, id: Id)
    requires Inv(p, db) && Sound(p, db, c) && InviteChanged(db, Step(p, db, c), id)
    ensures Acts(p, db, c) && ((c.act.Redeem? && c.act.id == id) || (c.act.WithdrawInvitation? && c.act.id == id))
  {
    StillOrActs(p, db, c);
    if !AboutPeople(c.act) {
      PeopleUntouched(p, db, c);
    } else if c.act.Grant? || c.act.Revoke? || c.act.Invite? {
      RolesKeepInvites(p, db, c, id);
    } else if c.act.WithdrawInvitation? || c.act.Redeem? {
      UsedKeepsOthers(p, db, c, id);
    } else {
      ProfilesKeepInvites(p, db, c, id);
    }
  }

  lemma UsedKeepsOthers(p: Pack, db: Db, c: Call, id: Id)
    requires Inv(p, db) && Sound(p, db, c) && (c.act.Redeem? || c.act.WithdrawInvitation?)
    ensures InviteChanged(db, Step(p, db, c), id) ==> c.act.id == id
  {
    StillOrActs(p, db, c);
    if c.act.Redeem? {
      RedeemMeans(p, db, c);
    } else {
      WithdrawInvitationMeans(p, db, c);
    }
  }

  /**
   A step after which an invitation is used, and was not, is its redemption by whoever it is used by: they presented
   its secret, in time, while it was neither used nor withdrawn, for a role they may hold, and hold it now.
   */
  lemma SpendingIsRedeeming(p: Pack, db: Db, c: Call, id: Id)
    requires Inv(p, db) && Sound(p, db, c) && JustUsed(db, Step(p, db, c), id)
    ensures c.act.Redeem? && c.act.id == id && Step(p, db, c).people.invites[id].usedBy == c.act.sub
    ensures MayRedeem(p, db, c.act.sub, id, c.act.secret, c.at) && Redeemed(p, db, Step(p, db, c), c.act.sub, id, c.at)
  {
    InvitesChange(p, db, c, id);
    if c.act.Redeem? {
      RedeemMeans(p, db, c);
    } else {
      WithdrawInvitationMeans(p, db, c);
    }
  }

  /**
   From the invitation to the role, over a whole run: whoever uses an invitation presented the very secret it was
   made with, within the time it was made for, and is granted the very role it was made for.
   */
  lemma RedeemedAsInvited(p: Pack, earlier: seq<Call>, c: Call, later: seq<Call>, d: Call)
    requires PackSound(p) && SoundRun(p, Blank(), earlier) && Sound(p, Run(p, Blank(), earlier), c)
    requires c.act.Invite? && Acts(p, Run(p, Blank(), earlier), c)
    requires SoundRun(p, Step(p, Run(p, Blank(), earlier), c), later)
    requires
      var db := Run(p, Step(p, Run(p, Blank(), earlier), c), later);
      Sound(p, db, d) && JustUsed(db, Step(p, db, d), c.act.id)
    ensures
      var db := Run(p, Step(p, Run(p, Blank(), earlier), c), later);
      UsedAsInvited(p, Step(p, db, d), c, d)
  {
    ReachableInv(p, earlier);
    var a := Run(p, Blank(), earlier);
    InviteMeans(p, a, c);
    StepKeeps(p, a, c);
    RunKeeps(p, Step(p, a, c), later);
    var db := Run(p, Step(p, a, c), later);
    assert InviteOnward(Step(p, a, c).people.invites[c.act.id], db.people.invites[c.act.id]);
    UsedAsMade(p, db, c, d);
  }

  /** An invitation is used in the later state, and was not in the earlier one. */
  predicate JustUsed(db: Db, now: Db, id: Id) {
    && id in db.people.invites && db.people.invites[id].usedBy == ""
    && id in now.people.invites && now.people.invites[id].usedBy != ""
  }

  /** Whoever used it had its secret, in time, and has its role. */
  predicate UsedAsInvited(p: Pack, now: Db, c: Call, d: Call)
    requires c.act.Invite?
  {
    && d.act.Redeem? && d.act.id == c.act.id && d.act.secret == c.act.secret && d.at <= c.at + Lifetime(c.act.validFor)
    && IdOf(p, d.act.sub, c.act.role) in now.people.members
    && now.people.members[IdOf(p, d.act.sub, c.act.role)] == MemberRow(d.act.sub, c.act.role, d.act.sub, d.at)
  }

  lemma UsedAsMade(p: Pack, db: Db, c: Call, d: Call)
    requires c.act.Invite? && Inv(p, db) && Sound(p, db, d) && JustUsed(db, Step(p, db, d), c.act.id)
    requires
      var row := db.people.invites[c.act.id];
      row.secret == c.act.secret && row.role == c.act.role && row.expiresAt == c.at + Lifetime(c.act.validFor)
    ensures UsedAsInvited(p, Step(p, db, d), c, d)
  {
    SpendingIsRedeeming(p, db, d, c.act.id);
  }
}
