/** The steps that concern people: each keeps the invariant and takes nothing back. */
module PeopleSteps {
  import opened Outcomes
  import opened Tables
  import opened Packs
  import opened RecordBuild
  import opened RecordInvariant
  import opened History
  import opened Workflows
  import opened WorkflowSafety
  import opened Membership
  import opened MembershipSafety
  import opened Runs

  // ---- assembling a step --------------------------------------------------------------

  /** The people's half of the order no step goes against. */
  ghost predicate PeopleOnward(p: Pack, a: People, b: People) {
    && InvitesOnward(a.invites, b.invites)
    && (Administrators(p, a.members) != {} ==> Administrators(p, b.members) != {})
  }

  /** A step that changes people and at most one key of theirs. */
  lemma PeopleLater(p: Pack, db: Db, now: Db, tx: TxId, s: Scope)
    requires RecordSide(p, db) && TasksOk(p, db) && PeopleSide(p, now)
    requires InvitesOnward(db.people.invites, now.people.invites)
    requires now == db.(people := now.people, deks := now.deks, log := db.log + [tx])
    requires AgreeBut(db.deks, now.deks, s) && (s.InviteKey? || s.PersonKey?)
    requires s in now.deks ==> DekOk(s, now.deks[s])
    requires s in db.deks ==> s in now.deks && DekOnward(db.deks[s], now.deks[s])
    requires MovesNothing(tx.ops)
    ensures Inv(p, now) && Later(db, now)
  {
    KeyStep(p, db, now, tx, s);
    ButTaskKeys(db.deks, now.deks, s);
    TasksAlone(p, db, now, tx);
    TasksSelf(db.tasks);
  }

  lemma PeopleStep(p: Pack, db: Db, now: Db, tx: TxId, s: Scope)
    requires RecordSide(p, db) && TasksOk(p, db) && PeopleSide(p, now) && PeopleOnward(p, db.people, now.people)
    requires now == db.(people := now.people, deks := now.deks, log := db.log + [tx])
    requires AgreeBut(db.deks, now.deks, s) && (s.InviteKey? || s.PersonKey?)
    requires s in now.deks ==> DekOk(s, now.deks[s])
    requires s in db.deks ==> s in now.deks && DekOnward(db.deks[s], now.deks[s])
    requires MovesNothing(tx.ops)
    ensures Inv(p, now) && Onward(p, db, now)
  {
    PeopleLater(p, db, now, tx, s);
  }

  lemma SameButAny(deks: map<Scope, Dek>, s: Scope)
    ensures AgreeBut(deks, deks, s)
  {
    forall t | t != s
      ensures SameKeyAt(deks, deks, t)
    {
    }
  }

  /** A step that changes people and no key. */
  lemma PeopleLaterNoKey(p: Pack, db: Db, now: Db, tx: TxId)
    requires RecordSide(p, db) && TasksOk(p, db) && PeopleSide(p, now)
    requires InvitesOnward(db.people.invites, now.people.invites)
    requires now == db.(people := now.people, log := db.log + [tx])
    requires MovesNothing(tx.ops)
    ensures Inv(p, now) && Later(db, now)
  {
    var s := PersonKey("");
    SameButAny(db.deks, s);
    if s in db.deks {
      assert DekOk(s, db.deks[s]);
    }
    PeopleLater(p, db, now, tx, s);
  }

  /** Committing this plan keeps the invariant and the order, whoever is left to administer. */
  ghost predicate KeptLater(p: Pack, db: Db, plan: Planned) {
    var tx := TxOf(p, plan);
    var landed := Apply(db, tx, plan.ops);
    tx !in db.log && landed.Some? ==> Inv(p, Logged(landed.value, tx)) && Later(db, Logged(landed.value, tx))
  }

  // ---- granting and revoking -------------------------------------------------------------

  lemma NewMember(p: Pack, members: map<string, MemberRow>, sub: string, role: string)
    requires RolesSound(p) && MembersOk(p, members) && role in p.roles
    requires forall id :: id in members ==> !Bars(p, members[id], sub, role)
    ensures MemberId(p, sub, role) !in members
  {
    var id := MemberId(p, sub, role);
    if id in members {
      assert MemberOk(p, id, members[id]);
      MemberIdUnique(p, sub, role, members[id].sub, members[id].role);
    }
  }

  /** What a grant does to the members. */
  lemma GrantMembers(p: Pack, members: map<string, MemberRow>, row: MemberRow)
    requires RolesSound(p) && MembersOk(p, members) && row.role in p.roles
    requires forall id :: id in members ==> !Bars(p, members[id], row.sub, row.role)
    ensures
      var now := members[MemberId(p, row.sub, row.role) := row];
      MembersOk(p, now) && (Administrators(p, members) != {} ==> Administrators(p, now) != {})
  {
    NewMember(p, members, row.sub, row.role);
    GrantKeepsMembers(p, members, row);
    GrantKeepsAdministrators(p, members, row);
  }

  lemma GrantKeeps(p: Pack, db: Db, author: string, sub: string, role: string, message: string, at: int, plan: Planned)
    requires author != PLACEHOLDER && sub != PLACEHOLDER
    requires PackSound(p) && Inv(p, db)
    requires PlanGrant(p, db, MemberGrant, author, sub, role, message, at, []) == Ok(plan)
    ensures Kept(p, db, plan)
  {
    var row := MemberRow(sub, role, author, at);
    var op := Ppl(PutMember(MemberId(p, sub, role), row));
    var tx := TxOf(p, plan);
    assert plan.ops == [op];
    ApplySingle(db, tx, op);
    GrantMembers(p, db.people.members, row);
    var now := Logged(ApplyOne(db, tx, op).value, tx);
    MembersStep(p, db, now, tx);
  }

  /** A step that changes only the member table. */
  lemma MembersStep(p: Pack, db: Db, now: Db, tx: TxId)
    requires Inv(p, db) && MembersOk(p, now.people.members)
    requires now == db.(people := db.people.(members := now.people.members), log := db.log + [tx])
    requires MovesNothing(tx.ops) && SpendsNothing(tx.ops)
    ensures Inv(p, now) && Later(db, now)
  {
    NoSpends(tx);
    SealsAlone(db.people, db.deks, now.people, now.deks);
    SpendsAlone(db.people.invites, now.people.invites, db.log, tx);
    InvitesSelf(db.people.invites);
    PeopleLaterNoKey(p, db, now, tx);
  }

  /** A revocation keeps the invariant, whatever it was asked for; somebody is left when the role it names has no bar. */
  lemma RevokeKeeps(p: Pack, db: Db, who: Principal, sub: string, role: string, message: string, at: int, plan: Planned)
    requires PackSound(p) && Inv(p, db)
    requires PlanRevoke(p, db, who, sub, role, message, at) == Ok(plan)
    ensures KeptLater(p, db, plan) && ('|' !in role ==> Kept(p, db, plan))
  {
    var id := MemberId(p, sub, role);
    var tx := TxOf(p, plan);
    ApplySingle(db, tx, Ppl(DropMember(id)));
    DropKeepsMembers(p, db.people.members, id);
    if '|' !in role && Administrators(p, db.people.members) != {} {
      RevokeKeepsAdministrators(p, db, who, sub, role, message, at);
    }
    MembersStep(p, db, Logged(ApplyOne(db, tx, Ppl(DropMember(id))).value, tx), tx);
  }

  // ---- forgetting a recipient ------------------------------------------------------------------

  /** The recipient and the key once `forgetRecipient` has landed. */
  function ForgottenPeople(ppl: People, deks: map<Scope, Dek>, id: Id): People {
    if Forgettable(ppl, deks, id) then
      ppl.(recipients := ppl.recipients[id := ppl.recipients[id].(sealed := None)])
    else ppl
  }

  function ForgottenDeks(ppl: People, deks: map<Scope, Dek>, id: Id, at: int): map<Scope, Dek> {
    if Forgettable(ppl, deks, id) then
      deks[InviteKey(id) := deks[InviteKey(id)].(opWrap := NoWrap, recWrap := NoWrap, destroyedAt := at)]
    else deks
  }

  predicate Forgettable(ppl: People, deks: map<Scope, Dek>, id: Id) {
    && id in ppl.recipients && ppl.recipients[id].scope == InviteKey(id)
    && InviteKey(id) in deks && deks[InviteKey(id)].Live()
  }

  lemma ForgetLands(db: Db, now: Db, tx: TxId, id: Id, at: int)
    requires InviteLocal(db.people, db.deks, id)
    requires now.people.recipients == db.people.recipients && now.deks == db.deks
    ensures
      Apply(now, tx, ForgetOps(db, id, at)) ==
      Some(now.(people := ForgottenPeople(now.people, db.deks, id), deks := ForgottenDeks(db.people, db.deks, id, at)))
  {
    var ops := ForgetOps(db, id, at);
    if ops != [] {
      assert ops == [ops[0]] + [ops[1]];
      ApplyAppend(now, tx, [ops[0]], [ops[1]]);
      ApplySingle(now, tx, ops[0]);
      ApplySingle(ApplyOne(now, tx, ops[0]).value, tx, ops[1]);
    }
  }

  /** After forgetting, the invitation's key is gone, whatever became of the invitation itself. */
  lemma ForgetLocal(a: People, b: People, deks: map<Scope, Dek>, id: Id, at: int)
    requires InviteLocal(a, deks, id) && at > 0 && id in b.invites && b.recipients == a.recipients
    requires !(b.invites[id].revoked && b.invites[id].usedBy != "")
    ensures InviteLocal(ForgottenPeople(b, deks, id), ForgottenDeks(a, deks, id, at), id)
  {
  }

  lemma ForgetKeys(ppl: People, deks: map<Scope, Dek>, id: Id, at: int)
    requires DeksOk(deks) && at > 0
    ensures
      var now, s := ForgottenDeks(ppl, deks, id, at), InviteKey(id);
      && AgreeBut(deks, now, s)
      && (s in now ==> DekOk(s, now[s]))
      && (s in deks ==> s in now && DekOnward(deks[s], now[s]))
  {
    var s := InviteKey(id);
    if s in deks {
      assert DekOk(s, deks[s]);
    }
  }

  lemma ForgetPlain(db: Db, id: Id, at: int)
    ensures MovesNothing(ForgetOps(db, id, at)) && SpendsNothing(ForgetOps(db, id, at))
  {
  }

  /** A step that changes one invitation, its recipient and its key, and spends nothing. */
  lemma InvitationStep(p: Pack, db: Db, now: Db, tx: TxId, id: Id)
    requires Inv(p, db)
    requires now == db.(people := now.people, deks := now.deks, log := db.log + [tx])
    requires now.people.members == db.people.members && now.people.profiles == db.people.profiles
    requires AgreeBut(db.deks, now.deks, InviteKey(id)) && InviteLocal(now.people, now.deks, id)
    requires InviteKey(id) in now.deks ==> DekOk(InviteKey(id), now.deks[InviteKey(id)])
    requires InviteKey(id) in db.deks ==>
      InviteKey(id) in now.deks && DekOnward(db.deks[InviteKey(id)], now.deks[InviteKey(id)])
    requires forall other :: other != id ==> SameInvite(db.people, now.people, other)
    requires id in db.people.invites ==> id in now.people.invites
    requires id in db.people.invites ==> InviteOnward(db.people.invites[id], now.people.invites[id])
    requires id in db.people.invites ==> now.people.invites[id].usedBy == db.people.invites[id].usedBy
    requires id !in db.people.invites && id in now.people.invites ==> now.people.invites[id].usedBy == ""
    requires MovesNothing(tx.ops) && SpendsNothing(tx.ops)
    ensures Inv(p, now) && Onward(p, db, now)
  {
    InviteStep(db.people, db.deks, now.people, now.deks, id);
    NoSpends(tx);
    InvitesFollow(db.people, now.people, id);
    SpendsAlone(db.people.invites, now.people.invites, db.log, tx);
    PeopleStep(p, db, now, tx, InviteKey(id));
  }

  lemma InvitesFollow(a: People, b: People, id: Id)
    requires forall other :: other != id ==> SameInvite(a, b, other)
    requires id in a.invites ==> id in b.invites && InviteOnward(a.invites[id], b.invites[id])
    ensures InvitesOnward(a.invites, b.invites)
    ensures forall x :: x in a.invites && x != id ==> x in b.invites && b.invites[x] == a.invites[x]
    ensures forall x :: x in b.invites && x != id ==> x in a.invites
  {
    forall x | x != id
      ensures x in a.invites ==> x in b.invites && b.invites[x] == a.invites[x]
      ensures x in b.invites ==> x in a.invites
    {
      assert SameInvite(a, b, x);
    }
  }

  // ---- invitations ----------------------------------------------------------------------------------

  lemma InviteSame(a: People, b: People, id: Id)
    requires b.invites.Keys - {id} == a.invites.Keys - {id} && b.recipients.Keys - {id} == a.recipients.Keys - {id}
    requires forall x :: x in a.invites && x != id ==> x in b.invites && b.invites[x] == a.invites[x]
    requires forall x :: x in a.recipients && x != id ==> x in b.recipients && b.recipients[x] == a.recipients[x]
    ensures forall other :: other != id ==> SameInvite(a, b, other)
  {
    forall other | other != id
      ensures SameInvite(a, b, other)
    {
      assert other in a.invites <==> other in a.invites.Keys - {id};
      assert other in b.invites <==> other in b.invites.Keys - {id};
      assert other in a.recipients <==> other in a.recipients.Keys - {id};
      assert other in b.recipients <==> other in b.recipients.Keys - {id};
    }
  }

  /** What `createInvite` leaves when it is to write to somebody. */
  lemma SealedInvite(db: Db, tx: TxId, w: WriteCtx, id: Id, i: InviteRow, recipient: Option<Payload>, minted: Key)
    requires i.createdBy != PLACEHOLDER
    requires SealRecipient(db.deks, w, id, recipient, minted).Ok?
    requires InviteKey(id) !in db.deks && id !in db.people.recipients && i.usedBy == "" && !i.revoked
    ensures
      var ops := [Ppl(PutInvite(id, i))] + SealRecipient(db.deks, w, id, recipient, minted).value;
      var after := Apply(db, tx, ops);
      && after.Some? && after.value == db.(people := after.value.people, deks := after.value.deks)
      && after.value.people == db.people.(
           invites := db.people.invites[id := i], recipients := after.value.people.recipients)
      && after.value.people.recipients.Keys - {id} == db.people.recipients.Keys - {id}
      && (forall x :: x in db.people.recipients && x != id ==>
            x in after.value.people.recipients && after.value.people.recipients[x] == db.people.recipients[x])
      && AgreeBut(db.deks, after.value.deks, InviteKey(id))
      && (InviteKey(id) in after.value.deks ==> DekOk(InviteKey(id), after.value.deks[InviteKey(id)]))
      && InviteLocal(after.value.people, after.value.deks, id)
      && MovesNothing(ops) && SpendsNothing(ops)
  {
    var put := Ppl(PutInvite(id, i));
    var more := SealRecipient(db.deks, w, id, recipient, minted).value;
    var one := ApplyOne(db, tx, put).value;
    ApplyAppend(db, tx, [put], more);
    ApplySingle(db, tx, put);
    if recipient.Some? {
      assert more == [more[0]] + [more[1]];
      ApplyAppend(one, tx, [more[0]], [more[1]]);
      ApplySingle(one, tx, more[0]);
      ApplySingle(ApplyOne(one, tx, more[0]).value, tx, more[1]);
    } else {
      SameButAny(db.deks, InviteKey(id));
    }
  }

  lemma InviteKeeps(
    p: Pack, db: Db, author: string, role: string, validFor: int, recipient: Option<Payload>, id: Id, secret: string,
    minted: Key, message: string, w: WriteCtx, plan: Planned)
    requires author != PLACEHOLDER
    requires PackSound(p) && Inv(p, db) && id !in db.people.invites
    requires PlanInvite(p, db, author, role, validFor, recipient, id, secret, minted, message, w) == Ok(plan)
    ensures Kept(p, db, plan)
  {
    var tx := TxOf(p, plan);
    var i := plan.ops[0].p.invite;
    assert InviteLocal(db.people, db.deks, id);
    SealedInvite(db, tx, w, id, i, recipient, minted);
    var now := Logged(Apply(db, tx, plan.ops).value, tx);
    assert now.people.invites.Keys - {id} == db.people.invites.Keys - {id};
    InviteSame(db.people, now.people, id);
    InvitationStep(p, db, now, tx, id);
  }

  lemma InviteRevokeKeeps(p: Pack, db: Db, who: Principal, id: Id, message: string, at: int, plan: Planned)
    requires PackSound(p) && Inv(p, db) && at > 0
    requires PlanInviteRevoke(db, who, id, message, at) == Ok(plan)
    ensures Kept(p, db, plan)
  {
    var tx := TxOf(p, plan);
    var op := Ppl(WithdrawInvite(id));
    assert InviteLocal(db.people, db.deks, id);
    ApplyAppend(db, tx, [op], ForgetOps(db, id, at));
    ApplySingle(db, tx, op);
    var one := ApplyOne(db, tx, op).value;
    ForgetLands(db, one, tx, id, at);
    ForgetLocal(db.people, one.people, db.deks, id, at);
    ForgetKeys(db.people, db.deks, id, at);
    ForgetPlain(db, id, at);
    var now := Logged(Apply(db, tx, plan.ops).value, tx);
    ForgottenSame(db.people, one.people, db.deks, id);
    InvitationStep(p, db, now, tx, id);
  }

  /** Changing one invitation and forgetting its recipient leaves the others alone. */
  lemma ForgottenSame(a: People, b: People, deks: map<Scope, Dek>, id: Id)
    requires b.recipients == a.recipients && b.invites.Keys == a.invites.Keys
    requires forall x :: x in a.invites && x != id ==> b.invites[x] == a.invites[x]
    ensures forall other :: other != id ==> SameInvite(a, ForgottenPeople(b, deks, id), other)
  {
    var now := ForgottenPeople(b, deks, id);
    assert now.recipients.Keys - {id} == a.recipients.Keys - {id};
    InviteSame(a, now, id);
  }

  function Reminded(ppl: People, id: Id, at: int): People
    requires id in ppl.recipients
  {
    ppl.(recipients := ppl.recipients[id := ppl.recipients[id].(remindedAt := at)])
  }

  lemma RemindLands(db: Db, tx: TxId, id: Id, at: int)
    ensures
      Apply(db, tx, [Ppl(RemindRecipient(id, at))]) ==
      if id in db.people.recipients then Some(db.(people := Reminded(db.people, id, at))) else None
  {
    ApplySingle(db, tx, Ppl(RemindRecipient(id, at)));
  }

  lemma RemindLocal(ppl: People, deks: map<Scope, Dek>, id: Id, at: int)
    requires id in ppl.recipients && InviteLocal(ppl, deks, id)
    ensures InviteLocal(Reminded(ppl, id, at), deks, id)
    ensures forall other :: other != id ==> SameInvite(ppl, Reminded(ppl, id, at), other)
  {
    var now := Reminded(ppl, id, at);
    assert now.recipients.Keys == ppl.recipients.Keys;
    InviteSame(ppl, now, id);
  }

  lemma RemindStep(p: Pack, db: Db, tx: TxId, id: Id, at: int)
    requires Inv(p, db) && id in db.people.recipients && MovesNothing(tx.ops) && SpendsNothing(tx.ops)
    ensures
      var now := Logged(db.(people := Reminded(db.people, id, at)), tx);
      Inv(p, now) && Onward(p, db, now)
  {
    assert InviteLocal(db.people, db.deks, id);
    RemindLocal(db.people, db.deks, id, at);
    SameButAny(db.deks, InviteKey(id));
    if InviteKey(id) in db.deks {
      assert DekOk(InviteKey(id), db.deks[InviteKey(id)]);
    }
    InvitationStep(p, db, Logged(db.(people := Reminded(db.people, id, at)), tx), tx, id);
  }

  lemma RemindKeeps(p: Pack, db: Db, id: Id, message: string, at: int)
    requires PackSound(p) && Inv(p, db)
    ensures Kept(p, db, PlanRemind(id, message, at))
  {
    var plan := PlanRemind(id, message, at);
    var tx := TxOf(p, plan);
    RemindLands(db, tx, id, at);
    if id in db.people.recipients {
      RemindStep(p, db, tx, id, at);
    }
  }

  lemma ExpireKeeps(p: Pack, db: Db, id: Id, message: string, at: int, plan: Planned)
    requires PackSound(p) && Inv(p, db) && at > 0
    requires PlanExpire(db, id, message, at) == Ok(plan)
    ensures Kept(p, db, plan)
  {
    var tx := TxOf(p, plan);
    assert InviteLocal(db.people, db.deks, id);
    ForgetLands(db, db, tx, id, at);
    ForgetLocal(db.people, db.people, db.deks, id, at);
    ForgetKeys(db.people, db.deks, id, at);
    ForgetPlain(db, id, at);
    ForgottenSame(db.people, db.people, db.deks, id);
    InvitationStep(p, db, Logged(Apply(db, tx, plan.ops).value, tx), tx, id);
  }

  // ---- redeeming -------------------------------------------------------------------------------------

  /** The people after an invitation is redeemed: the role is granted, the invitation spent, its recipient forgotten. */
  function RedeemedPeople(p: Pack, db: Db, sub: string, id: Id, row: MemberRow, at: int): People
    requires id in db.people.invites
  {
    ForgottenPeople(
      db.people.(
        members := db.people.members[MemberId(p, sub, row.role) := row],
        invites := db.people.invites[id := db.people.invites[id].(usedBy := sub, usedAt := at)]),
      db.deks, id)
  }

  lemma RedeemLands(p: Pack, db: Db, tx: TxId, sub: string, id: Id, row: MemberRow, at: int)
    requires sub != PLACEHOLDER && row.sub != PLACEHOLDER && row.grantedBy != PLACEHOLDER
    requires id in db.people.invites && InviteLocal(db.people, db.deks, id)
    ensures
      var ops := [Ppl(PutMember(MemberId(p, sub, row.role), row))] + ([Ppl(SpendInvite(id, sub, at))] + ForgetOps(db, id, at));
      Apply(db, tx, ops) == Some(db.(
        people := RedeemedPeople(p, db, sub, id, row, at), deks := ForgottenDeks(db.people, db.deks, id, at)))
  {
    var put, spend := Ppl(PutMember(MemberId(p, sub, row.role), row)), Ppl(SpendInvite(id, sub, at));
    ApplyAppend(db, tx, [put], [spend] + ForgetOps(db, id, at));
    ApplySingle(db, tx, put);
    var one := ApplyOne(db, tx, put).value;
    ApplyAppend(one, tx, [spend], ForgetOps(db, id, at));
    ApplySingle(one, tx, spend);
    ForgetLands(db, ApplyOne(one, tx, spend).value, tx, id, at);
  }

  lemma RedeemSpends(p: Pack, db: Db, tx: TxId, sub: string, id: Id, row: MemberRow, at: int)
    requires tx.ops ==
      [Ppl(PutMember(MemberId(p, sub, row.role), row))] + ([Ppl(SpendInvite(id, sub, at))] + ForgetOps(db, id, at))
    requires row.sub == sub
    ensures Spends(tx, id, sub) && GrantsRole(tx, sub, row.role) && MovesNothing(tx.ops)
    ensures forall other, who :: Spends(tx, other, who) ==> other == id && who == sub
  {
    ForgetPlain(db, id, at);
    assert IsGrant(tx.ops[0], sub, row.role) && IsSpend(tx.ops[1], id, sub);
    forall other, who | Spends(tx, other, who)
      ensures other == id && who == sub
    {
      var k :| 0 <= k < |tx.ops| && IsSpend(tx.ops[k], other, who);
      assert k >= 2 ==> tx.ops[k] == ForgetOps(db, id, at)[k - 2];
    }
  }

  lemma RedeemSide(p: Pack, db: Db, tx: TxId, sub: string, id: Id, row: MemberRow, at: int)
    requires PackSound(p) && PeopleSide(p, db) && DeksOk(db.deks) && at > 0 && sub != "" && row.sub == sub
    requires id in db.people.invites && db.people.invites[id].role == row.role && row.role in p.roles
    requires db.people.invites[id].usedBy == "" && !db.people.invites[id].revoked
    requires forall k :: k in db.people.members ==> !Bars(p, db.people.members[k], sub, row.role)
    requires Spends(tx, id, sub) && GrantsRole(tx, sub, row.role)
    requires forall other, who :: Spends(tx, other, who) ==> other == id && who == sub
    ensures
      var now := Logged(
        db.(people := RedeemedPeople(p, db, sub, id, row, at), deks := ForgottenDeks(db.people, db.deks, id, at)), tx);
      PeopleSide(p, now) && PeopleOnward(p, db.people, now.people)
  {
    var b, deks := RedeemedPeople(p, db, sub, id, row, at), ForgottenDeks(db.people, db.deks, id, at);
    GrantMembers(p, db.people.members, row);
    assert InviteLocal(db.people, db.deks, id);
    var mid := db.people.(
      members := db.people.members[MemberId(p, sub, row.role) := row],
      invites := db.people.invites[id := db.people.invites[id].(usedBy := sub, usedAt := at)]);
    ForgetLocal(db.people, mid, db.deks, id, at);
    ForgetKeys(db.people, db.deks, id, at);
    ForgottenSame(db.people, mid, db.deks, id);
    InviteStep(db.people, db.deks, b, deks, id);
    SpendKeeps(db.people.invites, db.log, tx, id, sub, at);
    InvitesFollow(db.people, b, id);
  }

  lemma RedeemKeeps(p: Pack, db: Db, sub: string, id: Id, secret: string, message: string, at: int, plan: Planned)
    requires sub != PLACEHOLDER
    requires PackSound(p) && Inv(p, db) && at > 0
    requires PlanRedeem(p, db, sub, id, secret, message, at) == Ok(plan)
    ensures Kept(p, db, plan)
  {
    var tx := TxOf(p, plan);
    var role := db.people.invites[id].role;
    var row := MemberRow(sub, role, sub, at);
    assert InviteLocal(db.people, db.deks, id);
    RedeemLands(p, db, tx, sub, id, row, at);
    RedeemSpends(p, db, tx, sub, id, row, at);
    RedeemSide(p, db, tx, sub, id, row, at);
    ForgetKeys(db.people, db.deks, id, at);
    PeopleStep(p, db, Logged(Apply(db, tx, plan.ops).value, tx), tx, InviteKey(id));
  }

  // ---- profiles -------------------------------------------------------------------------------------------

  /** A step that changes one profile and its key. */
  lemma PersonStep(p: Pack, db: Db, now: Db, tx: TxId, sub: string)
    requires Inv(p, db)
    requires now == db.(people := db.people.(profiles := now.people.profiles), deks := now.deks, log := db.log + [tx])
    requires AgreeBut(db.deks, now.deks, PersonKey(sub)) && ProfileLocal(now.people, now.deks, sub)
    requires PersonKey(sub) in now.deks ==> DekOk(PersonKey(sub), now.deks[PersonKey(sub)])
    requires PersonKey(sub) in db.deks ==>
      PersonKey(sub) in now.deks && DekOnward(db.deks[PersonKey(sub)], now.deks[PersonKey(sub)])
    requires forall other :: other != sub ==> SameProfile(db.people, now.people, other)
    requires MovesNothing(tx.ops) && SpendsNothing(tx.ops)
    ensures Inv(p, now) && Onward(p, db, now)
  {
    ProfileStep(db.people, db.deks, now.people, now.deks, sub);
    NoSpends(tx);
    SpendsAlone(db.people.invites, now.people.invites, db.log, tx);
    InvitesSelf(db.people.invites);
    PeopleStep(p, db, now, tx, PersonKey(sub));
  }

  lemma PutSame(a: People, b: People, sub: Settled, row: ProfileRow)
    requires b.profiles == a.profiles[sub := row]
    ensures forall other :: other != sub ==> SameProfile(a, b, other)
  {
  }

  lemma SeenLands(db: Db, tx: TxId, w: WriteCtx, sub: string, e: Ensured, data: Payload, first: int)
    requires sub != PLACEHOLDER
    requires
      || EnsureDek(db.deks, w, PersonKey(sub), e.key) == Ok(e)
      || (e.mint == [] && KeyFits(db.deks, PersonKey(sub), e.key) && db.deks[PersonKey(sub)].Live())
    requires DeksOk(db.deks)
    ensures
      var row := ProfileRow(PersonKey(sub), Some(Sealing(PersonKey(sub), e.key, sub, data)), first, w.at);
      var ops := e.mint + [Ppl(PutProfile(sub, row))];
      var after := Apply(db, tx, ops);
      && after.Some?
      && after.value == db.(people := db.people.(profiles := db.people.profiles[sub := row]), deks := after.value.deks)
      && AgreeBut(db.deks, after.value.deks, PersonKey(sub))
      && (PersonKey(sub) in db.deks ==> after.value.deks == db.deks)
      && PersonKey(sub) in after.value.deks && DekOk(PersonKey(sub), after.value.deks[PersonKey(sub)])
      && after.value.deks[PersonKey(sub)].Live()
      && ProfileLocal(after.value.people, after.value.deks, sub)
      && MovesNothing(ops) && SpendsNothing(ops)
  {
    var row := ProfileRow(PersonKey(sub), Some(Sealing(PersonKey(sub), e.key, sub, data)), first, w.at);
    var put := Ppl(PutProfile(sub, row));
    ApplyAppend(db, tx, e.mint, [put]);
    if PersonKey(sub) in db.deks {
      assert DekOk(PersonKey(sub), db.deks[PersonKey(sub)]);
      assert e.mint == [];
      ApplySingle(db, tx, put);
      SameButAny(db.deks, PersonKey(sub));
    } else {
      ApplySingle(db, tx, e.mint[0]);
      ApplySingle(ApplyOne(db, tx, e.mint[0]).value, tx, put);
    }
  }

  lemma SeeKeeps(
    p: Pack, db: Db, sub: string, email: string, name: string, minted: Key, message: string, w: WriteCtx, plan: Planned)
    requires sub != PLACEHOLDER
    requires PackSound(p) && Inv(p, db)
    requires PlanSeeIdentity(db, sub, email, name, minted, message, w) == Ok(plan)
    ensures Kept(p, db, plan)
  {
    var tx := TxOf(p, plan);
    var held := OpenProfile(db, sub).value;
    var e := EnsureDek(db.deks, w, PersonKey(sub), minted).value;
    if PersonKey(sub) in db.deks {
      assert DekOk(PersonKey(sub), db.deks[PersonKey(sub)]);
    }
    var data := ProfileData(if email != "" then email else held.email, if name != "" then name else held.name);
    var first := if held.firstSeen == 0 then w.at else held.firstSeen;
    SeenLands(db, tx, w, sub, e, data, first);
    var now := Logged(Apply(db, tx, plan.ops).value, tx);
    PutSame(db.people, now.people, sub, now.people.profiles[sub]);
    PersonStep(p, db, now, tx, sub);
  }

  /** What `SeeIdentity` says it holds afterwards. */
  function Merged(held: Profile, email: string, name: string, at: int): Profile {
    Profile(
      if email != "" then email else held.email, if name != "" then name else held.name,
      if held.firstSeen == 0 then at else held.firstSeen, false)
  }

  /** A profile recorded is read back as what was asserted over what was held. */
  lemma SeenReads(
    p: Pack, db: Db, sub: string, email: string, name: string, minted: Key, message: string, w: WriteCtx, plan: Planned)
    requires sub != PLACEHOLDER
    requires Inv(p, db) && PlanSeeIdentity(db, sub, email, name, minted, message, w) == Ok(plan)
    ensures
      var tx := TxOf(p, plan);
      && Apply(db, tx, plan.ops).Some?
      && OpenProfile(Apply(db, tx, plan.ops).value, sub) == Ok(Merged(OpenProfile(db, sub).value, email, name, w.at))
  {
    var tx := TxOf(p, plan);
    var held := OpenProfile(db, sub).value;
    var e := EnsureDek(db.deks, w, PersonKey(sub), minted).value;
    if PersonKey(sub) in db.deks {
      assert DekOk(PersonKey(sub), db.deks[PersonKey(sub)]);
    }
    var next := Merged(held, email, name, w.at);
    SeenLands(db, tx, w, sub, e, ProfileData(next.email, next.name), next.firstSeen);
    ProfileOpens(Apply(db, tx, plan.ops).value, sub, e.key, next);
  }

  lemma ProfileOpens(now: Db, sub: string, key: Key, held: Profile)
    requires sub in now.people.profiles && PersonKey(sub) in now.deks && now.deks[PersonKey(sub)].Live()
    requires DekOk(PersonKey(sub), now.deks[PersonKey(sub)]) && KeyFits(now.deks, PersonKey(sub), key)
    requires
      var row := now.people.profiles[sub];
      && row.scope == PersonKey(sub) && row.firstSeen == held.firstSeen && !held.erased
      && row.sealed == Some(Sealing(PersonKey(sub), key, sub, ProfileData(held.email, held.name)))
    ensures OpenProfile(now, sub) == Ok(held)
  {
  }

  lemma EraseProfileLands(db: Db, tx: TxId, sub: string, at: int)
    requires sub != PLACEHOLDER
    requires DeksOk(db.deks) && at > 0 && sub in db.people.profiles && db.people.profiles[sub].scope == PersonKey(sub)
    requires PersonKey(sub) in db.deks && db.deks[PersonKey(sub)].Live()
    ensures
      var ops := [DestroyKey(PersonKey(sub), at), Ppl(BlankProfile(sub, at))];
      var after := Apply(db, tx, ops);
      && after.Some?
      && after.value == db.(
           people := db.people.(profiles := db.people.profiles[sub := db.people.profiles[sub].(sealed := None, updatedAt := at)]),
           deks := after.value.deks)
      && AgreeBut(db.deks, after.value.deks, PersonKey(sub))
      && PersonKey(sub) in after.value.deks && DekOk(PersonKey(sub), after.value.deks[PersonKey(sub)])
      && DekOnward(db.deks[PersonKey(sub)], after.value.deks[PersonKey(sub)])
      && ProfileLocal(after.value.people, after.value.deks, sub)
  {
    var ops := [DestroyKey(PersonKey(sub), at), Ppl(BlankProfile(sub, at))];
    assert ops == [ops[0]] + [ops[1]];
    assert DekOk(PersonKey(sub), db.deks[PersonKey(sub)]);
    ApplyAppend(db, tx, [ops[0]], [ops[1]]);
    ApplySingle(db, tx, ops[0]);
    ApplySingle(ApplyOne(db, tx, ops[0]).value, tx, ops[1]);
  }

  lemma EraseProfileKeeps(p: Pack, db: Db, who: Principal, sub: string, reason: string, at: int, plan: Planned)
    requires sub != PLACEHOLDER
    requires PackSound(p) && Inv(p, db) && at > 0
    requires PlanEraseProfile(db, who, sub, reason, at) == Ok(plan)
    ensures Kept(p, db, plan)
  {
    var tx := TxOf(p, plan);
    assert ProfileLocal(db.people, db.deks, sub);
    EraseProfileLands(db, tx, sub, at);
    var now := Logged(Apply(db, tx, plan.ops).value, tx);
    PutSame(db.people, now.people, sub, now.people.profiles[sub]);
    PersonStep(p, db, now, tx, sub);
  }
}
