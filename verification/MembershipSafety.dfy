/** What membership, invitations and profiles keep over whole runs. */
module MembershipSafety {
  import opened Outcomes
  import opened Tables
  import opened Packs
  import opened RecordBuild
  import opened RecordInvariant
  import opened Workflows
  import opened Membership

  // ---- members -----------------------------------------------------------------------

  /** Role names the member table can tell apart, none incompatible with itself. */
  ghost predicate RolesSound(p: Pack) {
    forall role :: role in p.roles ==> '|' !in role && !Incompatible(p, role, role)
  }

  predicate MemberOk(p: Pack, id: string, row: MemberRow) {
    row.role in p.roles && id == MemberId(p, row.sub, row.role)
  }

  predicate Together(p: Pack, a: MemberRow, b: MemberRow) {
    a.sub == b.sub ==> !Incompatible(p, a.role, b.role)
  }

  /** Every grant is of a declared role, and nobody holds two roles that may not be held together. */
  ghost predicate MembersOk(p: Pack, members: map<string, MemberRow>) {
    && (forall id :: id in members ==> MemberOk(p, id, members[id]))
    && (forall a, b :: a in members && b in members ==> Together(p, members[a], members[b]))
  }

  lemma GrantKeepsMembers(p: Pack, members: map<string, MemberRow>, row: MemberRow)
    requires RolesSound(p) && MembersOk(p, members) && row.role in p.roles
    requires forall id :: id in members ==> !Bars(p, members[id], row.sub, row.role)
    ensures MembersOk(p, members[MemberId(p, row.sub, row.role) := row])
  {
    var id := MemberId(p, row.sub, row.role);
    var now := members[id := row];
    forall a, b | a in now && b in now
      ensures Together(p, now[a], now[b])
    {
      if a != id && b != id {
        assert Together(p, members[a], members[b]);
      } else if a != id {
        assert !Bars(p, members[a], row.sub, row.role);
      } else if b != id {
        assert !Bars(p, members[b], row.sub, row.role);
      }
    }
  }

  lemma DropKeepsMembers(p: Pack, members: map<string, MemberRow>, id: string)
    requires MembersOk(p, members)
    ensures MembersOk(p, members - {id})
  {
    var now := members - {id};
    forall a, b | a in now && b in now
      ensures Together(p, now[a], now[b])
    {
      assert Together(p, members[a], members[b]);
    }
  }

  /** A grant never takes an administrator away. */
  lemma GrantKeepsAdministrators(p: Pack, members: map<string, MemberRow>, row: MemberRow)
    requires MemberId(p, row.sub, row.role) !in members
    ensures Administrators(p, members) <= Administrators(p, members[MemberId(p, row.sub, row.role) := row])
  {
    var now := members[MemberId(p, row.sub, row.role) := row];
    forall s | s in Administrators(p, members)
      ensures s in Administrators(p, now)
    {
      var id :| id in members && Administers(p, members[id].role) && members[id].sub == s;
      assert id in now && now[id] == members[id];
    }
  }

  /** The row a revocation takes is the only one through which anybody administers. */
  predicate LastOne(p: Pack, members: map<string, MemberRow>, id: string) {
    id in members && Administers(p, members[id].role)
    && forall k :: k in members && Administers(p, members[k].role) ==> k == id
  }

  lemma DropAdministrators(p: Pack, members: map<string, MemberRow>, id: string)
    requires Administrators(p, members) != {}
    ensures Administrators(p, members - {id}) == {} <==> LastOne(p, members, id)
  {
    var now := members - {id};
    var s :| s in Administrators(p, members);
    var k :| k in members && Administers(p, members[k].role) && members[k].sub == s;
    if !LastOne(p, members, id) {
      var j :| j in members && Administers(p, members[j].role) && j != id;
      assert j in now && now[j] == members[j];
      assert now[j].sub in Administrators(p, now);
    }
  }

  /**
   The guard of a revocation looks at the role that was asked for, and the row it takes is the one
   under the id that role and subject spell. When the role is a declared one, somebody administers
   afterwards if somebody did before.
   */
  lemma RevokeKeepsAdministrators(p: Pack, db: Db, who: Principal, sub: string, role: string, message: string, at: int)
    requires RolesSound(p) && MembersOk(p, db.people.members) && Administrators(p, db.people.members) != {}
    requires PlanRevoke(p, db, who, sub, role, message, at).Ok? && '|' !in role
    ensures Administrators(p, db.people.members - {MemberId(p, sub, role)}) != {}
  {
    var members, id := db.people.members, MemberId(p, sub, role);
    DropAdministrators(p, members, id);
    assert MemberOk(p, id, members[id]);
    MemberIdUnique(p, sub, role, members[id].sub, members[id].role);
    if Administers(p, role) {
      var s :| s in Administrators(p, members) - {sub};
      var k :| k in members && Administers(p, members[k].role) && members[k].sub == s;
      assert k != id;
    }
  }

  /** The row's id is spelt with a role that does not administer, whatever role the row itself holds. */
  predicate SpeltPlain(p: Pack, members: map<string, MemberRow>, sub: string, role: string) {
    MemberId(p, sub, role) in members && !Administers(p, role)
  }

  /**
   Exactly when a revocation that is let through leaves nobody to administer: the role asked for is
   not one that administers, yet the row its id spells is the last one that does. Since role names hold
   no bar, that takes a subject with a bar in it, and a role that is not declared.
   */
  lemma AdministratorsLostExactly(p: Pack, db: Db, who: Principal, sub: string, role: string, message: string, at: int)
    requires RolesSound(p) && MembersOk(p, db.people.members) && Administrators(p, db.people.members) != {}
    requires PlanRevoke(p, db, who, sub, role, message, at).Ok?
    ensures
      var members, id := db.people.members, MemberId(p, sub, role);
      && (Administrators(p, members - {id}) == {} <==> LastOne(p, members, id) && SpeltPlain(p, members, sub, role))
      && (Administrators(p, members - {id}) == {} ==> '|' in role && role !in p.roles && '|' in members[id].sub)
  {
    var members, id := db.people.members, MemberId(p, sub, role);
    DropAdministrators(p, members, id);
    assert MemberOk(p, id, members[id]);
    if '|' !in role {
      RevokeKeepsAdministrators(p, db, who, sub, role, message, at);
    }
    if LastOne(p, members, id) {
      assert role !in p.roles;
      BarInSubject(p, sub, role, members[id].sub, members[id].role);
    }
  }

  lemma BarInSubject(p: Pack, sub: string, role: string, other: string, also: string)
    requires MemberId(p, sub, role) == MemberId(p, other, also) && '|' !in also && '|' in role
    ensures '|' in other
  {
    var s, t := MemberId(p, sub, role), MemberId(p, other, also);
    var n := |p.tenant| + 1 + |sub|;
    var i :| 0 <= i < |role| && role[i] == '|';
    assert s[n] == '|' && s[n + 1 + i] == '|';
    forall k | |p.tenant| + 1 + |other| < k < |t|
      ensures t[k] != '|'
    {
      assert t[k] == also[k - (|p.tenant| + 2 + |other|)];
    }
    assert n < |p.tenant| + 1 + |other|;
    assert t[n] == other[|sub|];
  }

  /** A register with one administrator, whose subject holds a bar. */
  function BarredRegister(p: Pack, from: string, at: int): Db {
    Blank().(people := Blank().people.(members := map[MemberId(p, "a|b", "admin") := MemberRow("a|b", "admin", from, at)]))
  }

  lemma BarredMembers(p: Pack, from: string, at: int)
    requires p.roles == map["admin" := Role("admin", [], [PERM_MEMBERS], false, [])]
    ensures MembersOk(p, BarredRegister(p, from, at).people.members)
    ensures Administrators(p, BarredRegister(p, from, at).people.members) == {"a|b"}
  {
    var members := BarredRegister(p, from, at).people.members;
    assert PERM_MEMBERS in p.roles["admin"].permissions;
    assert members[MemberId(p, "a|b", "admin")].sub in Administrators(p, members);
  }

  lemma SameSpelling(p: Pack)
    ensures MemberId(p, "a", "b|admin") == MemberId(p, "a|b", "admin")
  {
    assert "a" + "|" + "b|admin" == "a|b" + "|" + "admin";
    assert MemberId(p, "a", "b|admin") == p.tenant + "|" + ("a" + "|" + "b|admin");
    assert MemberId(p, "a|b", "admin") == p.tenant + "|" + ("a|b" + "|" + "admin");
  }

  /** Where it happens: revoking an undeclared role from one subject takes another's last administrating role. */
  lemma AdministratorsCanBeLost(p: Pack, db: Db, who: Principal, from: string, at: int, since: int)
    requires Can(who, PERM_MEMBERS) && db.people.members == BarredRegister(p, from, since).people.members
    requires p.roles == map["admin" := Role("admin", [], [PERM_MEMBERS], false, [])]
    ensures MembersOk(p, db.people.members) && Administrators(p, db.people.members) == {"a|b"}
    ensures
      PlanRevoke(p, db, who, "a", "b|admin", "", at) ==
      Ok(Planned(
        Envelope(MemberRevoke, who.sub, at, MemberId(p, "a", "b|admin"), ""), [Ppl(DropMember(MemberId(p, "a|b", "admin")))]))
    ensures Administrators(p, db.people.members - {MemberId(p, "a|b", "admin")}) == {}
  {
    BarredMembers(p, from, since);
    SameSpelling(p);
    assert "b|admin"[0] != "admin"[0];
    assert !Administers(p, "b|admin");
  }

  predicate HeldBy(members: map<string, MemberRow>, sub: string, role: string) {
    exists id :: id in members && members[id].sub == sub && members[id].role == role
  }

  /** `GrantedRoles`: roles the member table lists for this subject. */
  ghost predicate AllHeld(members: map<string, MemberRow>, sub: string, granted: seq<string>) {
    forall i :: 0 <= i < |granted| ==> HeldBy(members, sub, granted[i])
  }

  /** Roles granted by the register alone never breach separation of duties when a caller is resolved. */
  lemma GrantedNeverBreaches(p: Pack, members: map<string, MemberRow>, sub: string, granted: seq<string>)
    requires MembersOk(p, members)
    requires AllHeld(members, sub, granted)
    ensures !Breach(p, GrantedOf(p, granted))
  {
    if a, b :| a in GrantedOf(p, granted) && a in p.roles && b in GrantedOf(p, granted) && b in p.roles[a].incompatible {
      GrantedPair(p, members, sub, granted, a, b);
    }
  }

  lemma GrantedPair(p: Pack, members: map<string, MemberRow>, sub: string, granted: seq<string>, a: string, b: string)
    requires MembersOk(p, members)
    requires AllHeld(members, sub, granted)
    requires a in GrantedOf(p, granted) && b in GrantedOf(p, granted)
    ensures !Incompatible(p, a, b)
  {
    var i :| 0 <= i < |granted| && granted[i] == a;
    var j :| 0 <= j < |granted| && granted[j] == b;
    assert HeldBy(members, sub, granted[i]) && HeldBy(members, sub, granted[j]);
    var x :| x in members && members[x].sub == sub && members[x].role == granted[i];
    var y :| y in members && members[y].sub == sub && members[y].role == granted[j];
    assert Together(p, members[x], members[y]);
  }

  // ---- sealed rows ------------------------------------------------------------------------

  predicate SealFits(deks: map<Scope, Dek>, s: Scope, owner: Id, sealed: Option<Ciphertext>) {
    && s in deks
    && (sealed.Some? ==>
          sealed.value.scope == s && sealed.value.owner == owner && sealed.value.version == 0
          && KeyFits(deks, s, sealed.value.key))
    && (deks[s].Live() ==> sealed.Some?)
  }

  /** An invitation is used or withdrawn, never both, and its key does not outlive it. */
  predicate InviteOk(deks: map<Scope, Dek>, id: Id, i: InviteRow) {
    && !(i.revoked && i.usedBy != "")
    && (InviteKey(id) in deks && deks[InviteKey(id)].Live() ==> !i.revoked && i.usedBy == "")
  }

  predicate InviteLocal(ppl: People, deks: map<Scope, Dek>, id: Id) {
    && (id in ppl.invites ==> InviteOk(deks, id, ppl.invites[id]))
    && (id in ppl.recipients ==>
          && ppl.recipients[id].scope == InviteKey(id) && id in ppl.invites
          && SealFits(deks, InviteKey(id), id, ppl.recipients[id].sealed))
    && (InviteKey(id) in deks ==> id in ppl.recipients)
  }

  predicate ProfileLocal(ppl: People, deks: map<Scope, Dek>, sub: string) {
    && (sub in ppl.profiles ==>
          ppl.profiles[sub].scope == PersonKey(sub) && SealFits(deks, PersonKey(sub), sub, ppl.profiles[sub].sealed))
    && (PersonKey(sub) in deks ==> sub in ppl.profiles)
  }

  ghost predicate SealsOk(ppl: People, deks: map<Scope, Dek>) {
    && (forall id :: InviteLocal(ppl, deks, id))
    && (forall sub :: ProfileLocal(ppl, deks, sub))
  }

  predicate SameInvite(a: People, b: People, id: Id) {
    && (id in a.invites <==> id in b.invites) && (id in a.invites ==> b.invites[id] == a.invites[id])
    && (id in a.recipients <==> id in b.recipients) && (id in a.recipients ==> b.recipients[id] == a.recipients[id])
  }

  predicate SameProfile(a: People, b: People, sub: string) {
    (sub in a.profiles <==> sub in b.profiles) && (sub in a.profiles ==> b.profiles[sub] == a.profiles[sub])
  }

  /** The key tables agree about one scope. */
  predicate SameKeyAt(deks: map<Scope, Dek>, now: map<Scope, Dek>, s: Scope) {
    (s in now <==> s in deks) && (s in deks ==> now[s] == deks[s])
  }

  ghost predicate AgreeBut(deks: map<Scope, Dek>, now: map<Scope, Dek>, s: Scope) {
    forall t :: t != s ==> SameKeyAt(deks, now, t)
  }

  /** A step that touches one invitation and its key. */
  lemma InviteStep(a: People, deks: map<Scope, Dek>, b: People, now: map<Scope, Dek>, id: Id)
    requires SealsOk(a, deks) && AgreeBut(deks, now, InviteKey(id)) && b.profiles == a.profiles
    requires forall other :: other != id ==> SameInvite(a, b, other)
    requires InviteLocal(b, now, id)
    ensures SealsOk(b, now)
  {
    forall other
      ensures InviteLocal(b, now, other)
    {
      if other != id {
        assert InviteLocal(a, deks, other) && SameInvite(a, b, other) && SameKeyAt(deks, now, InviteKey(other));
      }
    }
    forall sub
      ensures ProfileLocal(b, now, sub)
    {
      assert ProfileLocal(a, deks, sub) && SameKeyAt(deks, now, PersonKey(sub));
    }
  }

  /** A step that touches one person's profile and its key. */
  lemma ProfileStep(a: People, deks: map<Scope, Dek>, b: People, now: map<Scope, Dek>, sub: string)
    requires SealsOk(a, deks) && AgreeBut(deks, now, PersonKey(sub))
    requires b.invites == a.invites && b.recipients == a.recipients
    requires forall other :: other != sub ==> SameProfile(a, b, other)
    requires ProfileLocal(b, now, sub)
    ensures SealsOk(b, now)
  {
    forall id
      ensures InviteLocal(b, now, id)
    {
      assert InviteLocal(a, deks, id) && SameKeyAt(deks, now, InviteKey(id));
    }
    forall other
      ensures ProfileLocal(b, now, other)
    {
      if other != sub {
        assert ProfileLocal(a, deks, other) && SameProfile(a, b, other) && SameKeyAt(deks, now, PersonKey(other));
      }
    }
  }

  /** Steps that touch no invitation, no profile and none of their keys. */
  lemma SealsAlone(a: People, deks: map<Scope, Dek>, b: People, now: map<Scope, Dek>)
    requires SealsOk(a, deks)
    requires b.invites == a.invites && b.recipients == a.recipients && b.profiles == a.profiles
    requires forall s: Scope :: s.InviteKey? || s.PersonKey? ==> SameKeyAt(deks, now, s)
    ensures SealsOk(b, now)
  {
    forall id
      ensures InviteLocal(b, now, id)
    {
      assert InviteLocal(a, deks, id) && SameKeyAt(deks, now, InviteKey(id));
    }
    forall sub
      ensures ProfileLocal(b, now, sub)
    {
      assert ProfileLocal(a, deks, sub) && SameKeyAt(deks, now, PersonKey(sub));
    }
  }

  // ---- spending an invitation ------------------------------------------------------------------

  predicate Spends(tx: TxId, id: Id, sub: string) {
    exists k :: 0 <= k < |tx.ops| && IsSpend(tx.ops[k], id, sub)
  }

  predicate IsSpend(op: Op, id: Id, sub: string) {
    op.Ppl? && op.p.SpendInvite? && op.p.id == id && op.p.sub == sub
  }

  predicate GrantsRole(tx: TxId, sub: string, role: string) {
    exists k :: 0 <= k < |tx.ops| && IsGrant(tx.ops[k], sub, role)
  }

  predicate IsGrant(op: Op, sub: string, role: string) {
    op.Ppl? && op.p.PutMember? && op.p.member.sub == sub && op.p.member.role == role
  }

  predicate SpendRecorded(invites: map<Id, InviteRow>, tx: TxId, id: Id, sub: string) {
    id in invites && invites[id].usedBy == sub && sub != "" && GrantsRole(tx, sub, invites[id].role)
  }

  ghost predicate SpentIn(log: seq<TxId>, id: Id, sub: string) {
    exists i :: 0 <= i < |log| && Spends(log[i], id, sub)
  }

  /**
   An invitation is spent exactly in the one commit that grants its role to whoever presented it.
   */
  ghost predicate SpendsOk(invites: map<Id, InviteRow>, log: seq<TxId>) {
    && (forall i, id, sub :: 0 <= i < |log| && Spends(log[i], id, sub) ==> SpendRecorded(invites, log[i], id, sub))
    && (forall id :: id in invites && invites[id].usedBy != "" ==> SpentIn(log, id, invites[id].usedBy))
    && (forall i, j, id, x, y :: 0 <= i < j < |log| ==> !(Spends(log[i], id, x) && Spends(log[j], id, y)))
  }

  /** An invitation keeps what it grants and to whom it is spent; using and withdrawing are for good. */
  predicate InviteOnward(a: InviteRow, b: InviteRow) {
    && b.role == a.role && b.secret == a.secret && b.createdAt == a.createdAt && b.expiresAt == a.expiresAt
    && (a.usedBy != "" || a.revoked ==> b == a)
  }

  ghost predicate InvitesOnward(a: map<Id, InviteRow>, b: map<Id, InviteRow>) {
    forall id :: id in a ==> id in b && InviteOnward(a[id], b[id])
  }

  lemma SpentGrows(log: seq<TxId>, tx: TxId, id: Id, sub: string)
    ensures SpentIn(log, id, sub) ==> SpentIn(log + [tx], id, sub)
    ensures Spends(tx, id, sub) ==> SpentIn(log + [tx], id, sub)
  {
    var more := log + [tx];
    if SpentIn(log, id, sub) {
      var i :| 0 <= i < |log| && Spends(log[i], id, sub);
      assert more[i] == log[i];
    }
    assert more[|log|] == tx;
  }

  /** Entries that spend nothing leave the record of spending alone. */
  lemma SpendsAlone(a: map<Id, InviteRow>, b: map<Id, InviteRow>, log: seq<TxId>, tx: TxId)
    requires SpendsOk(a, log)
    requires forall id :: id in a ==> id in b && b[id].role == a[id].role && b[id].usedBy == a[id].usedBy
    requires forall id :: id in b && id !in a ==> b[id].usedBy == ""
    requires forall id, sub :: !Spends(tx, id, sub)
    ensures SpendsOk(b, log + [tx])
  {
    var more := log + [tx];
    forall i, id, sub | 0 <= i < |more| && Spends(more[i], id, sub)
      ensures SpendRecorded(b, more[i], id, sub)
    {
      assert more[i] == log[i] && SpendRecorded(a, log[i], id, sub);
    }
    forall id | id in b && b[id].usedBy != ""
      ensures SpentIn(more, id, b[id].usedBy)
    {
      SpentGrows(log, tx, id, b[id].usedBy);
    }
  }

  /** The entry that spends an invitation is the first and the last to do so. */
  lemma SpendKeeps(a: map<Id, InviteRow>, log: seq<TxId>, tx: TxId, id: Id, sub: string, at: int)
    requires SpendsOk(a, log) && id in a && a[id].usedBy == "" && sub != ""
    requires Spends(tx, id, sub) && GrantsRole(tx, sub, a[id].role)
    requires forall other, who :: Spends(tx, other, who) ==> other == id && who == sub
    ensures SpendsOk(a[id := a[id].(usedBy := sub, usedAt := at)], log + [tx])
  {
    var b, more := a[id := a[id].(usedBy := sub, usedAt := at)], log + [tx];
    forall i, x, y | 0 <= i < |more| && Spends(more[i], x, y)
      ensures SpendRecorded(b, more[i], x, y)
    {
      if i < |log| {
        assert more[i] == log[i] && SpendRecorded(a, log[i], x, y);
      }
    }
    forall x | x in b && b[x].usedBy != ""
      ensures SpentIn(more, x, b[x].usedBy)
    {
      SpentGrows(log, tx, x, b[x].usedBy);
    }
    forall i, j, x, y, z | 0 <= i < j < |more|
      ensures !(Spends(more[i], x, y) && Spends(more[j], x, z))
    {
      if j < |log| {
        assert !(Spends(log[i], x, y) && Spends(log[j], x, z));
      } else if Spends(more[j], x, z) {
        assert Spends(log[i], x, y) ==> SpendRecorded(a, log[i], x, y);
      }
    }
  }
}
