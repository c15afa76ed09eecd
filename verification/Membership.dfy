/**
 Who holds which role, how invitations are issued and spent, and what is kept of a person
 (`internal/register/members.go`, `invite_mail.go`, `identities.go`, `internal/auth/rbac.go`).
 */
module Membership {
  import opened Outcomes
  import opened Tables
  import opened Packs
  import opened RecordBuild
  import opened Workflows
  import Canon

  // ---- names -------------------------------------------------------------------------

  function MemberId(p: Pack, sub: string, role: string): string {
    p.tenant + "|" + sub + "|" + role
  }

  /** What a member's id ends in, after its last bar. */
  lemma BarSplits(a: string, b: string, x: string, y: string)
    requires a + "|" + x == b + "|" + y && '|' !in x && '|' !in y
    ensures a == b && x == y
  {
    var s, t := a + "|" + x, b + "|" + y;
    forall i | |a| < i < |s|
      ensures s[i] != '|'
    {
      assert s[i] == x[i - |a| - 1];
    }
    forall i | |b| < i < |t|
      ensures t[i] != '|'
    {
      assert t[i] == y[i - |b| - 1];
    }
    assert s[|a|] == '|' && t[|b|] == '|';
    assert |a| == |b|;
    assert s[..|a|] == a && t[..|b|] == b;
    assert s[|a| + 1..] == x && t[|b| + 1..] == y;
  }

  /** One id, one subject and one role, when role names hold no bar. */
  lemma MemberIdUnique(p: Pack, sub: string, role: string, other: string, also: string)
    requires MemberId(p, sub, role) == MemberId(p, other, also) && '|' !in role && '|' !in also
    ensures sub == other && role == also
  {
    BarSplits(p.tenant + "|" + sub, p.tenant + "|" + other, role, also);
    assert (p.tenant + "|" + sub)[|p.tenant| + 1..] == sub;
    assert (p.tenant + "|" + other)[|p.tenant| + 1..] == other;
  }

  // ---- roles -----------------------------------------------------------------------------

  predicate Administers(p: Pack, role: string) {
    role in p.roles && PERM_MEMBERS in p.roles[role].permissions
  }

  /** Either role names the other as incompatible. */
  predicate Incompatible(p: Pack, a: string, b: string) {
    (a in p.roles && b in p.roles[a].incompatible) || (b in p.roles && a in p.roles[b].incompatible)
  }

  function AdministratorsIn(p: Pack, members: map<string, MemberRow>, ids: set<string>): set<string> {
    set id | id in ids && id in members && Administers(p, members[id].role) :: members[id].sub
  }

  function Administrators(p: Pack, members: map<string, MemberRow>): set<string> {
    AdministratorsIn(p, members, members.Keys)
  }

  /** `otherAdministrators`: how many other people may manage membership. */
  method OtherAdministrators(p: Pack, members: map<string, MemberRow>, except: string) returns (n: nat)
    ensures n == |Administrators(p, members) - {except}|
  {
    var seen: set<string> := {};
    var todo := members.Keys;
    while todo != {}
      invariant todo <= members.Keys
      invariant seen == AdministratorsIn(p, members, members.Keys - todo) - {except}
      decreases |todo|
    {
      var id :| id in todo;
      CountStep(p, members, members.Keys - todo, id, except);
      seen := seen + Counted(p, members[id], except);
      assert members.Keys - (todo - {id}) == (members.Keys - todo) + {id};
      todo := todo - {id};
    }
    assert members.Keys - todo == members.Keys;
    return |seen|;
  }

  /** What one row adds to the people counted. */
  function Counted(p: Pack, row: MemberRow, except: string): set<string> {
    if row.sub == except || !Administers(p, row.role) then {} else {row.sub}
  }

  lemma CountStep(p: Pack, members: map<string, MemberRow>, ids: set<string>, id: string, except: string)
    requires id in members
    ensures
      AdministratorsIn(p, members, ids + {id}) - {except} ==
      (AdministratorsIn(p, members, ids) - {except}) + Counted(p, members[id], except)
  {
    AdministratorsAdd(p, members, ids, id);
  }

  lemma AdministratorsAdd(p: Pack, members: map<string, MemberRow>, ids: set<string>, id: string)
    requires id in members
    ensures
      AdministratorsIn(p, members, ids + {id}) ==
      AdministratorsIn(p, members, ids) + (if Administers(p, members[id].role) then {members[id].sub} else {})
  {
  }

  /** Somebody already holds this role, or one it may not be held with. */
  predicate Bars(p: Pack, held: MemberRow, sub: string, role: string) {
    held.sub == sub && (held.role == role || Incompatible(p, role, held.role))
  }

  /** `grant` */
  function PlanGrant(
    p: Pack, db: Db, kind: Kind, author: string, sub: string, role: string, message: string, at: int, extra: seq<Op>)
    : Result<Planned, Refusal>
  {
    if role !in p.roles then Err(Refused("no such role"))
    else if exists id :: id in db.people.members && Bars(p, db.people.members[id], sub, role) then
      Err(Refused("separation of duties"))
    else
      Ok(Planned(
        Envelope(kind, author, at, MemberId(p, sub, role), message),
        [Ppl(PutMember(MemberId(p, sub, role), MemberRow(sub, role, author, at)))] + extra))
  }

  /** `RevokeRole`: the last person who may manage membership stays. */
  function PlanRevoke(p: Pack, db: Db, who: Principal, sub: string, role: string, message: string, at: int)
    : Result<Planned, Refusal>
  {
    if !Can(who, PERM_MEMBERS) then Err(Refused("permission"))
    else if MemberId(p, sub, role) !in db.people.members then Err(Refused("no such member"))
    else if Administers(p, role) && |Administrators(p, db.people.members) - {sub}| == 0 then
      Err(Refused("last administrator"))
    else
      Ok(Planned(
        Envelope(MemberRevoke, who.sub, at, MemberId(p, sub, role), message),
        [Ppl(DropMember(MemberId(p, sub, role)))]))
  }

  // ---- resolving a caller ----------------------------------------------------------------------

  datatype ResolveError = NoRole | Duties | NotHeld

  function TokenRoles(p: Pack, token: seq<string>): set<string> {
    set name, i, j | name in p.roles && 0 <= i < |token| && 0 <= j < |p.roles[name].oidc| && p.roles[name].oidc[j] == token[i] :: name
  }

  function GrantedOf(p: Pack, granted: seq<string>): set<string> {
    set i | 0 <= i < |granted| && granted[i] in p.roles :: granted[i]
  }

  predicate Breach(p: Pack, held: set<string>) {
    exists a, b :: a in held && a in p.roles && b in held && b in p.roles[a].incompatible
  }

  function PermissionsOf(p: Pack, held: set<string>): set<string> {
    set name, i | name in held && name in p.roles && 0 <= i < |p.roles[name].permissions| :: p.roles[name].permissions[i]
  }

  /** The role whose name comes first. */
  ghost predicate ActsFirst(held: set<string>, acting: string) {
    forall other :: other in held && other != acting ==> Canon.Before(acting, other)
  }

  lemma FirstOfSorted(held: set<string>)
    requires held != {}
    ensures Canon.SortedKeys(held) != [] && Canon.SortedKeys(held)[0] in held && ActsFirst(held, Canon.SortedKeys(held)[0])
  {
    var names := Canon.SortedKeys(held);
    assert Canon.Elements(names) == held;
    var any :| any in held;
    assert any in names;
    forall other | other in held && other != names[0]
      ensures Canon.Before(names[0], other)
    {
      assert other in Canon.Elements(names);
      var i :| 0 <= i < |names| && names[i] == other;
    }
  }

  /** A role is held when the token claims it or the register granted it, if the model knows it. */
  ghost predicate HoldsRole(p: Pack, token: seq<string>, granted: seq<string>, name: string) {
    name in p.roles && (name in granted || exists claim :: claim in token && claim in p.roles[name].oidc)
  }

  lemma RolesHeld(p: Pack, token: seq<string>, granted: seq<string>, name: string)
    ensures name in TokenRoles(p, token) + GrantedOf(p, granted) <==> HoldsRole(p, token, granted, name)
  {
    if name in p.roles {
      if claim :| claim in token && claim in p.roles[name].oidc {
        var i :| 0 <= i < |token| && token[i] == claim;
        var j :| 0 <= j < |p.roles[name].oidc| && p.roles[name].oidc[j] == token[i];
        assert name in TokenRoles(p, token);
      }
      if name in TokenRoles(p, token) {
        var i, j :| 0 <= i < |token| && 0 <= j < |p.roles[name].oidc| && p.roles[name].oidc[j] == token[i];
        assert token[i] in token && token[i] in p.roles[name].oidc;
      }
    }
  }

  /** The permissions of the roles held. */
  lemma PermissionsMean(p: Pack, held: set<string>, perm: string)
    ensures perm in PermissionsOf(p, held) <==> exists name :: name in held && name in p.roles && perm in p.roles[name].permissions
  {
    if name :| name in held && name in p.roles && perm in p.roles[name].permissions {
      var i :| 0 <= i < |p.roles[name].permissions| && p.roles[name].permissions[i] == perm;
    }
    if perm in PermissionsOf(p, held) {
      var name, i :| name in held && name in p.roles && 0 <= i < |p.roles[name].permissions| && p.roles[name].permissions[i] == perm;
      assert perm in p.roles[name].permissions;
    }
  }

  /**
   `Resolve`: the roles held are the token's and the granted ones the model knows; holding two that may
   not be held together is refused, and the caller acts under the role they ask for, or the first by name,
   with what all their roles grant.
   */
  method Resolve(p: Pack, sub: string, token: seq<string>, granted: seq<string>, requested: string)
    returns (r: Result<Principal, ResolveError>)
    ensures
      var held := TokenRoles(p, token) + GrantedOf(p, granted);
      && (r == Err(NoRole) <==> held == {})
      && (r == Err(Duties) <==> held != {} && Breach(p, held))
      && (r == Err(NotHeld) <==> held != {} && !Breach(p, held) && requested != "" && requested !in held)
      && (r.Ok? ==>
            && r.value.sub == sub && r.value.acting in held
            && (if requested != "" then r.value.acting == requested else ActsFirst(held, r.value.acting))
            && r.value.perms == PermissionsOf(p, held)
            && (r.value.pii <==> exists name :: name in held && name in p.roles && p.roles[name].pii))
  {
    var held := TokenRoles(p, token);
    for i := 0 to |granted|
      invariant held == TokenRoles(p, token) + GrantedOf(p, granted[..i])
    {
      GrantedStep(p, granted, i);
      if granted[i] in p.roles {
        held := held + {granted[i]};
      }
    }
    assert granted[..|granted|] == granted;
    if held == {} {
      return Err(NoRole);
    }
    if Breach(p, held) {
      return Err(Duties);
    }
    if requested != "" && requested !in held {
      return Err(NotHeld);
    }
    var acting := requested;
    if acting == "" {
      var names := Canon.SortStrings(held);
      FirstOfSorted(held);
      acting := names[0];
    }
    r := Ok(Principal(sub, acting, exists name :: name in held && name in p.roles && p.roles[name].pii, PermissionsOf(p, held)));
  }

  lemma GrantedStep(p: Pack, granted: seq<string>, i: nat)
    requires i < |granted|
    ensures
      GrantedOf(p, granted[..i + 1]) ==
      GrantedOf(p, granted[..i]) + (if granted[i] in p.roles then {granted[i]} else {})
  {
    var longer, shorter := granted[..i + 1], granted[..i];
    assert longer == shorter + [granted[i]];
    forall s
      ensures s in GrantedOf(p, longer) <==>
        s in GrantedOf(p, shorter) + (if granted[i] in p.roles then {granted[i]} else {})
    {
      if s in GrantedOf(p, shorter) {
        var k :| 0 <= k < |shorter| && shorter[k] in p.roles && shorter[k] == s;
        assert longer[k] == s;
      }
      if granted[i] in p.roles && s == granted[i] {
        assert longer[i] == s;
      }
      if s in GrantedOf(p, longer) {
        var k :| 0 <= k < |longer| && longer[k] in p.roles && longer[k] == s;
        assert k < i ==> shorter[k] == s;
      }
    }
  }

  // ---- invitations ---------------------------------------------------------------------------------

  datatype InviteStatus = Open | Used | Expired | Revoked

  const DEFAULT_LIFETIME: int := 14 * 86400
  const MAX_LIFETIME: int := 30 * 86400

  /** `decodeInvite` */
  function StatusOf(i: InviteRow, at: int): InviteStatus {
    if i.revoked then Revoked
    else if i.usedBy != "" then Used
    else if at > i.expiresAt then Expired
    else Open
  }

  function Sealing(scope: Scope, key: Key, owner: Id, data: Payload): Ciphertext {
    Encrypt(key, scope, owner, 0, data)
  }

  /** `createInvite`, with a sealed recipient when the register will write to one. */
  function PlanInvite(
    p: Pack, db: Db, author: string, role: string, validFor: int, recipient: Option<Payload>, id: Id, secret: string,
    minted: Key, message: string, w: WriteCtx) : Result<Planned, Refusal>
  {
    var lifetime := if validFor <= 0 then DEFAULT_LIFETIME else validFor;
    if role !in p.roles then Err(Refused("no such role"))
    else if lifetime > MAX_LIFETIME then Err(Refused("lifetime"))
    else
      var put := Ppl(PutInvite(id, InviteRow(role, secret, author, w.at, w.at + lifetime, "", 0, false)));
      var more :- SealRecipient(db.deks, w, id, recipient, minted);
      Ok(Planned(Envelope(InviteCreate, author, w.at, id, message), [put] + more))
  }

  /** `sealRecipient` */
  function SealRecipient(deks: map<Scope, Dek>, w: WriteCtx, id: Id, recipient: Option<Payload>, minted: Key)
    : Result<seq<Op>, Refusal>
  {
    if recipient.None? then Ok([])
    else
      var e :- EnsureDek(deks, w, InviteKey(id), minted);
      Ok(e.mint + [Ppl(PutRecipient(
        id, RecipientRow(InviteKey(id), Some(Sealing(InviteKey(id), e.key, id, recipient.value)), 0)))])
  }

  /** `forgetRecipient`: nothing for a bare link, or one already forgotten. */
  function ForgetOps(db: Db, id: Id, at: int): seq<Op> {
    if id !in db.people.recipients then []
    else
      var scope := db.people.recipients[id].scope;
      if scope !in db.deks || !db.deks[scope].Live() then []
      else [DestroyKey(scope, at), Ppl(BlankRecipient(id))]
  }

  /** `RevokeInvite` */
  function PlanInviteRevoke(db: Db, who: Principal, id: Id, message: string, at: int): Result<Planned, Refusal> {
    if !Can(who, PERM_MEMBERS) then Err(Refused("permission"))
    else if id !in db.people.invites then Err(Refused("no such invitation"))
    else if StatusOf(db.people.invites[id], at) != Open then Err(Refused("not open"))
    else
      Ok(Planned(
        Envelope(InviteRevoke, who.sub, at, id, message), [Ppl(WithdrawInvite(id))] + ForgetOps(db, id, at)))
  }

  /** `openInvite`: one answer for every unusable invitation. */
  function OpenInvite(db: Db, id: Id, secret: string, at: int): Result<InviteRow, Refusal> {
    if id !in db.people.invites || db.people.invites[id].secret != secret then Err(Refused("invitation"))
    else if StatusOf(db.people.invites[id], at) != Open then Err(Refused("invitation"))
    else Ok(db.people.invites[id])
  }

  /** `RedeemInvite`: the grant and the spending are one commit. */
  function PlanRedeem(p: Pack, db: Db, sub: string, id: Id, secret: string, message: string, at: int)
    : Result<Planned, Refusal>
  {
    if sub == "" then Err(Refused("not signed in"))
    else
      var i :- OpenInvite(db, id, secret, at);
      PlanGrant(
        p, db, InviteRedeem, sub, sub, i.role, message, at, [Ppl(SpendInvite(id, sub, at))] + ForgetOps(db, id, at))
  }

  /** `MarkReminded` */
  function PlanRemind(id: Id, message: string, at: int): Planned {
    Planned(Envelope(InviteRemind, "reminders", at, id, message), [Ppl(RemindRecipient(id, at))])
  }

  /** One turn of `ForgetExpiredRecipients`. */
  function PlanExpire(db: Db, id: Id, message: string, at: int): Result<Planned, Refusal> {
    if id !in db.people.recipients || id !in db.people.invites then Err(Refused("no recipient"))
    else if StatusOf(db.people.invites[id], at) != Expired then Err(Refused("not expired"))
    else if ForgetOps(db, id, at) == [] then Err(Refused("already forgotten"))
    else Ok(Planned(Envelope(InviteExpire, "reminders", at, id, message), ForgetOps(db, id, at)))
  }

  // ---- profiles ----------------------------------------------------------------------------------------

  datatype Profile = Profile(email: string, name: string, firstSeen: int, erased: bool)

  function ProfileData(email: string, name: string): Payload {
    map["email" := Canon.Str(email), "name" := Canon.Str(name)]
  }

  function Field(data: Payload, key: string): string {
    if key in data && data[key].Str? then data[key].s else ""
  }

  /** `profileIn` */
  function OpenProfile(db: Db, sub: string): Result<Profile, Refusal> {
    if sub !in db.people.profiles then Ok(Profile("", "", 0, false))
    else
      var row := db.people.profiles[sub];
      if row.scope !in db.deks || !db.deks[row.scope].Live() then Ok(Profile("", "", row.firstSeen, true))
      else if row.sealed.None? then Err(Refused("sealed"))
      else
        var key := Unwrap(row.sealed.value.scope, db.deks[row.scope].opWrap);
        if key.None? then Err(Refused("unwrap"))
        else
          var data := Decrypt(key.value, row.sealed.value, sub, 0);
          if data.None? then Err(Refused("decrypt"))
          else Ok(Profile(Field(data.value, "email"), Field(data.value, "name"), row.firstSeen, false))
  }

  /** `SeeIdentity`: nothing is written when nothing new is asserted, or once the person was erased. */
  function PlanSeeIdentity(db: Db, sub: string, email: string, name: string, minted: Key, message: string, w: WriteCtx)
    : Result<Planned, Refusal>
  {
    var held :- OpenProfile(db, sub);
    var changed := (email != "" && email != held.email) || (name != "" && name != held.name);
    if !changed || held.erased then Err(Refused("nothing new"))
    else
      var e :- EnsureDek(db.deks, w, PersonKey(sub), minted);
      var data := ProfileData(if email != "" then email else held.email, if name != "" then name else held.name);
      var first := if held.firstSeen == 0 then w.at else held.firstSeen;
      Ok(Planned(
        Envelope(ProfileRecord, "sign-in", w.at, sub, message),
        e.mint + [Ppl(PutProfile(
          sub, ProfileRow(PersonKey(sub), Some(Sealing(PersonKey(sub), e.key, sub, data)), first, w.at)))]))
  }

  /** `EraseProfile` */
  function PlanEraseProfile(db: Db, who: Principal, sub: string, reason: string, at: int): Result<Planned, Refusal> {
    if !Can(who, PERM_ERASURE) then Err(Refused("permission"))
    else if sub == "" || reason == "" then Err(Refused("request"))
    else if sub !in db.people.profiles then Err(Refused("no profile"))
    else
      var scope := db.people.profiles[sub].scope;
      if scope !in db.deks || !db.deks[scope].Live() then Err(Refused("already erased"))
      else
        Ok(Planned(
          Envelope(Erasure, who.sub, at, sub, reason), [DestroyKey(scope, at), Ppl(BlankProfile(sub, at))]))
  }
}
