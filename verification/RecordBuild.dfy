/**
 How a record changes and how it is read (`internal/register/records.go`,
 `internal/register/mutations.go`), as functions of the state a write set is built against.
 */
module RecordBuild {
  import opened Outcomes
  import opened Tables
  import opened Packs
  import Canon

  // ---- keys ----------------------------------------------------------------------

  function DekScope(c: Class, o: Id): Scope {
    match c.encryption
    case EncNone => NoScope
    case EncTenant => TenantKey
    case EncClass => ClassKey(c.name)
    case EncSubject => SubjectKey(o)
  }

  /** What follows the tenant's name and the slash in a scope's name. */
  function ScopeTail(s: Scope): string {
    match s
    case NoScope => ""
    case TenantKey => "tenant"
    case ClassKey(c) => "class/" + c
    case SubjectKey(o) => "subject/" + o
    case TaskKey(t) => "task/" + t
    case InviteKey(i) => "invite/" + i
    case PersonKey(p) => "person/" + p
  }

  /** The name a scope is stored under. */
  function ScopeText(tenant: string, s: Scope): string {
    if s.NoScope? then "" else tenant + "/" + ScopeTail(s)
  }

  lemma TailsApart(a: Scope, b: Scope)
    requires !a.NoScope? && !b.NoScope? && ScopeTail(a) == ScopeTail(b)
    ensures a == b
  {
    var s, t := ScopeTail(a), ScopeTail(b);
    assert s[0] == t[0] && s[1] == t[1];
    match a {
      case TenantKey => assert s[..5] == t[..5];
      case ClassKey(c) => assert s[6..] == c; assert t[6..] == b.cls;
      case SubjectKey(c) => assert s[8..] == c; assert t[8..] == b.objectId;
      case TaskKey(c) => assert s[5..] == c; assert s[2] == t[2]; assert t[5..] == b.taskId;
      case InviteKey(c) => assert s[7..] == c; assert t[7..] == b.inviteId;
      case PersonKey(c) => assert s[7..] == c; assert t[7..] == b.sub;
    }
  }

  /** Two scopes of one tenant never share a name, so the symbolic scopes stand for the stored ones. */
  lemma ScopeNamesUnique(tenant: string, a: Scope, b: Scope)
    requires ScopeText(tenant, a) == ScopeText(tenant, b)
    ensures a == b
  {
    if !a.NoScope? && !b.NoScope? {
      assert ScopeText(tenant, a)[|tenant + "/"|..] == ScopeTail(a);
      assert ScopeText(tenant, b)[|tenant + "/"|..] == ScopeTail(b);
      TailsApart(a, b);
    }
  }

  /** What every effect of one transaction shares. `recover`: a customer key is enrolled. */
  datatype WriteCtx = WriteCtx(at: int, recover: bool, pending: map<Id, string>)

  datatype Ensured = Ensured(key: Key, mint: seq<Op>)

  function MintOf(w: WriteCtx, scope: Scope, minted: Key): Op {
    MintKey(scope, Wrapped(scope, minted), if w.recover then Wrapped(scope, minted) else NoWrap, w.at)
  }

  /** `ensureDEK`: it looks only at the store, not at what the same write set has minted. */
  function EnsureDek(deks: map<Scope, Dek>, w: WriteCtx, scope: Scope, minted: Key): Result<Ensured, Refusal> {
    if scope in deks then
      if !deks[scope].Live() then Err(Refused("destroyed"))
      else
        var key := Unwrap(scope, deks[scope].opWrap);
        if key.None? then Err(Refused("unwrap")) else Ok(Ensured(key.value, []))
    else Ok(Ensured(minted, [MintOf(w, scope, minted)]))
  }

  // ---- building -----------------------------------------------------------------------

  datatype Draft = Draft(cls: Class, objectId: Id, version: nat, status: string, payload: Payload, minted: Key)

  function HashOf(c: Class, key: Key, payload: Payload): PayloadHash {
    if c.encryption.EncNone? then PlainHash(payload) else KeyedHash(key, payload)
  }

  /** The stored shape a commitment answers for. */
  function Seal(c: Class, o: Id, v: nat, hash: PayloadHash): Stored {
    Stored(
      Clear(c.pii, hash.payload),
      if hash.PlainHash? then None
      else Some(Encrypt(hash.key, DekScope(c, o), o, v, Personal(c.pii, hash.payload))))
  }

  function NaturalKeyOf(p: Pack, c: Class, o: Id, payload: Payload): string {
    if c.naturalKey != "" && c.naturalKey in payload then p.sprint(payload[c.naturalKey]) else o
  }

  /** The natural key a change is given, placeholder or not. */
  function GivenKey(p: Pack, d: Draft): string {
    NaturalKeyOf(p, d.cls, d.objectId, d.payload)
  }

  /** `checkNaturalKey` */
  predicate NaturalKeyFree(objects: map<Id, ObjectRow>, c: Class, o: Id, naturalKey: string) {
    c.naturalKey == "" || !Taken(objects, c.name, naturalKey, o)
  }

  predicate ReferenceOk(p: Pack, objects: map<Id, ObjectRow>, pending: map<Id, string>, v: Canon.Value, cls: string) {
    || v == Canon.Null
    || v == Canon.Str("")
    || (var target := p.sprint(v);
        if target in pending then pending[target] == cls else target in objects && objects[target].cls == cls)
  }

  /** `checkReferences` */
  predicate ReferencesOk(p: Pack, objects: map<Id, ObjectRow>, pending: map<Id, string>, c: Class, payload: Payload) {
    forall prop :: prop in c.references && prop in payload ==>
      ReferenceOk(p, objects, pending, payload[prop], c.references[prop])
  }

  function Member(v: Canon.Value, member: string): Canon.Value {
    if member == "" then v
    else if v.Obj? && member in v.members then v.members[member]
    else Canon.Null
  }

  /** The projected columns; an absent property projects the column's zero value. */
  function Columns(p: Pack, projections: seq<Projection>, clear: Payload): Payload {
    if projections == [] then map[]
    else
      var pr := projections[|projections| - 1];
      var v := if pr.property in clear then clear[pr.property] else Canon.Null;
      Columns(p, projections[..|projections| - 1], clear)[pr.column := p.coerce(pr.typ, Member(v, pr.member))]
  }

  /** `projectionOps` */
  function ProjectionOp(p: Pack, c: Class, o: Id, status: string, at: int, clear: Payload): RecordOp {
    PutQuery(TableOf(c), o, QueryRow(status, at, Columns(p, c.projections, clear)))
  }

  /** `previousNaturalKey` */
  function PreviousKey(objects: map<Id, ObjectRow>, o: Id): Settled {
    if o in objects then objects[o].naturalKey else ""
  }

  /** The index writes: the old key is retired unless it is empty or unchanged. */
  function KeyOps(previous: Settled, c: Class, o: Id, naturalKey: string, at: int): seq<Op> {
    if c.naturalKey == "" then []
    else
      (if previous != "" && previous != naturalKey then [Rec(DropKey(c.name, previous))] else [])
      + [Rec(PutKey(c.name, naturalKey, o, at))]
  }

  function RecordOps(p: Pack, objects: map<Id, ObjectRow>, w: WriteCtx, d: Draft, e: Ensured): seq<Op> {
    var hash := HashOf(d.cls, e.key, d.payload);
    var naturalKey := GivenKey(p, d);
    e.mint
    + [Rec(PutVersion(
        d.objectId, d.version, w.at, d.status, hash, Seal(d.cls, d.objectId, d.version, hash),
        DekScope(d.cls, d.objectId))),
      Rec(PutObject(d.objectId, d.cls.name, naturalKey, d.version, d.status, w.at, d.version <= 1))]
    + KeyOps(PreviousKey(objects, d.objectId), d.cls, d.objectId, naturalKey, w.at)
    + [Rec(ProjectionOp(p, d.cls, d.objectId, d.status, w.at, Clear(d.cls.pii, d.payload)))]
  }

  function EnsureFor(deks: map<Scope, Dek>, w: WriteCtx, d: Draft): Result<Ensured, Refusal> {
    if d.cls.encryption.EncNone? then Ok(Ensured(0, []))
    else EnsureDek(deks, w, DekScope(d.cls, d.objectId), d.minted)
  }

  /** `buildRecordOps` */
  function BuildRecord(p: Pack, db: Db, w: WriteCtx, d: Draft): Result<seq<Op>, Refusal> {
    if !p.accepts(d.cls.name, d.payload) then Err(Refused("schema"))
    else if !ReferencesOk(p, db.rec.objects, w.pending, d.cls, d.payload) then Err(Refused("reference"))
    else
      var e :- EnsureFor(db.deks, w, d);
      if !NaturalKeyFree(db.rec.objects, d.cls, d.objectId, GivenKey(p, d)) then
        Err(Refused("natural key"))
      else Ok(RecordOps(p, db.rec.objects, w, d, e))
  }

  // ---- the three shapes a change takes ---------------------------------------------------

  /** What the random source hands one effect. */
  datatype Minted = Minted(objectId: Id, key: Key)

  function CreateDraft(c: Class, payload: Payload, status: string, m: Minted): Result<Draft, Refusal> {
    var s := if status == "" then c.initial else status;
    if s !in c.statuses then Err(Refused("status"))
    else Ok(Draft(c, m.objectId, 1, s, payload, m.key))
  }

  function UpdateDraft(db: Db, c: Class, o: Id, payload: Payload, status: string, m: Minted): Result<Draft, Refusal> {
    if o !in db.rec.objects then Err(Refused("not registered"))
    else
      var head := db.rec.objects[o];
      var s := if status == "" then head.status else status;
      if head.cls != c.name then Err(Refused("class"))
      else if head.erased then Err(Refused("erased"))
      else if s !in c.statuses then Err(Refused("status"))
      else Ok(Draft(c, o, head.head + 1, s, payload, m.key))
  }

  // ---- reading ------------------------------------------------------------------------------

  datatype Reading = Pruned(policy: string) | Read(payload: Payload, redacted: bool, erased: bool)

  /** `readVersion` of a stored row, for a caller cleared or not to see personal data. */
  function ReadRow(deks: map<Scope, Dek>, cleared: bool, o: Id, v: nat, row: VersionRow): Result<Reading, Refusal> {
    if row.pruned then Ok(Pruned(row.policy))
    else if row.body.None? then Err(Refused("body"))
    else
      var stored := row.body.value;
      if stored.enc.None? then Ok(Read(stored.clear, false, false))
      else if !cleared then Ok(Read(stored.clear, true, false))
      else if row.scope !in deks || !deks[row.scope].Live() then Ok(Read(stored.clear, true, true))
      else
        var key := Unwrap(row.scope, deks[row.scope].opWrap);
        if key.None? then Err(Refused("unwrap"))
        else
          var data := Decrypt(key.value, stored.enc.value, o, v);
          if data.None? then Err(Refused("decrypt")) else Ok(Read(stored.clear + data.value, false, false))
  }

  /** The newest stored version of an object: `ORDER BY version DESC LIMIT 1`. */
  ghost predicate IsNewest(versions: map<(Id, nat), VersionRow>, o: Id, v: nat) {
    (o, v) in versions && forall w :: (o, w) in versions ==> w <= v
  }

  ghost function Newest(versions: map<(Id, nat), VersionRow>, o: Id): Option<nat> {
    if exists v :: IsNewest(versions, o, v) then
      var v :| IsNewest(versions, o, v);
      Some(v)
    else None
  }

  /** `headVersion`: the register reading for itself, so the payload comes back whole or not at all. */
  ghost function HeadVersion(db: Db, o: Id): Result<(string, Payload), Refusal> {
    var v := Newest(db.rec.versions, o);
    if v.None? then Err(Refused("no versions"))
    else
      var row := db.rec.versions[(o, v.value)];
      if row.pruned then Err(Refused("pruned"))
      else
        var r :- ReadRow(db.deks, true, o, v.value, row);
        if r.Pruned? then Err(Refused("pruned")) else Ok((row.status, r.payload))
  }

  /** `statusOps`: no draft when the record already has the status. */
  ghost function StatusDraft(db: Db, c: Class, o: Id, status: string, m: Minted): Result<Option<Draft>, Refusal> {
    var current :- HeadVersion(db, o);
    if current.0 == status then Ok(None)
    else
      var d :- UpdateDraft(db, c, o, current.1, status, m);
      Ok(Some(d))
  }
}
