/**
 The register itself: a store and a keyring, and one method per action that changes both step by step
 (`internal/register`, `internal/byok/byok.go`). Each is proved to do what the state machine says.
 */
module RegisterObject {
  import opened Outcomes
  import opened Tables
  import opened Packs
  import opened RecordBuild
  import opened Batch
  import opened History
  import opened Workflows
  import opened Approval
  import opened Membership
  import opened MembershipSafety
  import opened Runs
  import opened PeopleSteps
  import opened RunSafety
  import opened Retries
  import Canon
  import R = RetentionPolicy

  // ---- the key cache -----------------------------------------------------------------------

  class Keyring {
    var cache: map<Scope, Key>

    constructor ()
      ensures cache == map[]
    {
      cache := map[];
    }

    /** A cached key is answered without a look at the wrap. */
    method UnwrapOperational(scope: Scope, wrapped: Wrap) returns (key: Option<Key>)
      modifies this
      ensures scope in old(cache) ==> key == Some(old(cache)[scope]) && cache == old(cache)
      ensures scope !in old(cache) ==> key == Unwrap(scope, wrapped)
      ensures scope !in old(cache) ==> cache == if key.Some? then old(cache)[scope := key.value] else old(cache)
    {
      if scope in cache {
        return Some(cache[scope]);
      }
      key := Unwrap(scope, wrapped);
      if key.Some? {
        cache := cache[scope := key.value];
      }
    }

    method Forget(scope: Scope)
      modifies this
      ensures cache == old(cache) - {scope}
    {
      cache := cache - {scope};
    }
  }

  /** Every cached key is live and is what unwrapping its row would give. */
  ghost predicate CacheOk(deks: map<Scope, Dek>, cache: map<Scope, Key>) {
    forall s :: s in cache ==> s in deks && deks[s].Live() && deks[s].opWrap == Wrapped(s, cache[s])
  }

  lemma {:induction false} DiesOnlyDestroyed(db: Db, tx: TxId, ops: seq<Op>, s: Scope)
    requires Apply(db, tx, ops).Some? && s in db.deks && db.deks[s].Live()
    requires forall op :: op in ops ==> !(op.DestroyKey? && op.scope == s)
    ensures s in Apply(db, tx, ops).value.deks && Apply(db, tx, ops).value.deks[s].Live()
    decreases |ops|
  {
    if ops != [] {
      DiesOnlyDestroyed(ApplyOne(db, tx, ops[0]).value, tx, ops[1..], s);
    }
  }

  /** The only keys a write set destroys. */
  ghost predicate DestroysOnly(ops: seq<Op>, gone: set<Scope>) {
    forall op :: op in ops && op.DestroyKey? ==> op.scope in gone
  }

  /** A commit leaves the cache right once every scope it destroys has been forgotten. */
  lemma CacheFollows(db: Db, deks: map<Scope, Dek>, tx: TxId, ops: seq<Op>, cache: map<Scope, Key>, gone: set<Scope>)
    requires CacheOk(db.deks, cache) && DeksOnward(db.deks, deks) && DestroysOnly(ops, gone)
    requires deks == db.deks || (Apply(db, tx, ops).Some? && deks == Apply(db, tx, ops).value.deks)
    ensures CacheOk(deks, cache - gone)
  {
    forall s | s in cache - gone
      ensures s in deks && deks[s].Live() && deks[s].opWrap == Wrapped(s, cache[s])
    {
      assert DekOnward(db.deks[s], deks[s]);
      if deks != db.deks {
        DiesOnlyDestroyed(db, tx, ops, s);
      }
    }
  }

  lemma CacheAlone(deks: map<Scope, Dek>, cache: map<Scope, Key>, gone: set<Scope>)
    requires CacheOk(deks, cache - gone)
    ensures gone !! cache.Keys ==> CacheOk(deks, cache)
  {
    if gone !! cache.Keys {
      assert cache - gone == cache;
    }
  }

  /** The cache, after a call, once what its plan destroys is forgotten. */
  lemma CacheAfter(p: Pack, db: Db, c: Call, plan: Planned, cache: map<Scope, Key>, gone: set<Scope>)
    requires CacheOk(db.deks, cache) && Plan(p, db, c) == Ok(plan) && DestroysOnly(plan.ops, gone)
    requires DeksOnward(db.deks, Step(p, db, c).deks)
    ensures CacheOk(Step(p, db, c).deks, cache - gone)
    ensures gone !! cache.Keys ==> CacheOk(Step(p, db, c).deks, cache)
  {
    StepIs(p, db, c, plan);
    CacheFollows(db, Step(p, db, c).deks, TxOf(p, plan), plan.ops, cache, gone);
    CacheAlone(Step(p, db, c).deks, cache, gone);
  }

  lemma DestroysUncached(ops: seq<Op>, gone: set<Scope>, cached: set<Scope>)
    requires DestroysOnly(ops, gone) && forall op :: op in ops && op.DestroyKey? ==> op.scope !in cached
    ensures DestroysOnly(ops, gone - cached) && gone - cached !! cached
  {
  }

  /** The call is planned and its commit goes through. */
  ghost predicate Succeeds(p: Pack, db: Db, c: Call) {
    Plan(p, db, c).Ok? && Tables.Commit(db, TxOf(p, Plan(p, db, c).value)).Ok?
  }

  /** What a planned call leaves is what its commit leaves. */
  lemma CallOutcome(p: Pack, db: Db, c: Call, plan: Planned)
    requires Plan(p, db, c) == Ok(plan)
    ensures
      var done := Tables.Commit(db, TxOf(p, plan));
      && (Succeeds(p, db, c) <==> done.Ok?)
      && Step(p, db, c) == if done.Ok? then done.value else db
  {
  }

  lemma ErasePlanned(p: Pack, db: Db, c: Call, plan: Planned)
    requires c.act.Erase? && c.at > 0 && Can(c.act.who, PERM_ERASURE)
    requires R.PlanErasure(p, db, c.act.objectId, c.act.policyId, c.at) == Ok(plan.ops)
    requires plan.env == Envelope(Erasure, c.act.who.sub, c.at, c.act.objectId, c.message)
    ensures Sound(p, db, c) && Plan(p, db, c) == Ok(plan)
  {
  }

  lemma PrunePlanned(p: Pack, db: Db, c: Call, plan: Planned)
    requires c.act.Prune? && c.at > 0 && Can(c.act.who, PERM_RETENTION) && c.act.policyId in p.policies
    requires p.policies[c.act.policyId].cls in p.classes && c.act.rows != []
    requires R.IsPage(db.rec, p.policies[c.act.policyId], c.at, c.act.objectId, c.act.rows)
    requires plan == Planned(
      Envelope(RetentionPrune, c.act.who.sub, c.at, c.act.objectId, c.message),
      R.PruneOps(p.policies[c.act.policyId], c.at, c.act.rows, 0))
    ensures Sound(p, db, c) && Plan(p, db, c) == Ok(plan)
  {
  }

  lemma RefusedSame(p: Pack, db: Db, c: Call)
    ensures !Succeeds(p, db, c) ==> Step(p, db, c) == db
  {
  }

  // ---- splitting ------------------------------------------------------------------------------

  /** The members of a map under these keys. */
  ghost predicate CopyOf(part: Payload, m: Payload, keys: set<string>) {
    part.Keys == keys && forall k :: k in part ==> k in m && part[k] == m[k]
  }

  lemma CopyIs(part: Payload, m: Payload, gone: set<string>)
    requires CopyOf(part, m, m.Keys - gone)
    ensures part == m - gone
  {
  }

  /** The loops that split a payload by the personal-data annotations. */
  method Split(pii: set<string>, payload: Payload) returns (clear: Payload, personal: Payload)
    ensures clear == Clear(pii, payload) && personal == Personal(pii, payload)
  {
    clear, personal := map[], map[];
    var todo := payload.Keys;
    while todo != {}
      invariant todo <= payload.Keys
      invariant CopyOf(clear, payload, payload.Keys - pii - todo)
      invariant CopyOf(personal, payload, payload.Keys * pii - todo)
      decreases |todo|
    {
      var k :| k in todo;
      if k in pii {
        personal := personal[k := payload[k]];
      } else {
        clear := clear[k := payload[k]];
      }
      todo := todo - {k};
    }
    assert payload.Keys - pii - todo == payload.Keys - pii;
    assert payload.Keys * pii - todo == payload.Keys - (payload.Keys - pii);
    CopyIs(clear, payload, pii);
    CopyIs(personal, payload, payload.Keys - pii);
  }

  // ---- the register -------------------------------------------------------------------------------

  class Register {
    const p: Pack
    const ring: Keyring
    var db: Db

    /** The unchecked cache hit is right. */
    ghost predicate CacheRight()
      reads `db, ring
    {
      CacheOk(db.deks, ring.cache)
    }

    ghost predicate Valid()
      reads `db, ring
    {
      PackSound(p) && Inv(p, db) && CacheRight()
    }

    constructor (p: Pack)
      requires PackSound(p)
      ensures Valid() && fresh(ring) && this.p == p && db == Blank()
    {
      BlankInv(p);
      this.p := p;
      this.ring := new Keyring();
      this.db := Blank();
    }

    // ---- committing -----------------------------------------------------------------------------

    /** `commit` with the loop of `apply`: everything lands, or nothing does. */
    method Commit(plan: Planned) returns (r: Result<(), Refusal>)
      modifies this`db
      ensures
        var done := Tables.Commit(old(db), TxOf(p, plan));
        && (r.Ok? <==> done.Ok?)
        && db == if done.Ok? then done.value else old(db)
    {
      var tx := TxOf(p, plan);
      if tx in db.log {
        return Ok(());
      }
      var work := db;
      var rest := plan.ops;
      while rest != []
        invariant db == old(db) && Apply(db, tx, plan.ops) == Apply(work, tx, rest)
        decreases |rest|
      {
        var next := ApplyOne(work, tx, rest[0]);
        if next.None? {
          return Err(NotApplied);
        }
        work, rest := next.value, rest[1..];
      }
      db := work.(log := db.log + [tx]);
      return Ok(());
    }

    // ---- keys --------------------------------------------------------------------------------------

    /** The key of a live scope, cached or not, is the one its row wraps. */
    method OpenKey(scope: Scope) returns (key: Option<Key>)
      requires CacheRight() && scope in db.deks && db.deks[scope].Live()
      modifies ring
      ensures CacheRight() && key == Unwrap(scope, db.deks[scope].opWrap)
    {
      key := ring.UnwrapOperational(scope, db.deks[scope].opWrap);
    }

    method EnsureKey(w: WriteCtx, scope: Scope, minted: Key) returns (r: Result<Ensured, Refusal>)
      requires CacheRight()
      modifies ring
      ensures CacheRight() && r == EnsureDek(db.deks, w, scope, minted)
    {
      if scope in db.deks {
        if !db.deks[scope].Live() {
          return Err(Refused("destroyed"));
        }
        var key := OpenKey(scope);
        return if key.None? then Err(Refused("unwrap")) else Ok(Ensured(key.value, []));
      }
      return Ok(Ensured(minted, [MintOf(w, scope, minted)]));
    }

    // ---- records ------------------------------------------------------------------------------------

    method CheckReferences(w: WriteCtx, c: Class, payload: Payload) returns (ok: bool)
      ensures ok <==> ReferencesOk(p, db.rec.objects, w.pending, c, payload)
    {
      var todo := c.references.Keys;
      while todo != {}
        invariant todo <= c.references.Keys
        invariant forall prop :: prop in c.references && prop !in todo && prop in payload ==>
          ReferenceOk(p, db.rec.objects, w.pending, payload[prop], c.references[prop])
        decreases |todo|
      {
        var prop :| prop in todo;
        if prop in payload && !ReferenceOk(p, db.rec.objects, w.pending, payload[prop], c.references[prop]) {
          return false;
        }
        todo := todo - {prop};
      }
      return true;
    }

    /** The sealing half of `buildRecordOps`: the key, the two halves of the payload and the commitment. */
    method SealRecord(w: WriteCtx, d: Draft) returns (r: Result<(Ensured, Stored, PayloadHash), Refusal>)
      requires CacheRight()
      modifies ring
      ensures CacheRight()
      ensures
        var e := EnsureFor(db.deks, w, d);
        && (e.Err? ==> r == Err(e.error))
        && (e.Ok? ==>
              var hash := HashOf(d.cls, e.value.key, d.payload);
              r == Ok((e.value, Seal(d.cls, d.objectId, d.version, hash), hash)))
    {
      var clear, personal := Split(d.cls.pii, d.payload);
      if d.cls.encryption.EncNone? {
        return Ok((Ensured(0, []), Stored(clear, None), PlainHash(d.payload)));
      }
      var scope := DekScope(d.cls, d.objectId);
      var ensured := EnsureKey(w, scope, d.minted);
      if ensured.Err? {
        return Err(ensured.error);
      }
      var ct := Encrypt(ensured.value.key, scope, d.objectId, d.version, personal);
      return Ok((ensured.value, Stored(clear, Some(ct)), KeyedHash(ensured.value.key, d.payload)));
    }

    /** The natural-key half of `buildRecordOps`. */
    method IndexOps(c: Class, o: Id, naturalKey: string, at: int) returns (ops: seq<Op>)
      ensures ops == KeyOps(PreviousKey(db.rec.objects, o), c, o, naturalKey, at)
    {
      ops := [];
      if c.naturalKey != "" {
        var previous := PreviousKey(db.rec.objects, o);
        if previous != "" && previous != naturalKey {
          ops := ops + [Rec(DropKey(c.name, previous))];
        }
        ops := ops + [Rec(PutKey(c.name, naturalKey, o, at))];
      }
    }

    /** `buildRecordOps` */
    method BuildRecordOps(w: WriteCtx, d: Draft) returns (r: Result<seq<Op>, Refusal>)
      requires CacheRight()
      modifies ring
      ensures CacheRight() && r == BuildRecord(p, db, w, d)
    {
      if !p.accepts(d.cls.name, d.payload) {
        return Err(Refused("schema"));
      }
      var resolved := CheckReferences(w, d.cls, d.payload);
      if !resolved {
        return Err(Refused("reference"));
      }
      var made := SealRecord(w, d);
      if made.Err? {
        return Err(made.error);
      }
      var (e, stored, hash) := made.value;
      var naturalKey := GivenKey(p, d);
      if !NaturalKeyFree(db.rec.objects, d.cls, d.objectId, naturalKey) {
        return Err(Refused("natural key"));
      }
      var index := IndexOps(d.cls, d.objectId, naturalKey, w.at);
      return Ok(
        e.mint
        + [Rec(PutVersion(d.objectId, d.version, w.at, d.status, hash, stored, DekScope(d.cls, d.objectId))),
           Rec(PutObject(d.objectId, d.cls.name, naturalKey, d.version, d.status, w.at, d.version <= 1))]
        + index
        + [Rec(ProjectionOp(p, d.cls, d.objectId, d.status, w.at, Clear(d.cls.pii, d.payload)))]);
    }

    /** `readVersion` of a stored row. */
    method ReadVersion(cleared: bool, o: Id, v: nat) returns (r: Result<Reading, Refusal>)
      requires CacheRight() && (o, v) in db.rec.versions
      modifies ring
      ensures CacheRight() && r == ReadRow(db.deks, cleared, o, v, db.rec.versions[(o, v)])
    {
      var row := db.rec.versions[(o, v)];
      if row.pruned {
        return Ok(Pruned(row.policy));
      }
      if row.body.None? {
        return Err(Refused("body"));
      }
      var stored := row.body.value;
      if stored.enc.None? {
        return Ok(Read(stored.clear, false, false));
      }
      if !cleared {
        return Ok(Read(stored.clear, true, false));
      }
      if row.scope !in db.deks || !db.deks[row.scope].Live() {
        return Ok(Read(stored.clear, true, true));
      }
      var key := OpenKey(row.scope);
      if key.None? {
        return Err(Refused("unwrap"));
      }
      var data := Decrypt(key.value, stored.enc.value, o, v);
      return if data.None? then Err(Refused("decrypt")) else Ok(Read(stored.clear + data.value, false, false));
    }

    /** The newest version of an object, found by looking at every row. */
    method NewestOf(o: Id) returns (v: Option<nat>)
      ensures v == Newest(db.rec.versions, o)
    {
      v := None;
      var todo: set<(Id, nat)> := db.rec.versions.Keys;
      while todo != {}
        invariant todo <= db.rec.versions.Keys
        invariant v.Some? ==> (o, v.value) in db.rec.versions && (o, v.value) !in todo
        invariant forall k :: k in db.rec.versions && k !in todo && k.0 == o ==> v.Some? && k.1 <= v.value
        decreases |todo|
      {
        var k: (Id, nat) :| k in todo;
        if k.0 == o && (v.None? || k.1 > v.value) {
          v := Some(k.1);
        }
        todo := todo - {k};
      }
      NewestFound(db.rec.versions, o, v);
    }

    /** `headVersion` */
    method ReadHead(o: Id) returns (r: Result<(string, Payload), Refusal>)
      requires CacheRight()
      modifies ring
      ensures CacheRight() && r == HeadVersion(db, o)
    {
      var v := NewestOf(o);
      if v.None? {
        return Err(Refused("no versions"));
      }
      var row := db.rec.versions[(o, v.value)];
      if row.pruned {
        return Err(Refused("pruned"));
      }
      var reading := ReadVersion(true, o, v.value);
      if reading.Err? {
        return Err(reading.error);
      }
      return if reading.value.Pruned? then Err(Refused("pruned")) else Ok((row.status, reading.value.payload));
    }

    /** `statusOps`, up to the version it would append. */
    method PlanStatus(c: Class, o: Id, status: string, m: Minted) returns (r: Result<Option<Draft>, Refusal>)
      requires CacheRight()
      modifies ring
      ensures CacheRight() && r == StatusDraft(db, c, o, status, m)
    {
      var current := ReadHead(o);
      if current.Err? {
        return Err(current.error);
      }
      if current.value.0 == status {
        return Ok(None);
      }
      var d := UpdateDraft(db, c, o, current.value.1, status, m);
      return if d.Err? then Err(d.error) else Ok(Some(d.value));
    }

    // ---- finishing an action -----------------------------------------------------------------------

    /** Committing a planned action is the state machine's step; what it destroys is still to be forgotten. */
    method Finish(ghost c: Call, plan: Planned, ghost gone: set<Scope>) returns (r: Result<(), Refusal>)
      requires Valid() && Sound(p, db, c) && Plan(p, db, c) == Ok(plan) && DestroysOnly(plan.ops, gone)
      modifies this`db
      ensures PackSound(p) && Inv(p, db) && db == Step(p, old(db), c)
      ensures CacheOk(db.deks, ring.cache - gone)
      ensures gone !! ring.cache.Keys ==> Valid()
      ensures r.Ok? <==> Succeeds(p, old(db), c)
    {
      StepKeeps(p, db, c);
      CallOutcome(p, db, c, plan);
      CacheAfter(p, db, c, plan, ring.cache, gone);
      r := Commit(plan);
    }

    /** An action that destroys one key, forgotten once it has committed. */
    method FinishForgetting(ghost c: Call, plan: Planned, scope: Scope) returns (r: Result<(), Refusal>)
      requires Valid() && Sound(p, db, c) && Plan(p, db, c) == Ok(plan) && DestroysOnly(plan.ops, {scope})
      modifies this`db, ring
      ensures Valid() && db == Step(p, old(db), c)
      ensures r.Ok? <==> Succeeds(p, old(db), c)
    {
      RefusedSame(p, db, c);
      r := Finish(c, plan, {scope});
      if r.Ok? {
        ring.Forget(scope);
      }
    }

    // ---- members ------------------------------------------------------------------------------------

    /** The loop of `grant` over the roles a subject already holds. */
    method Barred(sub: string, role: string) returns (barred: bool)
      ensures barred <==> exists id :: id in db.people.members && Bars(p, db.people.members[id], sub, role)
    {
      var todo := db.people.members.Keys;
      while todo != {}
        invariant todo <= db.people.members.Keys
        invariant forall id :: id in db.people.members && id !in todo ==> !Bars(p, db.people.members[id], sub, role)
        decreases |todo|
      {
        var id :| id in todo;
        if Bars(p, db.people.members[id], sub, role) {
          return true;
        }
        todo := todo - {id};
      }
      return false;
    }

    /** `GrantRole` and `BootstrapMember` */
    method GrantRole(actor: Option<Principal>, sub: string, role: string, message: string, at: int)
      returns (r: Result<(), Refusal>)
      requires sub != PLACEHOLDER && (actor.Some? ==> actor.value.sub != PLACEHOLDER)
      requires Valid() && at > 0
      modifies this`db
      ensures Valid() && db == Step(p, old(db), Call(Grant(actor, sub, role), at, false, message))
      ensures r.Ok? <==> Succeeds(p, old(db), Call(Grant(actor, sub, role), at, false, message))
    {
      ghost var c := Call(Grant(actor, sub, role), at, false, message);
      var author := ManagerOf(actor);
      if author.Err? {
        return Err(author.error);
      }
      if sub == "" || role !in p.roles {
        return Err(Refused("request"));
      }
      var barred := Barred(sub, role);
      if barred {
        return Err(Refused("separation of duties"));
      }
      var id := MemberId(p, sub, role);
      var plan := Planned(
        Envelope(MemberGrant, author.value, at, id, message),
        [Ppl(PutMember(id, MemberRow(sub, role, author.value, at)))] + []);
      r := Finish(c, plan, {});
    }

    /** `RevokeRole` */
    method RevokeRole(who: Principal, sub: string, role: string, message: string, at: int)
      returns (r: Result<(), Refusal>)
      requires Valid() && at > 0
      modifies this`db
      ensures Valid() && db == Step(p, old(db), Call(Revoke(who, sub, role), at, false, message))
      ensures r.Ok? <==> Succeeds(p, old(db), Call(Revoke(who, sub, role), at, false, message))
    {
      ghost var c := Call(Revoke(who, sub, role), at, false, message);
      if !Can(who, PERM_MEMBERS) {
        return Err(Refused("permission"));
      }
      var id := MemberId(p, sub, role);
      if id !in db.people.members {
        return Err(Refused("no such member"));
      }
      if Administers(p, role) {
        var others := OtherAdministrators(p, db.people.members, sub);
        if others == 0 {
          return Err(Refused("last administrator"));
        }
      }
      r := Finish(c, Planned(Envelope(MemberRevoke, who.sub, at, id, message), [Ppl(DropMember(id))]), {});
    }

    // ---- invitations ---------------------------------------------------------------------------------

    /** `sealRecipient` */
    method SealFor(w: WriteCtx, id: Id, recipient: Option<Payload>, minted: Key) returns (r: Result<seq<Op>, Refusal>)
      requires CacheRight()
      modifies ring
      ensures CacheRight() && r == SealRecipient(db.deks, w, id, recipient, minted)
      ensures r.Ok? ==> DestroysOnly(r.value, {})
    {
      if recipient.None? {
        return Ok([]);
      }
      var ensured := EnsureKey(w, InviteKey(id), minted);
      if ensured.Err? {
        return Err(ensured.error);
      }
      var sealed := Sealing(InviteKey(id), ensured.value.key, id, recipient.value);
      return Ok(ensured.value.mint + [Ppl(PutRecipient(id, RecipientRow(InviteKey(id), Some(sealed), 0)))]);
    }

    /** The checks of `createInvite`, and its write set. */
    method PlanInviteOps(
      author: string, role: string, validFor: int, recipient: Option<Payload>, id: Id, secret: string, minted: Key,
      message: string, w: WriteCtx) returns (r: Result<Planned, Refusal>)
      requires CacheRight()
      modifies ring
      ensures CacheRight()
      ensures
        var plan := PlanInvite(p, db, author, role, validFor, recipient, id, secret, minted, message, w);
        (r.Ok? <==> plan.Ok?) && (r.Ok? ==> r == plan)
      ensures r.Ok? ==> DestroysOnly(r.value.ops, {})
    {
      var lifetime := if validFor <= 0 then DEFAULT_LIFETIME else validFor;
      if role !in p.roles || lifetime > MAX_LIFETIME {
        return Err(Refused("invitation"));
      }
      var put := Ppl(PutInvite(id, InviteRow(role, secret, author, w.at, w.at + lifetime, "", 0, false)));
      var more := SealFor(w, id, recipient, minted);
      if more.Err? {
        return Err(more.error);
      }
      return Ok(Planned(Envelope(InviteCreate, author, w.at, id, message), [put] + more.value));
    }

    /** `createInvite` */
    method CreateInvite(
      actor: Option<Principal>, role: string, validFor: int, recipient: Option<Payload>, id: Id, secret: string,
      minted: Key, message: string, at: int, recover: bool) returns (r: Result<(), Refusal>)
      requires actor.Some? ==> actor.value.sub != PLACEHOLDER
      requires Valid() && at > 0 && id !in db.people.invites
      modifies this`db, ring
      ensures Valid()
      ensures db == Step(p, old(db), Call(Invite(actor, role, validFor, recipient, id, secret, minted), at, recover, message))
      ensures r.Ok? <==> Succeeds(p, old(db), Call(Invite(actor, role, validFor, recipient, id, secret, minted), at, recover, message))
    {
      ghost var c := Call(Invite(actor, role, validFor, recipient, id, secret, minted), at, recover, message);
      var author := ManagerOf(actor);
      if author.Err? {
        return Err(author.error);
      }
      var plan := PlanInviteOps(
        author.value, role, validFor, recipient, id, secret, minted, message, WriteCtx(at, recover, map[]));
      if plan.Err? {
        return Err(plan.error);
      }
      r := Finish(c, plan.value, {});
    }

    /** `RevokeInvite` */
    method RevokeInvite(who: Principal, id: Id, message: string, at: int) returns (r: Result<(), Refusal>)
      requires Valid() && at > 0
      modifies this`db, ring
      ensures Valid() && db == Step(p, old(db), Call(WithdrawInvitation(who, id), at, false, message))
      ensures r.Ok? <==> Succeeds(p, old(db), Call(WithdrawInvitation(who, id), at, false, message))
    {
      ghost var c := Call(WithdrawInvitation(who, id), at, false, message);
      var plan := PlanInviteRevoke(db, who, id, message, at);
      if plan.Err? {
        return Err(plan.error);
      }
      ForgetsOne(db, id, at);
      r := FinishForgetting(c, plan.value, InviteKey(id));
    }

    /** `RedeemInvite`: the grant, the spending and the end of the recipient's key are one commit. */
    method RedeemInvite(sub: string, id: Id, secret: string, message: string, at: int) returns (r: Result<(), Refusal>)
      requires sub != PLACEHOLDER
      requires Valid() && at > 0
      modifies this`db, ring
      ensures Valid() && db == Step(p, old(db), Call(Redeem(sub, id, secret), at, false, message))
      ensures r.Ok? <==> Succeeds(p, old(db), Call(Redeem(sub, id, secret), at, false, message))
    {
      ghost var c := Call(Redeem(sub, id, secret), at, false, message);
      if sub == "" {
        return Err(Refused("not signed in"));
      }
      var invite := OpenInvite(db, id, secret, at);
      if invite.Err? {
        return Err(invite.error);
      }
      var role := invite.value.role;
      if role !in p.roles {
        return Err(Refused("no such role"));
      }
      var barred := Barred(sub, role);
      if barred {
        return Err(Refused("separation of duties"));
      }
      var member := MemberId(p, sub, role);
      var ops := [Ppl(PutMember(member, MemberRow(sub, role, sub, at)))] + ([Ppl(SpendInvite(id, sub, at))] + ForgetOps(db, id, at));
      ForgetsOne(db, id, at);
      r := FinishForgetting(c, Planned(Envelope(InviteRedeem, sub, at, member, message), ops), InviteKey(id));
    }

    /** `MarkReminded` */
    method MarkReminded(id: Id, message: string, at: int) returns (r: Result<(), Refusal>)
      requires Valid() && at > 0
      modifies this`db
      ensures Valid() && db == Step(p, old(db), Call(Remind(id), at, false, message))
      ensures r.Ok? <==> Succeeds(p, old(db), Call(Remind(id), at, false, message))
    {
      r := Finish(Call(Remind(id), at, false, message), PlanRemind(id, message, at), {});
    }

    /** One turn of `ForgetExpiredRecipients`: whether it forgot anybody, or the refusal that ends the loop. */
    method ForgetIfExpired(id: Id, message: string, at: int) returns (r: Result<bool, Refusal>)
      requires Valid() && at > 0
      modifies this`db, ring
      ensures Valid() && db == Step(p, old(db), Call(Expire(id), at, false, message))
      ensures r.Ok? && r.value <==> Succeeds(p, old(db), Call(Expire(id), at, false, message))
      ensures r.Err? <==> PlanExpire(old(db), id, message, at).Ok? && !Succeeds(p, old(db), Call(Expire(id), at, false, message))
    {
      ghost var c := Call(Expire(id), at, false, message);
      var plan := PlanExpire(db, id, message, at);
      if plan.Err? {
        return Ok(false);
      }
      ForgetsOne(db, id, at);
      var done := FinishForgetting(c, plan.value, InviteKey(id));
      return if done.Ok? then Ok(true) else Err(done.error);
    }

    /** The same, as the next call of a run from `before`. */
    method ForgetNext(id: Id, message: string, at: int, ghost before: Db, ghost ids: seq<Id>) returns (r: Result<bool, Refusal>)
      requires Valid() && at > 0 && db == Run(p, before, ExpireCalls(ids, message, at))
      modifies this`db, ring
      ensures Valid() && db == Run(p, before, ExpireCalls(ids + [id], message, at))
      ensures r.Ok? ==>
        Forgotten(p, before, ids + [id], message, at) ==
        Forgotten(p, before, ids, message, at) + (if r.value then 1 else 0)
    {
      r := ForgetIfExpired(id, message, at);
      ExpireNext(p, before, ids, id, message, at);
      ForgottenNext(p, before, ids, id, message, at);
    }

    /** `ForgetExpiredRecipients`: a commit for every invitation that ran out unanswered, until one is refused. */
    method ForgetExpiredRecipients(message: string, at: int) returns (r: Result<nat, Refusal>, ghost ids: seq<Id>)
      requires Valid() && at > 0
      modifies this`db, ring
      ensures Valid() && Later(old(db), db) && db == Run(p, old(db), ExpireCalls(ids, message, at))
      ensures |ids| <= |old(db).people.recipients.Keys|
      ensures r.Ok? ==> r.value == Forgotten(p, old(db), ids, message, at)
      ensures r.Ok? ==> forall id :: id in old(db).people.recipients ==> id in ids
    {
      var n := 0;
      ids := [];
      var todo := db.people.recipients.Keys;
      ghost var before := db;
      NobodyForgotten(p, db, message, at);
      while todo != {}
        invariant Valid() && Expiring(p, before, db, ids, n, todo, message, at)
        decreases |todo|
      {
        var id :| id in todo;
        var forgot := ForgetNext(id, message, at, before, ids);
        ExpiringNext(before, ids, todo, id);
        ids := ids + [id];
        todo := todo - {id};
        if forgot.Err? {
          ExpiriesKeep(p, before, ids, message, at);
          return Err(forgot.error), ids;
        }
        if forgot.value {
          n := n + 1;
        }
      }
      ExpiriesKeep(p, before, ids, message, at);
      r := Ok(n);
    }

    // ---- profiles ------------------------------------------------------------------------------------

    /** `openProfile` */
    method ReadProfile(sub: string) returns (r: Result<Profile, Refusal>)
      requires CacheRight() && ProfileLocal(db.people, db.deks, sub)
      modifies ring
      ensures CacheRight() && r == OpenProfile(db, sub)
    {
      if sub !in db.people.profiles {
        return Ok(Profile("", "", 0, false));
      }
      var row := db.people.profiles[sub];
      if row.scope !in db.deks || !db.deks[row.scope].Live() {
        return Ok(Profile("", "", row.firstSeen, true));
      }
      if row.sealed.None? {
        return Err(Refused("sealed"));
      }
      var key := OpenKey(row.scope);
      if key.None? {
        return Err(Refused("unwrap"));
      }
      var data := Decrypt(key.value, row.sealed.value, sub, 0);
      if data.None? {
        return Err(Refused("decrypt"));
      }
      return Ok(Profile(Field(data.value, "email"), Field(data.value, "name"), row.firstSeen, false));
    }

    /** The profile `SeeIdentity` would hold, and the write set that records it when something is new. */
    method MergeIdentity(sub: string, email: string, name: string, minted: Key, message: string, w: WriteCtx)
      returns (plan: Result<Planned, Refusal>, held: Profile)
      requires CacheRight() && ProfileLocal(db.people, db.deks, sub)
      modifies ring
      ensures CacheRight() && plan == PlanSeeIdentity(db, sub, email, name, minted, message, w)
      ensures plan.Ok? ==> DestroysOnly(plan.value.ops, {})
      ensures plan.Ok? ==> held == Merged(OpenProfile(db, sub).value, email, name, w.at)
      ensures plan.Err? && OpenProfile(db, sub).Ok? && !Changes(OpenProfile(db, sub).value, email, name) ==>
        held == OpenProfile(db, sub).value
    {
      var read := ReadProfile(sub);
      held := Profile("", "", 0, false);
      if read.Err? {
        return Err(read.error), held;
      }
      held := read.value;
      var changed := (email != "" && email != held.email) || (name != "" && name != held.name);
      if !changed || held.erased {
        return Err(Refused("nothing new")), held;
      }
      if email != "" {
        held := held.(email := email);
      }
      if name != "" {
        held := held.(name := name);
      }
      if held.firstSeen == 0 {
        held := held.(firstSeen := w.at);
      }
      var ensured := EnsureKey(w, PersonKey(sub), minted);
      if ensured.Err? {
        return Err(ensured.error), held;
      }
      var e := ensured.value;
      var sealed := Sealing(PersonKey(sub), e.key, sub, ProfileData(held.email, held.name));
      plan := Ok(Planned(
        Envelope(ProfileRecord, "sign-in", w.at, sub, message),
        e.mint + [Ppl(PutProfile(sub, ProfileRow(PersonKey(sub), Some(sealed), held.firstSeen, w.at)))]));
    }

    /** `SeeIdentity`, and the profile held afterwards. */
    method SeeIdentity(sub: string, email: string, name: string, minted: Key, message: string, at: int, recover: bool)
      returns (held: Profile)
      requires sub != PLACEHOLDER
      requires Valid() && at > 0
      modifies this`db, ring
      ensures Valid()
      ensures db == Step(p, old(db), Call(Runs.SeeIdentity(sub, email, name, minted), at, recover, message))
      ensures
        var plan := PlanSeeIdentity(old(db), sub, email, name, minted, message, WriteCtx(at, recover, map[]));
        && OpenProfile(old(db), sub).Ok?
        && held == (
            if plan.Ok? then Merged(OpenProfile(old(db), sub).value, email, name, at) else OpenProfile(old(db), sub).value)
        && (plan.Ok? ==> (OpenProfile(db, sub) == Ok(held) <==> TxOf(p, plan.value) !in old(db).log))
    {
      ghost var c := Call(Runs.SeeIdentity(sub, email, name, minted), at, recover, message);
      assert ProfileLocal(db.people, db.deks, sub);
      var plan, seen := MergeIdentity(sub, email, name, minted, message, WriteCtx(at, recover, map[]));
      held := seen;
      ProfileOpensAlways(db, sub, email, name, minted, message, WriteCtx(at, recover, map[]));
      if plan.Ok? {
        SeenTakesEffectExactly(p, db, c);
        var done := Finish(c, plan.value, {});
      }
    }

    /** `EraseProfile` */
    method EraseProfile(who: Principal, sub: string, reason: string, at: int) returns (r: Result<(), Refusal>)
      requires sub != PLACEHOLDER
      requires Valid() && at > 0
      modifies this`db, ring
      ensures Valid() && db == Step(p, old(db), Call(Runs.EraseProfile(who, sub, reason), at, false, ""))
      ensures r.Ok? <==> Succeeds(p, old(db), Call(Runs.EraseProfile(who, sub, reason), at, false, ""))
    {
      ghost var c := Call(Runs.EraseProfile(who, sub, reason), at, false, "");
      var plan := PlanEraseProfile(db, who, sub, reason, at);
      if plan.Err? {
        return Err(plan.error);
      }
      r := FinishForgetting(c, plan.value, db.people.profiles[sub].scope);
    }

    // ---- retention -------------------------------------------------------------------------------------

    /** The prune query: the eligible rows in order, up to a page. */
    method EligibleRows(policy: Policy, at: int, objectId: Id) returns (rows: seq<(Id, nat)>)
      ensures R.IsPage(db.rec, policy, at, objectId, rows)
    {
      rows := [];
      var todo: set<(Id, nat)> := db.rec.versions.Keys;
      while todo != {}
        invariant todo <= db.rec.versions.Keys && R.InOrder(rows)
        invariant forall k :: k in rows <==> R.Eligible(db.rec, policy, at, objectId, k) && k !in todo
        decreases |todo|
      {
        var k: (Id, nat) :| k in todo;
        if R.Eligible(db.rec, policy, at, objectId, k) {
          R.InsertInOrder(k, rows);
          rows := R.InsertRow(k, rows);
        }
        todo := todo - {k};
      }
      R.FirstPage(db.rec, policy, at, objectId, rows);
      if |rows| > R.PAGE {
        rows := rows[..R.PAGE];
      }
    }

    /** The loop of `Prune` over the rows the query gave. */
    method PruneRows(policy: Policy, at: int, rows: seq<(Id, nat)>) returns (ops: seq<Op>)
      ensures ops == R.PruneOps(policy, at, rows, 0) && DestroysOnly(ops, {})
    {
      ops := [];
      for i := 0 to |rows|
        invariant ops == R.PruneOps(policy, at, rows[..i], 0) && DestroysOnly(ops, {})
      {
        assert rows[..i + 1] == rows[..i] + [rows[i]];
        R.PruneOpsLast(policy, at, rows[..i], rows[i], 0);
        ops := ops + R.PrunePair(policy, at, rows[i], i);
      }
      assert rows[..|rows|] == rows;
    }

    /** The one commit of a page of prunes. */
    method PrunePage(who: Principal, policyId: string, objectId: Id, rows: seq<(Id, nat)>, message: string, at: int)
      returns (r: Result<(), Refusal>)
      requires Valid() && at > 0 && Can(who, PERM_RETENTION) && policyId in p.policies && rows != []
      requires p.policies[policyId].cls in p.classes && R.IsPage(db.rec, p.policies[policyId], at, objectId, rows)
      modifies this`db
      ensures Valid() && db == Step(p, old(db), Call(Runs.Prune(who, policyId, objectId, rows), at, false, message))
      ensures r.Ok? <==> Succeeds(p, old(db), Call(Runs.Prune(who, policyId, objectId, rows), at, false, message))
    {
      ghost var c := Call(Runs.Prune(who, policyId, objectId, rows), at, false, message);
      var ops := PruneRows(p.policies[policyId], at, rows);
      var planned := Planned(Envelope(RetentionPrune, who.sub, at, objectId, message), ops);
      PrunePlanned(p, db, c, planned);
      r := Finish(c, planned, {});
    }

    /** `Prune`: nothing is committed on a dry run, or when nothing is past its window. */
    method Prune(who: Principal, policyId: string, objectId: Id, dryRun: bool, message: string, at: int)
      returns (r: Result<nat, Refusal>, ghost page: seq<(Id, nat)>)
      requires Valid() && at > 0
      modifies this`db
      ensures Valid()
      ensures dryRun ==> db == old(db)
      ensures !dryRun ==> db == Step(p, old(db), Call(Runs.Prune(who, policyId, objectId, page), at, false, message))
      ensures !dryRun && page != [] ==>
        (r.Ok? <==> Succeeds(p, old(db), Call(Runs.Prune(who, policyId, objectId, page), at, false, message)))
      ensures r.Ok? ==> r.value == |page| && policyId in p.policies
      ensures r.Ok? ==> R.IsPage(old(db).rec, p.policies[policyId], at, objectId, page)
    {
      page := [];
      if !Can(who, PERM_RETENTION) {
        return Err(Refused("permission")), page;
      }
      if policyId !in p.policies || p.policies[policyId].cls !in p.classes {
        return Err(Refused("policy")), page;
      }
      var rows := EligibleRows(p.policies[policyId], at, objectId);
      page := rows;
      r := Ok(|rows|);
      if !dryRun && rows != [] {
        var done := PrunePage(who, policyId, objectId, rows, message, at);
        if done.Err? {
          r := Err(done.error);
        }
      }
    }

    /** `Erase` */
    method Erase(who: Principal, o: Id, policyId: string, message: string, at: int) returns (r: Result<(), Refusal>)
      requires Valid() && at > 0
      modifies this`db, ring
      ensures Valid() && db == Step(p, old(db), Call(Runs.Erase(who, o, policyId), at, false, message))
      ensures r.Ok? <==> Succeeds(p, old(db), Call(Runs.Erase(who, o, policyId), at, false, message))
    {
      ghost var c := Call(Runs.Erase(who, o, policyId), at, false, message);
      if !Can(who, PERM_ERASURE) {
        return Err(Refused("permission"));
      }
      var plan := R.PlanErasure(p, db, o, policyId, at);
      if plan.Err? {
        return Err(plan.error);
      }
      ErasesOne(p, db, o, policyId, at);
      var planned := Planned(Envelope(Erasure, who.sub, at, o, message), plan.value);
      ErasePlanned(p, db, c, planned);
      r := FinishForgetting(c, planned, SubjectKey(o));
    }

    // ---- proposals ---------------------------------------------------------------------------------------

    /** `openProposal` for a task on file. */
    method ReadTask(cleared: bool, taskId: Id) returns (r: Result<Opened, Refusal>)
      requires CacheRight() && taskId in db.tasks
      modifies ring
      ensures CacheRight() && r == OpenProposal(db.deks, cleared, taskId, db.tasks[taskId].payload)
    {
      var stored := db.tasks[taskId].payload;
      if stored.enc.None? {
        return Ok(Opened(stored.clear, false));
      }
      if !cleared || TaskKey(taskId) !in db.deks || !db.deks[TaskKey(taskId)].Live() {
        return Ok(Opened(stored.clear, true));
      }
      var key := OpenKey(TaskKey(taskId));
      if key.None? {
        return Err(Refused("unwrap"));
      }
      var data := Decrypt(key.value, stored.enc.value, taskId, 0);
      return if data.None? then Err(Refused("decrypt")) else Ok(Opened(stored.clear + data.value, false));
    }

    /** `closeProposal`: the cached key goes before the commit that destroys it. */
    method CloseTask(taskId: Id, at: int) returns (ops: seq<Op>)
      requires CacheRight()
      modifies ring
      ensures CacheRight() && ops == CloseProposal(db.deks, taskId, at) && DestroysOnly(ops, {TaskKey(taskId)})
      ensures ops != [] ==> TaskKey(taskId) !in ring.cache
    {
      var scope := TaskKey(taskId);
      if scope in db.deks && db.deks[scope].Live() {
        ring.Forget(scope);
        return [DestroyKey(scope, at)];
      }
      return [];
    }

    /** `sealProposal` */
    method SealTask(w: WriteCtx, pii: set<string>, taskId: Id, payload: Payload, minted: Key)
      returns (r: Result<Sealed, Refusal>)
      requires CacheRight()
      modifies ring
      ensures CacheRight() && r == SealProposal(db.deks, w, pii, taskId, payload, minted)
      ensures r.Ok? ==> DestroysOnly(r.value.mint, {})
    {
      var clear, personal := Split(pii, payload);
      if personal == map[] {
        return Ok(Sealed(Stored(clear, None), []));
      }
      var ensured := EnsureKey(w, TaskKey(taskId), minted);
      if ensured.Err? {
        return Err(ensured.error);
      }
      var ct := Encrypt(ensured.value.key, TaskKey(taskId), taskId, 0, personal);
      return Ok(Sealed(Stored(clear, Some(ct)), ensured.value.mint));
    }

    // ---- effects --------------------------------------------------------------------------------------------

    /** One turn of the loop of `effectOps`. */
    method ApplyEffect(wf: Workflow, e: Effect, payload: Payload, m: Minted, s: Progress) returns (r: Result<Progress, Refusal>)
      requires CacheRight()
      modifies ring
      ensures CacheRight() && r == Effected(p, db, wf, e, payload, m, s)
    {
      match e {
        case SetStatusEffect(target, cls, status, optional) =>
          var c := ClassOf(p, if cls == "" then wf.cls else cls);
          if c.Err? {
            return Err(c.error);
          }
          var o := if target == "" then s.objectId else p.renderText(target, s.ctx);
          if o == "" {
            return if optional then Ok(s) else Err(Refused("no target"));
          }
          var d := PlanStatus(c.value, o, status, m);
          return if d.Err? then Err(d.error) else Ok(s.(drafts := s.drafts + Listed(d.value)));
        case CreateEffect(cls, template, status) =>
          var c := ClassOf(p, cls);
          if c.Err? {
            return Err(c.error);
          }
          var d := CreateDraft(c.value, p.renderPayload(template, s.ctx), status, m);
          if d.Err? {
            return Err(d.error);
          }
          return Ok(Progress(
            s.drafts + [d.value], if s.objectId == "" then m.objectId else s.objectId,
            s.ctx["created." + cls + ".id" := Canon.Str(m.objectId)]));
        case OpenLinkEffect(cls, template, status) =>
          var c := ClassOf(p, cls);
          if c.Err? {
            return Err(c.error);
          }
          var d := CreateDraft(c.value, p.renderPayload(template, s.ctx), status, m);
          if d.Err? {
            return Err(d.error);
          }
          return Ok(s.(drafts := s.drafts + [d.value], ctx := s.ctx["created." + cls + ".id" := Canon.Str(m.objectId)]));
        case CloseLinkEffect(_, _, _, _, _) =>
          r := CloseLink(wf, e, payload, m, s);
        case RecordEffect =>
          r := ChangeRecord(wf, payload, m, s);
      }
    }

    /** The record effect, by the workflow's action. */
    method ChangeRecord(wf: Workflow, payload: Payload, m: Minted, s: Progress) returns (r: Result<Progress, Refusal>)
      requires CacheRight()
      modifies ring
      ensures CacheRight() && r == Effected(p, db, wf, RecordEffect, payload, m, s)
    {
      var c := ClassOf(p, wf.cls);
      if c.Err? {
        return Err(c.error);
      }
      if wf.action.StatusAction? {
        var d := PlanStatus(c.value, s.objectId, wf.status, m);
        return if d.Err? then Err(d.error) else Ok(s.(drafts := s.drafts + Listed(d.value)));
      }
      if wf.action.CreateAction? {
        var d := CreateDraft(c.value, payload, "", m);
        if d.Err? {
          return Err(d.error);
        }
        return Ok(Progress(s.drafts + [d.value], m.objectId, s.ctx["object.id" := Canon.Str(m.objectId)]));
      }
      var d := UpdateDraft(db, c.value, s.objectId, payload, "", m);
      return if d.Err? then Err(d.error) else Ok(s.(drafts := s.drafts + [d.value]));
    }

    /** `closeLinkOps`: the open link's own payload, with the closing fields set. */
    method CloseLink(wf: Workflow, e: Effect, payload: Payload, m: Minted, s: Progress) returns (r: Result<Progress, Refusal>)
      requires CacheRight() && e.CloseLinkEffect?
      modifies ring
      ensures CacheRight() && r == Effected(p, db, wf, e, payload, m, s)
    {
      var c := ClassOf(p, e.cls);
      if c.Err? {
        return Err(c.error);
      }
      var o := p.pick(e.match_, db, s.ctx);
      if o.None? {
        return if e.optional then Ok(s) else Err(Refused("nothing to close"));
      }
      var current := ReadHead(o.value);
      if current.Err? {
        return Err(current.error);
      }
      var d := UpdateDraft(db, c.value, o.value, current.value.1 + p.renderPayload(e.set_, s.ctx), e.status, m);
      return if d.Err? then Err(d.error) else Ok(s.(drafts := s.drafts + [d.value]));
    }

    /** `effectOps`: every effect planned and built in turn, against the state before any of them. */
    method EffectOps(w: WriteCtx, wf: Workflow, payload: Payload, supply: seq<Minted>, start: Progress)
      returns (r: Result<(seq<Op>, Id), Refusal>)
      requires CacheRight() && start.drafts == []
      modifies ring
      ensures CacheRight()
      ensures
        var s := AllEffects(p, db, wf, EffectsOf(wf), payload, supply, start);
        && (r.Ok? <==> s.Ok? && BuildAll(p, db, w, s.value.drafts).Ok?)
        && (r.Ok? ==> r.value == (BuildAll(p, db, w, s.value.drafts).value, s.value.objectId))
    {
      var effects := EffectsOf(wf);
      var rest, left, s, ctx := effects, supply, start, w;
      var ops: seq<Op> := [];
      while rest != []
        invariant CacheRight()
        invariant AllEffects(p, db, wf, effects, payload, supply, start) == AllEffects(p, db, wf, rest, payload, left, s)
        invariant BuildAll(p, db, w, s.drafts) == Ok(ops) && ctx == AfterAll(w, s.drafts)
        decreases |rest|
      {
        if left == [] {
          return Err(Refused("entropy"));
        }
        var next := ApplyEffect(wf, rest[0], payload, left[0], s);
        if next.Err? {
          return Err(next.error);
        }
        EffectAddsOne(p, db, wf, rest[0], payload, left[0], s);
        if |next.value.drafts| > |s.drafts| {
          var d := next.value.drafts[|s.drafts|];
          var built := BuildRecordOps(ctx, d);
          BuildAllLast(p, db, w, s.drafts, d);
          if built.Err? {
            DraftsGrow(p, db, wf, rest[1..], payload, left[1..], next.value);
            BuildFailsEarly(p, db, w, next.value.drafts, AllEffects(p, db, wf, rest[1..], payload, left[1..], next.value));
            return Err(built.error);
          }
          ops, ctx := ops + built.value, After(ctx, d);
        }
        rest, left, s := rest[1..], left[1..], next.value;
      }
      return Ok((ops, s.objectId));
    }

    // ---- decisions ---------------------------------------------------------------------------------------------

    /** What `decide` commits for an approval, with the proposal's key already forgotten. */
    method PlanApprovalOps(who: Principal, wf: Workflow, taskId: Id, supply: seq<Minted>, message: string, w: WriteCtx)
      returns (r: Result<Planned, Refusal>)
      requires CacheRight() && taskId in db.tasks
      modifies ring
      ensures CacheRight()
      ensures
        var plan := PlanApproval(p, db, who, wf, taskId, supply, message, w);
        (r.Ok? <==> plan.Ok?) && (r.Ok? ==> r == plan)
      ensures r.Ok? ==> DestroysOnly(r.value.ops, {TaskKey(taskId)})
      ensures r.Ok? ==> forall op :: op in r.value.ops && op.DestroyKey? ==> op.scope !in ring.cache
    {
      var t := db.tasks[taskId];
      var seen := ReadTask(true, taskId);
      if seen.Err? {
        return Err(seen.error);
      }
      var ctx := p.context(db, Subject(who.sub, who.acting, taskId, t.objectId, seen.value.payload, w.at));
      var verdict := Evaluate(p, db, wf.conditions, ctx);
      if verdict.reject.Some? || (verdict.blockers != [] && who.sub == POLICY) {
        return Err(Refused("conditions"));
      }
      var made := EffectOps(w, wf, seen.value.payload, supply, Progress([], t.objectId, ctx));
      if made.Err? {
        return Err(made.error);
      }
      var (ops, objectId) := made.value;
      if objectId == "" {
        return Err(Refused("no record"));
      }
      ghost var drafts := AllEffects(p, db, wf, EffectsOf(wf), seen.value.payload, supply, Progress([], t.objectId, ctx)).value.drafts;
      BatchPlain(p, db, w, drafts);
      var close := CloseTask(taskId, w.at);
      var kind := if wf.action.CorrectAction? && t.objectId != "" then RecordCorrect else TaskApprove;
      return Ok(Planned(
        Envelope(kind, who.sub, w.at, objectId, message), ops + ([ApproveMove(taskId, objectId, who, w.at)] + close)));
    }

    /** An action on a task that destroys at most its key, forgotten beforehand. */
    method FinishTask(ghost c: Call, plan: Planned, ghost taskId: Id) returns (r: Result<(), Refusal>)
      requires Valid() && Sound(p, db, c) && Plan(p, db, c) == Ok(plan)
      requires DestroysOnly(plan.ops, {TaskKey(taskId)})
      requires forall op :: op in plan.ops && op.DestroyKey? ==> op.scope !in ring.cache
      modifies this`db
      ensures Valid() && db == Step(p, old(db), c)
      ensures r.Ok? <==> Succeeds(p, old(db), c)
    {
      ghost var gone := {TaskKey(taskId)} - ring.cache.Keys;
      DestroysUncached(plan.ops, {TaskKey(taskId)}, ring.cache.Keys);
      r := Finish(c, plan, gone);
    }

    /** `Decide` */
    method Decide(who: Principal, taskId: Id, approve: bool, supply: seq<Minted>, message: string, at: int, recover: bool)
      returns (r: Result<(), Refusal>)
      requires Valid() && Sound(p, db, Call(Runs.Decide(who, taskId, approve, supply), at, recover, message))
      modifies this`db, ring
      ensures Valid() && db == Step(p, old(db), Call(Runs.Decide(who, taskId, approve, supply), at, recover, message))
      ensures r.Ok? <==> Succeeds(p, old(db), Call(Runs.Decide(who, taskId, approve, supply), at, recover, message))
    {
      ghost var c := Call(Runs.Decide(who, taskId, approve, supply), at, recover, message);
      var plan := PlanDecisionOps(who, taskId, approve, supply, message, WriteCtx(at, recover, map[]));
      if plan.Err? {
        return Err(plan.error);
      }
      r := FinishTask(c, plan.value, taskId);
    }

    method PlanDecisionOps(who: Principal, taskId: Id, approve: bool, supply: seq<Minted>, message: string, w: WriteCtx)
      returns (r: Result<Planned, Refusal>)
      requires CacheRight()
      modifies ring
      ensures CacheRight()
      ensures
        var plan := PlanDecision(p, db, who, taskId, approve, supply, message, w);
        (r.Ok? <==> plan.Ok?) && (r.Ok? ==> r == plan)
      ensures r.Ok? ==> DestroysOnly(r.value.ops, {TaskKey(taskId)})
      ensures r.Ok? ==> forall op :: op in r.value.ops && op.DestroyKey? ==> op.scope !in ring.cache
    {
      if taskId !in db.tasks {
        return Err(Refused("no proposal"));
      }
      var t := db.tasks[taskId];
      var seen := ReadTask(true, taskId);
      if seen.Err? {
        return Err(seen.error);
      }
      if t.workflow !in p.workflows {
        return Err(Refused("no such workflow"));
      }
      var wf := p.workflows[t.workflow];
      if !CanOn(who, PERM_APPROVE, wf.name) || who.acting !in wf.approveRoles {
        return Err(Refused("may not decide"));
      }
      if wf.independence && t.proposer == who.sub {
        return Err(Refused("separation of duties"));
      }
      if t.state != AwaitingReview {
        return Err(Refused("state"));
      }
      if approve {
        r := PlanApprovalOps(who, wf, taskId, supply, message, w);
        return;
      }
      var close := CloseTask(taskId, w.at);
      return Ok(Planned(
        Envelope(TaskReject, who.sub, w.at, taskId, message),
        [MoveTask(taskId, TaskChange(Rejected, w.at, None, None, Some(who.sub)))] + close));
    }

    /** The automatic approval that follows a proposal or an acceptance. */
    method ApproveUnderPolicy(taskId: Id, supply: seq<Minted>, message: string, at: int, recover: bool)
      returns (r: Result<(), Refusal>)
      requires Valid() && Sound(p, db, Call(PolicyApproval(taskId, supply), at, recover, message))
      modifies this`db, ring
      ensures Valid() && db == Step(p, old(db), Call(PolicyApproval(taskId, supply), at, recover, message))
      ensures r.Ok? <==> Succeeds(p, old(db), Call(PolicyApproval(taskId, supply), at, recover, message))
    {
      ghost var c := Call(PolicyApproval(taskId, supply), at, recover, message);
      if taskId !in db.tasks || db.tasks[taskId].workflow !in p.workflows {
        return Err(Refused("no proposal"));
      }
      var wf := p.workflows[db.tasks[taskId].workflow];
      if !wf.autoApprove || db.tasks[taskId].state != AwaitingReview {
        return Err(Refused("not automatic"));
      }
      var plan := PlanApprovalOps(PolicyPrincipal(), wf, taskId, supply, message, WriteCtx(at, recover, map[]));
      if plan.Err? {
        return Err(plan.error);
      }
      r := FinishTask(c, plan.value, taskId);
    }

    /** The checks of `Withdraw`. */
    method PlanWithdrawalOps(who: Principal, taskId: Id, message: string, at: int) returns (r: Result<Planned, Refusal>)
      requires CacheRight()
      modifies ring
      ensures CacheRight()
      ensures
        var plan := PlanWithdrawal(db, who, taskId, message, at);
        (r.Ok? <==> plan.Ok?) && (r.Ok? ==> r == plan)
      ensures r.Ok? ==> DestroysOnly(r.value.ops, {TaskKey(taskId)})
      ensures r.Ok? ==> forall op :: op in r.value.ops && op.DestroyKey? ==> op.scope !in ring.cache
    {
      if taskId !in db.tasks {
        return Err(Refused("no proposal"));
      }
      var t := db.tasks[taskId];
      var seen := ReadTask(true, taskId);
      if seen.Err? {
        return Err(seen.error);
      }
      if t.proposer != who.sub || Terminal(t.state) {
        return Err(Refused("withdrawal"));
      }
      var close := CloseTask(taskId, at);
      return Ok(Planned(
        Envelope(TaskWithdraw, who.sub, at, taskId, message),
        [MoveTask(taskId, TaskChange(Withdrawn, at, None, None, Some(who.sub)))] + close));
    }

    /** `Withdraw` */
    method Withdraw(who: Principal, taskId: Id, message: string, at: int) returns (r: Result<(), Refusal>)
      requires who.sub != PLACEHOLDER
      requires Valid() && at > 0
      modifies this`db, ring
      ensures Valid() && db == Step(p, old(db), Call(Runs.Withdraw(who, taskId), at, false, message))
      ensures r.Ok? <==> Succeeds(p, old(db), Call(Runs.Withdraw(who, taskId), at, false, message))
    {
      var plan := PlanWithdrawalOps(who, taskId, message, at);
      if plan.Err? {
        return Err(plan.error);
      }
      r := FinishTask(Call(Runs.Withdraw(who, taskId), at, false, message), plan.value, taskId);
    }

    /** The checks of `Accept`, and the answer's own write set. */
    method PlanAnswerOps(who: Principal, taskId: Id, accept: bool, message: string, at: int)
      returns (r: Result<Planned, Refusal>)
      requires CacheRight()
      modifies ring
      ensures CacheRight()
      ensures
        var plan := PlanAnswer(p, db, who, taskId, accept, message, at);
        (r.Ok? <==> plan.Ok?) && (r.Ok? ==> r == plan)
      ensures r.Ok? ==> DestroysOnly(r.value.ops, {TaskKey(taskId)})
      ensures r.Ok? ==> forall op :: op in r.value.ops && op.DestroyKey? ==> op.scope !in ring.cache
    {
      if taskId !in db.tasks {
        return Err(Refused("no proposal"));
      }
      var t := db.tasks[taskId];
      var seen := ReadTask(true, taskId);
      if seen.Err? {
        return Err(seen.error);
      }
      if t.workflow !in p.workflows || p.workflows[t.workflow].counterpartyField.None? {
        return Err(Refused("not two-party"));
      }
      if t.state != AwaitingCounterparty || t.counterparty != who.sub {
        return Err(Refused("not waiting for this answer"));
      }
      if accept {
        return Ok(Planned(
          Envelope(TaskAccept, who.sub, at, taskId, message),
          [MoveTask(taskId, TaskChange(AwaitingReview, at, Some(Accepted), None, None))]));
      }
      var close := CloseTask(taskId, at);
      return Ok(Planned(
        Envelope(TaskReject, who.sub, at, taskId, message),
        [MoveTask(taskId, TaskChange(Rejected, at, Some(Declined), None, None))] + close));
    }

    /** The first commit of `Accept`. */
    method Respond(who: Principal, taskId: Id, accept: bool, message: string, at: int) returns (r: Result<(), Refusal>)
      requires Valid() && at > 0
      modifies this`db, ring
      ensures Valid() && db == Step(p, old(db), Call(Runs.Respond(who, taskId, accept), at, false, message))
      ensures r.Ok? <==> Succeeds(p, old(db), Call(Runs.Respond(who, taskId, accept), at, false, message))
    {
      var plan := PlanAnswerOps(who, taskId, accept, message, at);
      if plan.Err? {
        return Err(plan.error);
      }
      r := FinishTask(Call(Runs.Respond(who, taskId, accept), at, false, message), plan.value, taskId);
    }

    /** Whether nothing the conditions collect stands in the way of an automatic approval. */
    method Unblocked(who: Principal, taskId: Id, at: int) returns (free: bool)
      requires CacheRight()
      modifies ring
      ensures CacheRight() && (free <==> Automatic(p, db, who, taskId, at))
    {
      if taskId !in db.tasks || db.tasks[taskId].workflow !in p.workflows {
        return false;
      }
      var t := db.tasks[taskId];
      var wf := p.workflows[t.workflow];
      if !wf.autoApprove {
        return false;
      }
      var seen := ReadTask(true, taskId);
      if seen.Err? {
        return false;
      }
      var ctx := p.context(db, Subject(who.sub, who.acting, taskId, t.objectId, seen.value.payload, at));
      var verdict := Evaluate(p, db, wf.conditions, ctx);
      return verdict.blockers == [];
    }

    /** The automatic approval that follows an acceptance, when nothing stands in its way. */
    method ApproveIfFree(who: Principal, taskId: Id, supply: seq<Minted>, message: string, seen: int, at: int, recover: bool)
      returns (r: Result<(), Refusal>, ghost second: bool)
      requires Valid()
      requires Automatic(p, db, who, taskId, seen) ==> Sound(p, db, PolicyCall(taskId, supply, message, at, recover))
      modifies this`db, ring
      ensures Valid() && (second <==> Automatic(p, old(db), who, taskId, seen))
      ensures db == (if second then Step(p, old(db), PolicyCall(taskId, supply, message, at, recover)) else old(db))
      ensures r.Ok? <==> (second ==> Succeeds(p, old(db), PolicyCall(taskId, supply, message, at, recover)))
    {
      second := false;
      r := Ok(());
      var free := Unblocked(who, taskId, seen);
      if free {
        second := true;
        r := ApproveUnderPolicy(taskId, supply, message, at, recover);
      }
    }

    /**
     `Accept`: the answer is one commit and an automatic approval another. An error is a refusal of the
     one or of the other, and a refusal of the second leaves the first in place. The clock is read for the
     answer, for the conditions and for the approval.
     */
    method Accept(
      who: Principal, taskId: Id, accept: bool, supply: seq<Minted>, message: string, at: int, seen: int, decided: int,
      recover: bool)
      returns (r: Result<(), Refusal>, ghost second: bool)
      requires Valid() && at > 0
      requires AcceptApproves(p, db, who, taskId, accept, message, at, seen) ==>
        Sound(p, Step(p, db, AnswerCall(who, taskId, accept, message, at)), PolicyCall(taskId, supply, message, decided, recover))
      modifies this`db, ring
      ensures Valid() && (second <==> AcceptApproves(p, old(db), who, taskId, accept, message, at, seen))
      ensures
        var mid := Step(p, old(db), AnswerCall(who, taskId, accept, message, at));
        db == (if second then Step(p, mid, PolicyCall(taskId, supply, message, decided, recover)) else mid)
      ensures
        var first := AnswerCall(who, taskId, accept, message, at);
        r.Ok? <==>
        && Succeeds(p, old(db), first)
        && (second ==> Succeeds(p, Step(p, old(db), first), PolicyCall(taskId, supply, message, decided, recover)))
    {
      second := false;
      r := Respond(who, taskId, accept, message, at);
      if r.Ok? && accept {
        r, second := ApproveIfFree(who, taskId, supply, message, seen, decided, recover);
      }
    }

    /** The first commit of `Propose`, and whether nothing stands in the way of an automatic approval. */
    method Submit(who: Principal, name: string, req: Request, taskId: Id, minted: Key, message: string, w: WriteCtx)
      returns (r: Result<Planned, Refusal>, blockers: seq<string>)
      requires CacheRight()
      modifies ring
      ensures CacheRight()
      ensures
        var plan := PlanProposal(p, db, who, name, req, taskId, minted, w);
        (r.Ok? <==> plan.Ok?) && (r.Ok? ==> r == plan && blockers == ProposalBlockers(p, db, who, name, req, taskId, w.at))
      ensures r.Ok? ==> DestroysOnly(r.value.ops, {})
    {
      blockers := [];
      if name !in p.workflows {
        return Err(Refused("no such workflow")), blockers;
      }
      var wf := p.workflows[name];
      if !Acceptable(p, who, wf, req) {
        return Err(Refused("proposal")), blockers;
      }
      if req.objectId != "" && (req.objectId !in db.rec.objects || db.rec.objects[req.objectId].cls != wf.cls) {
        return Err(Refused("record")), blockers;
      }
      var ctx := p.context(db, Subject(who.sub, who.acting, taskId, req.objectId, req.payload, w.at));
      var verdict := Evaluate(p, db, wf.conditions, ctx);
      blockers := verdict.blockers;
      if verdict.reject.Some? {
        return Err(Refused("rejected")), blockers;
      }
      var party := PartyOf(p, wf, req.payload);
      if party.Err? {
        return Err(party.error), blockers;
      }
      var sealed := SealTask(w, ProposalPii(p, wf), taskId, req.payload, minted);
      if sealed.Err? {
        return Err(sealed.error), blockers;
      }
      var state := if wf.counterpartyField.Some? then AwaitingCounterparty else AwaitingReview;
      var task := TaskRow(
        wf.name, wf.cls, req.objectId, state, who.sub, party.value, NoAnswer, sealed.value.stored, w.at, w.at, "", 0);
      r := Ok(Planned(
        Envelope(TaskPropose, who.sub, w.at, taskId, req.message), sealed.value.mint + [PutTask(taskId, task)]));
    }

    /**
     `Propose`: the proposal is one commit and an automatic approval another. An error is a refusal of
     the one or of the other, and a refusal of the second leaves the first in place.
     */
    method Propose(
      who: Principal, name: string, req: Request, taskId: Id, minted: Key, supply: seq<Minted>, message: string, at: int,
      decided: int, recover: bool) returns (r: Result<(), Refusal>, ghost second: bool)
      requires who.sub != PLACEHOLDER
      requires Valid() && at > 0 && taskId !in db.tasks
      requires ProposeApproves(p, db, who, name, req, taskId, minted, message, at, recover) ==>
        Sound(
          p, Step(p, db, ProposalCall(who, name, req, taskId, minted, message, at, recover)),
          PolicyCall(taskId, supply, message, decided, recover))
      modifies this`db, ring
      ensures Valid()
      ensures second <==> ProposeApproves(p, old(db), who, name, req, taskId, minted, message, at, recover)
      ensures
        var mid := Step(p, old(db), ProposalCall(who, name, req, taskId, minted, message, at, recover));
        db == (if second then Step(p, mid, PolicyCall(taskId, supply, message, decided, recover)) else mid)
      ensures
        var first := ProposalCall(who, name, req, taskId, minted, message, at, recover);
        r.Ok? <==>
        && Succeeds(p, old(db), first)
        && (second ==> Succeeds(p, Step(p, old(db), first), PolicyCall(taskId, supply, message, decided, recover)))
    {
      second := false;
      var free;
      r, free := FileProposal(who, name, req, taskId, minted, message, at, recover);
      if r.Ok? && free {
        second := true;
        r := ApproveUnderPolicy(taskId, supply, message, decided, recover);
      }
    }

    /** The first commit of `Propose`, and whether an approval follows by itself. */
    method FileProposal(
      who: Principal, name: string, req: Request, taskId: Id, minted: Key, message: string, at: int, recover: bool)
      returns (r: Result<(), Refusal>, free: bool)
      requires who.sub != PLACEHOLDER
      requires Valid() && at > 0 && taskId !in db.tasks
      modifies this`db, ring
      ensures Valid() && db == Step(p, old(db), ProposalCall(who, name, req, taskId, minted, message, at, recover))
      ensures r.Ok? <==> Succeeds(p, old(db), ProposalCall(who, name, req, taskId, minted, message, at, recover))
      ensures r.Ok? ==> (free <==> Immediate(p, old(db), who, name, req, taskId, at))
    {
      ghost var c := ProposalCall(who, name, req, taskId, minted, message, at, recover);
      free := false;
      var plan, blockers := Submit(who, name, req, taskId, minted, message, WriteCtx(at, recover, map[]));
      if plan.Err? {
        return Err(plan.error), free;
      }
      r := Finish(c, plan.value, {});
      if blockers == [] && name in p.workflows {
        free := p.workflows[name].autoApprove && p.workflows[name].counterpartyField.None?;
      }
    }

    /** One seeded record. */
    method SeedRecord(cls: string, payload: Payload, status: string, m: Minted, message: string, at: int, recover: bool)
      returns (r: Result<(), Refusal>)
      requires Valid() && Sound(p, db, Call(Seed(cls, payload, status, m), at, recover, message))
      modifies this`db, ring
      ensures Valid() && db == Step(p, old(db), Call(Seed(cls, payload, status, m), at, recover, message))
      ensures r.Ok? <==> Succeeds(p, old(db), Call(Seed(cls, payload, status, m), at, recover, message))
    {
      ghost var c := Call(Seed(cls, payload, status, m), at, recover, message);
      var plan := PlanSeed(cls, payload, status, m, message, WriteCtx(at, recover, map[]));
      if plan.Err? {
        return Err(plan.error);
      }
      r := Finish(c, plan.value, {});
    }

    method PlanSeed(cls: string, payload: Payload, status: string, m: Minted, message: string, w: WriteCtx)
      returns (r: Result<Planned, Refusal>)
      requires CacheRight()
      modifies ring
      ensures CacheRight()
      ensures
        var drafts := SeedDrafts(p, Seed(cls, payload, status, m));
        && (r.Ok? <==> drafts.Ok? && BuildAll(p, db, w, drafts.value).Ok?)
        && (r.Ok? ==> r.value == Planned(
              Envelope(RecordCreate, "seed", w.at, m.objectId, message), BuildAll(p, db, w, drafts.value).value))
      ensures r.Ok? ==> DestroysOnly(r.value.ops, {})
    {
      var c := ClassOf(p, cls);
      if c.Err? {
        return Err(c.error);
      }
      var d := CreateDraft(c.value, payload, status, m);
      if d.Err? {
        return Err(d.error);
      }
      var built := BuildRecordOps(w, d.value);
      BuildAllLast(p, db, w, [], d.value);
      assert [] + [d.value] == [d.value];
      if built.Err? {
        return Err(built.error);
      }
      BatchPlain(p, db, w, [d.value]);
      return Ok(Planned(Envelope(RecordCreate, "seed", w.at, m.objectId, message), [] + built.value));
    }
  }

  // ---- when an approval follows by itself ------------------------------------------------------------------

  function AnswerCall(who: Principal, taskId: Id, accept: bool, message: string, at: int): Call {
    Call(Respond(who, taskId, accept), at, false, message)
  }

  function ProposalCall(
    who: Principal, name: string, req: Request, taskId: Id, minted: Key, message: string, at: int, recover: bool): Call
  {
    Call(Propose(who, name, req, taskId, minted), at, recover, message)
  }

  function PolicyCall(taskId: Id, supply: seq<Minted>, message: string, at: int, recover: bool): Call {
    Call(PolicyApproval(taskId, supply), at, recover, message)
  }

  /** An acceptance that goes through and leaves the proposal free to be approved. */
  ghost predicate AcceptApproves(
    p: Pack, db: Db, who: Principal, taskId: Id, accept: bool, message: string, at: int, seen: int)
  {
    && accept && Succeeds(p, db, AnswerCall(who, taskId, accept, message, at))
    && Automatic(p, Step(p, db, AnswerCall(who, taskId, accept, message, at)), who, taskId, seen)
  }

  /** A proposal that goes through and that nothing keeps from being approved at once. */
  ghost predicate ProposeApproves(
    p: Pack, db: Db, who: Principal, name: string, req: Request, taskId: Id, minted: Key, message: string, at: int,
    recover: bool)
  {
    && Succeeds(p, db, ProposalCall(who, name, req, taskId, minted, message, at, recover))
    && Immediate(p, db, who, name, req, taskId, at)
  }

  /** After an acceptance: the workflow approves by itself and no condition collected a blocker. */
  predicate Automatic(p: Pack, db: Db, who: Principal, taskId: Id, at: int) {
    && taskId in db.tasks && db.tasks[taskId].workflow in p.workflows
    && p.workflows[db.tasks[taskId].workflow].autoApprove
    && (var t := db.tasks[taskId];
        var seen := OpenProposal(db.deks, true, taskId, t.payload);
        seen.Ok? && BlockersOf(
          p, db, p.workflows[t.workflow].conditions,
          p.context(db, Subject(who.sub, who.acting, taskId, t.objectId, seen.value.payload, at))) == [])
  }

  function ProposalBlockers(p: Pack, db: Db, who: Principal, name: string, req: Request, taskId: Id, at: int): seq<string> {
    if name !in p.workflows then []
    else
      BlockersOf(
        p, db, p.workflows[name].conditions,
        p.context(db, Subject(who.sub, who.acting, taskId, req.objectId, req.payload, at)))
  }

  /** With a proposal: the workflow approves by itself, needs nobody else, and had no blocker when it was proposed. */
  predicate Immediate(p: Pack, db: Db, who: Principal, name: string, req: Request, taskId: Id, at: int) {
    && name in p.workflows && p.workflows[name].autoApprove && p.workflows[name].counterpartyField.None?
    && ProposalBlockers(p, db, who, name, req, taskId, at) == []
  }

  // ---- building effect by effect ---------------------------------------------------------------------------

  /** The context after a list of changes. */
  function AfterAll(w: WriteCtx, drafts: seq<Draft>): WriteCtx
    decreases |drafts|
  {
    if drafts == [] then w else AfterAll(After(w, drafts[0]), drafts[1..])
  }

  lemma {:induction false} AfterAllLast(w: WriteCtx, drafts: seq<Draft>, d: Draft)
    ensures AfterAll(w, drafts + [d]) == After(AfterAll(w, drafts), d)
    decreases |drafts|
  {
    if drafts == [] {
      assert drafts + [d] == [d] && [d][1..] == [];
    } else {
      assert (drafts + [d])[1..] == drafts[1..] + [d];
      AfterAllLast(After(w, drafts[0]), drafts[1..], d);
    }
  }

  /** One write set is another followed by a third, when all can be built. */
  ghost predicate IsJoin(all: Result<seq<Op>, Refusal>, a: Result<seq<Op>, Refusal>, b: Result<seq<Op>, Refusal>) {
    (all.Ok? <==> a.Ok? && b.Ok?) && (all.Ok? ==> all.value == a.value + b.value)
  }

  lemma JoinRegroups(
    all: Result<seq<Op>, Refusal>, one: Result<seq<Op>, Refusal>, more: Result<seq<Op>, Refusal>,
    before: Result<seq<Op>, Refusal>, rest: Result<seq<Op>, Refusal>, last: Result<seq<Op>, Refusal>)
    requires IsJoin(more, rest, last) && IsJoin(all, one, more) && IsJoin(before, one, rest)
    ensures IsJoin(all, before, last)
  {
  }

  lemma BuildAllHead(p: Pack, db: Db, w: WriteCtx, d: Draft, rest: seq<Draft>)
    ensures IsJoin(BuildAll(p, db, w, [d] + rest), BuildRecord(p, db, w, d), BuildAll(p, db, After(w, d), rest))
    ensures AfterAll(w, [d] + rest) == AfterAll(After(w, d), rest)
  {
    assert ([d] + rest)[0] == d && ([d] + rest)[1..] == rest;
  }

  /** Building a list and one more change is building the list, then the change after it. */
  ghost predicate BuildsOneMore(p: Pack, db: Db, w: WriteCtx, drafts: seq<Draft>, d: Draft) {
    IsJoin(BuildAll(p, db, w, drafts + [d]), BuildAll(p, db, w, drafts), BuildRecord(p, db, AfterAll(w, drafts), d))
  }

  lemma {:induction false} BuildAllMore(p: Pack, db: Db, w: WriteCtx, drafts: seq<Draft>, d: Draft)
    ensures BuildsOneMore(p, db, w, drafts, d)
    decreases |drafts|
  {
    if drafts == [] {
      BuildAllHead(p, db, w, d, []);
      assert drafts + [d] == [d] + [];
    } else {
      var first, rest := drafts[0], drafts[1..];
      BuildAllMore(p, db, After(w, first), rest, d);
      BuildAllHead(p, db, w, first, rest);
      BuildAllHead(p, db, w, first, rest + [d]);
      assert drafts == [first] + rest && drafts + [d] == [first] + (rest + [d]);
      JoinRegroups(
        BuildAll(p, db, w, drafts + [d]), BuildRecord(p, db, w, first), BuildAll(p, db, After(w, first), rest + [d]),
        BuildAll(p, db, w, drafts), BuildAll(p, db, After(w, first), rest),
        BuildRecord(p, db, AfterAll(After(w, first), rest), d));
    }
  }

  lemma BuildAllLast(p: Pack, db: Db, w: WriteCtx, drafts: seq<Draft>, d: Draft)
    ensures AfterAll(w, drafts + [d]) == After(AfterAll(w, drafts), d)
    ensures BuildsOneMore(p, db, w, drafts, d)
  {
    AfterAllLast(w, drafts, d);
    BuildAllMore(p, db, w, drafts, d);
  }

  lemma {:induction false} BuildPrefix(p: Pack, db: Db, w: WriteCtx, xs: seq<Draft>, ys: seq<Draft>)
    requires xs <= ys && BuildAll(p, db, w, ys).Ok?
    ensures BuildAll(p, db, w, xs).Ok?
    decreases |xs|
  {
    if xs != [] {
      BuildPrefix(p, db, After(w, xs[0]), xs[1..], ys[1..]);
    }
  }

  lemma EffectAddsOne(p: Pack, db: Db, wf: Workflow, e: Effect, payload: Payload, m: Minted, s: Progress)
    requires Effected(p, db, wf, e, payload, m, s).Ok?
    ensures
      var next := Effected(p, db, wf, e, payload, m, s).value.drafts;
      next == s.drafts || (|next| == |s.drafts| + 1 && next == s.drafts + [next[|s.drafts|]])
  {
  }

  lemma {:induction false} DraftsGrow(
    p: Pack, db: Db, wf: Workflow, effects: seq<Effect>, payload: Payload, supply: seq<Minted>, s: Progress)
    ensures
      var r := AllEffects(p, db, wf, effects, payload, supply, s);
      r.Ok? ==> s.drafts <= r.value.drafts
    decreases |effects|
  {
    if effects != [] && supply != [] {
      var next := Effected(p, db, wf, effects[0], payload, supply[0], s);
      if next.Ok? {
        EffectAddsOne(p, db, wf, effects[0], payload, supply[0], s);
        DraftsGrow(p, db, wf, effects[1..], payload, supply[1..], next.value);
      }
    }
  }

  lemma BuildFailsEarly(p: Pack, db: Db, w: WriteCtx, drafts: seq<Draft>, r: Result<Progress, Refusal>)
    requires BuildAll(p, db, w, drafts).Err?
    requires r.Ok? ==> drafts <= r.value.drafts
    ensures r.Ok? ==> BuildAll(p, db, w, r.value.drafts).Err?
  {
    if r.Ok? && BuildAll(p, db, w, r.value.drafts).Ok? {
      BuildPrefix(p, db, w, drafts, r.value.drafts);
    }
  }

  /** Something new about a person who was not erased. */
  predicate Changes(held: Profile, email: string, name: string) {
    !held.erased && ((email != "" && email != held.email) || (name != "" && name != held.name))
  }

  /** A profile always opens, and something new about its person is always let through. */
  lemma ProfileOpensAlways(
    db: Db, sub: string, email: string, name: string, minted: Key, message: string, w: WriteCtx)
    requires ProfileLocal(db.people, db.deks, sub)
    ensures OpenProfile(db, sub).Ok?
    ensures
      PlanSeeIdentity(db, sub, email, name, minted, message, w).Ok? <==> Changes(OpenProfile(db, sub).value, email, name)
  {
  }

  lemma ErasesOne(p: Pack, db: Db, o: Id, policyId: string, at: int)
    requires R.PlanErasure(p, db, o, policyId, at).Ok?
    ensures DestroysOnly(R.PlanErasure(p, db, o, policyId, at).value, {SubjectKey(o)})
  {
  }

  /** Forgetting a recipient destroys the invitation's own key and no other. */
  lemma ForgetsOne(db: Db, id: Id, at: int)
    requires SealsOk(db.people, db.deks)
    ensures DestroysOnly(ForgetOps(db, id, at), {InviteKey(id)})
  {
    assert InviteLocal(db.people, db.deks, id);
  }

  function ExpireCalls(ids: seq<Id>, message: string, at: int): seq<Call> {
    seq(|ids|, i requires 0 <= i < |ids| => Call(Expire(ids[i]), at, false, message))
  }

  /** How many of these recipients, taken in turn, are forgotten by it. */
  ghost function Forgotten(p: Pack, db: Db, ids: seq<Id>, message: string, at: int): nat
    decreases |ids|
  {
    if ids == [] then 0
    else
      var c := Call(Expire(ids[0]), at, false, message);
      (if Succeeds(p, db, c) then 1 else 0) + Forgotten(p, Step(p, db, c), ids[1..], message, at)
  }

  lemma {:induction false} ForgottenNext(p: Pack, db: Db, ids: seq<Id>, id: Id, message: string, at: int)
    ensures
      var mid := Run(p, db, ExpireCalls(ids, message, at));
      Forgotten(p, db, ids + [id], message, at) ==
      Forgotten(p, db, ids, message, at) + (if Succeeds(p, mid, Call(Expire(id), at, false, message)) then 1 else 0)
    decreases |ids|
  {
    if ids == [] {
      assert ids + [id] == [id] && [id][1..] == [] && ExpireCalls(ids, message, at) == [];
    } else {
      var c := Call(Expire(ids[0]), at, false, message);
      assert (ids + [id])[1..] == ids[1..] + [id];
      assert ExpireCalls(ids, message, at)[0] == c && ExpireCalls(ids, message, at)[1..] == ExpireCalls(ids[1..], message, at);
      ForgottenNext(p, Step(p, db, c), ids[1..], id, message, at);
    }
  }

  lemma {:induction false} RunLast(p: Pack, db: Db, calls: seq<Call>, c: Call)
    ensures Run(p, db, calls + [c]) == Step(p, Run(p, db, calls), c)
    decreases |calls|
  {
    if calls == [] {
      assert calls + [c] == [c] && [c][1..] == [];
    } else {
      assert (calls + [c])[1..] == calls[1..] + [c];
      RunLast(p, Step(p, db, calls[0]), calls[1..], c);
    }
  }

  lemma {:induction false} ExpiriesSound(p: Pack, db: Db, ids: seq<Id>, message: string, at: int)
    requires at > 0
    ensures SoundRun(p, db, ExpireCalls(ids, message, at))
    decreases |ids|
  {
    if ids != [] {
      var c := Call(Expire(ids[0]), at, false, message);
      ExpiriesSound(p, Step(p, db, c), ids[1..], message, at);
      assert ExpireCalls(ids, message, at)[0] == c && ExpireCalls(ids, message, at)[1..] == ExpireCalls(ids[1..], message, at);
    }
  }

  lemma ExpiriesKeep(p: Pack, db: Db, ids: seq<Id>, message: string, at: int)
    requires PackSound(p) && Inv(p, db) && at > 0
    ensures Later(db, Run(p, db, ExpireCalls(ids, message, at)))
  {
    ExpiriesSound(p, db, ids, message, at);
    RunKeeps(p, db, ExpireCalls(ids, message, at));
  }

  /** These recipients have had their turn since `before`, and the others have not. */
  predicate TurnsTaken(before: Db, ids: seq<Id>, todo: set<Id>) {
    && |ids| + |todo| == |before.people.recipients.Keys|
    && forall id :: id in before.people.recipients ==> id in todo || id in ids
  }

  ghost predicate Expiring(p: Pack, before: Db, now: Db, ids: seq<Id>, n: nat, todo: set<Id>, message: string, at: int) {
    && PackSound(p) && Inv(p, before) && TurnsTaken(before, ids, todo)
    && now == Run(p, before, ExpireCalls(ids, message, at)) && n == Forgotten(p, before, ids, message, at)
  }

  lemma ExpiringNext(before: Db, ids: seq<Id>, todo: set<Id>, id: Id)
    requires TurnsTaken(before, ids, todo) && id in todo
    ensures TurnsTaken(before, ids + [id], todo - {id})
  {
    forall x | x in before.people.recipients
      ensures x in todo - {id} || x in ids + [id]
    {
      assert x != id && x in ids ==> x in ids + [id];
      assert id == (ids + [id])[|ids|];
    }
  }

  lemma NobodyForgotten(p: Pack, db: Db, message: string, at: int)
    ensures Run(p, db, ExpireCalls([], message, at)) == db && Forgotten(p, db, [], message, at) == 0
    ensures TurnsTaken(db, [], db.people.recipients.Keys)
  {
    assert ExpireCalls([], message, at) == [];
  }

  lemma ExpireNext(p: Pack, db: Db, ids: seq<Id>, id: Id, message: string, at: int)
    ensures Run(p, db, ExpireCalls(ids + [id], message, at)) ==
      Step(p, Run(p, db, ExpireCalls(ids, message, at)), Call(Expire(id), at, false, message))
  {
    RunLast(p, db, ExpireCalls(ids, message, at), Call(Expire(id), at, false, message));
    assert ExpireCalls(ids + [id], message, at) == ExpireCalls(ids, message, at) + [Call(Expire(id), at, false, message)];
  }

  lemma NewestFound(versions: map<(Id, nat), VersionRow>, o: Id, v: Option<nat>)
    requires v.Some? ==> (o, v.value) in versions
    requires forall k :: k in versions && k.0 == o ==> v.Some? && k.1 <= v.value
    ensures v == Newest(versions, o)
  {
    forall w: nat | (o, w) in versions
      ensures v.Some? && w <= v.value
    {
      assert (o, w).0 == o;
    }
    if v.Some? {
      assert IsNewest(versions, o, v.value);
    }
  }
}
