/**
 The register's tables, the write sets that change them, and the commit that lands one
 (`internal/register/register.go`, `internal/store/schema.go`, `internal/byok/byok.go`).

 One tenant. Keys and hashes are symbolic: a wrap, a ciphertext and a commitment are constructors, so
 opening one with anything but what it was made from fails. A transaction id is the envelope and the
 write set it hashes.
 */
module Tables {
  import opened Outcomes
  import Canon

  type Id = string
  type Key = nat
  type Payload = map<string, Canon.Value>

  // ---- keys --------------------------------------------------------------------------

  /** What one data-encryption key covers. */
  datatype Scope =
    | NoScope
    | TenantKey
    | ClassKey(cls: string)
    | SubjectKey(objectId: Id)
    | TaskKey(taskId: Id)
    | InviteKey(inviteId: Id)
    | PersonKey(sub: string)

  datatype Wrap = NoWrap | Wrapped(scope: Scope, key: Key)

  /** `openAEAD` of a wrap: the scope is bound in as associated data. */
  function Unwrap(scope: Scope, w: Wrap): Option<Key> {
    if w.Wrapped? && w.scope == scope then Some(w.key) else None
  }

  datatype Ciphertext = Ciphertext(scope: Scope, key: Key, owner: Id, version: nat, data: Payload)

  function Encrypt(key: Key, scope: Scope, owner: Id, version: nat, data: Payload): Ciphertext {
    Ciphertext(scope, key, owner, version, data)
  }

  function Decrypt(key: Key, ct: Ciphertext, owner: Id, version: nat): Option<Payload> {
    if ct.key == key && ct.owner == owner && ct.version == version then Some(ct.data) else None
  }

  /** The commitment to a whole payload, keyed when the payload carries personal data. */
  datatype PayloadHash = PlainHash(payload: Payload) | KeyedHash(key: Key, payload: Payload)

  datatype Stored = Stored(clear: Payload, enc: Option<Ciphertext>)

  // ---- text ----------------------------------------------------------------------------

  /** What stands for the transaction id inside a write set, whoever wrote it there. */
  const PLACEHOLDER: string := "$txid"

  /** Text as rows store it: the placeholder is replaced on the way in. */
  type Settled = s: string | s != PLACEHOLDER witness ""

  /** A transaction id as text. */
  type Digest = s: Settled | |s| == 64 witness "0000000000000000000000000000000000000000000000000000000000000000"

  /** `substitute`, for one text. */
  function Fill(id: Settled, s: string): Settled {
    if s == PLACEHOLDER then id else s
  }

  function FillValue(id: Settled, v: Canon.Value): Canon.Value {
    if v == Canon.Str(PLACEHOLDER) then Canon.Str(id) else v
  }

  function FillColumns(id: Settled, columns: Payload): (r: Payload)
    ensures r.Keys == columns.Keys
  {
    map c | c in columns :: FillValue(id, columns[c])
  }

  // ---- the log -------------------------------------------------------------------------

  datatype Kind =
    | TaskPropose | TaskAccept | TaskReject | TaskApprove | TaskWithdraw | RecordCorrect | RecordCreate
    | RetentionPrune | Erasure | MemberGrant | MemberRevoke | InviteCreate | InviteRevoke | InviteRedeem
    | InviteRemind | InviteExpire | ProfileRecord

  datatype Envelope = Envelope(kind: Kind, author: string, at: int, subject: string, message: string)

  /** What a transaction is the hash of, and the hash as the rows carry it. */
  datatype TxId = TxId(env: Envelope, ops: seq<Op>, digest: Digest)

  // ---- rows ------------------------------------------------------------------------------

  datatype ObjectRow = ObjectRow(
    cls: string, naturalKey: Settled, head: nat, status: string, createdAt: int, createdTx: TxId,
    updatedAt: int, updatedTx: TxId, erased: bool)

  datatype VersionRow = VersionRow(
    tx: TxId, createdAt: int, status: string, hash: PayloadHash, body: Option<Stored>, scope: Scope,
    pruned: bool, policy: string)

  datatype KeyRow = KeyRow(objectId: Id, updatedAt: int)

  /** A query table as it was made: the class whose records it lists, and its columns with a unique index. */
  datatype QueryTable = QueryTable(cls: string, unique: set<string>)

  datatype QueryRow = QueryRow(status: string, updatedAt: int, columns: Payload)

  datatype Mark = Mark(objectId: Id, fromVersion: nat, toVersion: nat, policy: string, reason: Reason, at: int)

  datatype Reason = Retention | ErasureRequest

  datatype Dek = Dek(opWrap: Wrap, recWrap: Wrap, createdAt: int, destroyedAt: int) {
    predicate Live() {
      destroyedAt == 0
    }
  }

  datatype TaskState = Proposed | AwaitingCounterparty | AwaitingReview | Approved | Rejected | Withdrawn

  predicate Terminal(s: TaskState) {
    s.Approved? || s.Rejected? || s.Withdrawn?
  }

  datatype Answer = NoAnswer | Accepted | Declined

  datatype TaskRow = TaskRow(
    workflow: string, cls: string, objectId: Id, state: TaskState, proposer: string, counterparty: string,
    answer: Answer, payload: Stored, createdAt: int, updatedAt: int, decidedBy: string, decidedAt: int)

  datatype MemberRow = MemberRow(sub: string, role: string, grantedBy: string, grantedAt: int)

  datatype InviteRow = InviteRow(
    role: string, secret: string, createdBy: string, createdAt: int, expiresAt: int, usedBy: string, usedAt: int,
    revoked: bool)

  datatype RecipientRow = RecipientRow(scope: Scope, sealed: Option<Ciphertext>, remindedAt: int)

  datatype ProfileRow = ProfileRow(scope: Scope, sealed: Option<Ciphertext>, firstSeen: int, updatedAt: int)

  datatype Records = Records(
    objects: map<Id, ObjectRow>, versions: map<(Id, nat), VersionRow>, keys: map<(string, string), KeyRow>,
    query: map<(QueryTable, Id), QueryRow>, marks: map<(TxId, nat), Mark>)

  datatype People = People(
    members: map<string, MemberRow>, invites: map<Id, InviteRow>, recipients: map<Id, RecipientRow>,
    profiles: map<Settled, ProfileRow>)

  datatype Db = Db(
    rec: Records, deks: map<Scope, Dek>, tasks: map<Id, TaskRow>, people: People, log: seq<TxId>)

  function Blank(): Db {
    Db(Records(map[], map[], map[], map[], map[]), map[], map[], People(map[], map[], map[], map[]), [])
  }

  // ---- write sets ------------------------------------------------------------------------------

  datatype RecordOp =
    | PutVersion(objectId: Id, version: nat, createdAt: int, status: string, hash: PayloadHash, body: Stored, scope: Scope)
    | PruneVersion(objectId: Id, version: nat, policy: string)
    | PutObject(objectId: Id, cls: string, naturalKey: string, head: nat, status: string, at: int, stamped: bool)
    | EraseObject(objectId: Id, at: int)
    | PutKey(cls: string, naturalKey: string, objectId: Id, at: int)
    | DropKey(cls: string, naturalKey: string)
    | PutQuery(table: QueryTable, objectId: Id, row: QueryRow)
    | PutMark(idx: nat, mark: Mark)

  datatype PeopleOp =
    | PutMember(id: string, member: MemberRow)
    | DropMember(id: string)
    | PutInvite(id: Id, invite: InviteRow)
    | SpendInvite(id: Id, sub: string, at: int)
    | WithdrawInvite(id: Id)
    | PutRecipient(id: Id, recipient: RecipientRow)
    | BlankRecipient(id: Id)
    | RemindRecipient(id: Id, at: int)
    | PutProfile(sub: string, profile: ProfileRow)
    | BlankProfile(sub: string, at: int)

  datatype TaskChange = TaskChange(
    state: TaskState, at: int, answer: Option<Answer>, objectId: Option<Id>, decidedBy: Option<string>)

  datatype Op =
    | Rec(r: RecordOp)
    | MintKey(scope: Scope, opWrap: Wrap, recWrap: Wrap, at: int)
    | DestroyKey(scope: Scope, at: int)
    | PutTask(taskId: Id, task: TaskRow)
    | MoveTask(taskId: Id, change: TaskChange)
    | Ppl(p: PeopleOp)

  // ---- applying one entry ------------------------------------------------------------------------

  /** The unique index on class and natural key. */
  predicate Taken(objects: map<Id, ObjectRow>, cls: string, naturalKey: string, except: Id) {
    exists o :: o in objects && o != except && objects[o].cls == cls && objects[o].naturalKey == naturalKey
  }

  /** Two rows that a unique index on one of these columns keeps apart. */
  predicate Clash(a: Payload, b: Payload, unique: set<string>) {
    exists c :: c in unique && c in a && c in b && a[c] == b[c]
  }

  /** The unique indexes on the projected columns of one query table. */
  predicate ColumnHeld(query: map<(QueryTable, Id), QueryRow>, table: QueryTable, except: Id, columns: Payload) {
    exists k :: k in query && k.0 == table && k.1 != except && Clash(query[k].columns, columns, table.unique)
  }

  /** One row of a query table, which always gives every column. */
  function PutRow(query: map<(QueryTable, Id), QueryRow>, id: Settled, table: QueryTable, o: Id, row: QueryRow)
    : Option<map<(QueryTable, Id), QueryRow>>
  {
    var columns := FillColumns(id, row.columns);
    if ColumnHeld(query, table, o, columns) then None else Some(query[(table, o) := row.(columns := columns)])
  }

  /**
   Every entry is an upsert or a delete by primary key. An upsert that does not give every column
   only updates: there are no column defaults, so inserting such a row is refused. Every text of an
   entry that is the placeholder becomes the transaction id first.
   */
  function ApplyRecord(rec: Records, tx: TxId, op: RecordOp): Option<Records> {
    match op
    case PutVersion(o, v, at, status, hash, body, scope) =>
      Some(rec.(versions := rec.versions[(o, v) := VersionRow(tx, at, status, hash, Some(body), scope, false, "")]))
    case PruneVersion(o, v, policy) =>
      if (o, v) !in rec.versions then None
      else
        var row := rec.versions[(o, v)];
        Some(rec.(versions := rec.versions[(o, v) := row.(body := None, pruned := true, policy := policy)]))
    case PutObject(o, cls, text, head, status, at, stamped) =>
      var naturalKey := Fill(tx.digest, text);
      if Taken(rec.objects, cls, naturalKey, o) then None
      else if stamped then
        Some(rec.(objects := rec.objects[o := ObjectRow(cls, naturalKey, head, status, at, tx, at, tx, false)]))
      else if o !in rec.objects then None
      else
        var row := rec.objects[o];
        Some(rec.(objects := rec.objects[o := ObjectRow(
          cls, naturalKey, head, status, row.createdAt, row.createdTx, at, tx, false)]))
    case EraseObject(o, at) =>
      if o !in rec.objects then None
      else Some(rec.(objects := rec.objects[o := rec.objects[o].(erased := true, updatedAt := at, updatedTx := tx)]))
    case PutKey(cls, text, o, at) =>
      Some(rec.(keys := rec.keys[(cls, Fill(tx.digest, text)) := KeyRow(o, at)]))
    case DropKey(cls, text) =>
      Some(rec.(keys := rec.keys - {(cls, Fill(tx.digest, text))}))
    case PutQuery(table, o, row) =>
      var query := PutRow(rec.query, tx.digest, table, o, row);
      if query.None? then None else Some(rec.(query := query.value))
    case PutMark(idx, mark) =>
      Some(rec.(marks := rec.marks[(tx, idx) := mark]))
  }

  function ApplyPeople(ppl: People, tx: TxId, op: PeopleOp): Option<People> {
    match op
    case PutMember(id, member) => Some(ppl.(members := ppl.members[id := FillMember(tx.digest, member)]))
    case DropMember(id) => Some(ppl.(members := ppl.members - {id}))
    case PutInvite(id, invite) =>
      Some(ppl.(invites := ppl.invites[id := invite.(createdBy := Fill(tx.digest, invite.createdBy))]))
    case SpendInvite(id, sub, at) =>
      if id !in ppl.invites then None
      else Some(ppl.(invites := ppl.invites[id := ppl.invites[id].(usedBy := Fill(tx.digest, sub), usedAt := at)]))
    case WithdrawInvite(id) =>
      if id !in ppl.invites then None
      else Some(ppl.(invites := ppl.invites[id := ppl.invites[id].(revoked := true)]))
    case PutRecipient(id, recipient) => Some(ppl.(recipients := ppl.recipients[id := recipient]))
    case BlankRecipient(id) =>
      if id !in ppl.recipients then None
      else Some(ppl.(recipients := ppl.recipients[id := ppl.recipients[id].(sealed := None)]))
    case RemindRecipient(id, at) =>
      if id !in ppl.recipients then None
      else Some(ppl.(recipients := ppl.recipients[id := ppl.recipients[id].(remindedAt := at)]))
    case PutProfile(text, profile) => Some(ppl.(profiles := ppl.profiles[Fill(tx.digest, text) := profile]))
    case BlankProfile(text, at) =>
      var sub := Fill(tx.digest, text);
      if sub !in ppl.profiles then None
      else Some(ppl.(profiles := ppl.profiles[sub := ppl.profiles[sub].(sealed := None, updatedAt := at)]))
  }

  function FillMember(id: Settled, member: MemberRow): MemberRow {
    member.(sub := Fill(id, member.sub), grantedBy := Fill(id, member.grantedBy))
  }

  function FillTask(id: Settled, task: TaskRow): TaskRow {
    task.(proposer := Fill(id, task.proposer), counterparty := Fill(id, task.counterparty))
  }

  function FillChange(id: Settled, c: TaskChange): TaskChange {
    if c.decidedBy.Some? then c.(decidedBy := Some(Fill(id, c.decidedBy.value))) else c
  }

  function Moved(t: TaskRow, c: TaskChange): TaskRow {
    t.(
      state := c.state, updatedAt := c.at,
      answer := if c.answer.Some? then c.answer.value else t.answer,
      objectId := if c.objectId.Some? then c.objectId.value else t.objectId,
      decidedBy := if c.decidedBy.Some? then c.decidedBy.value else t.decidedBy,
      decidedAt := if c.decidedBy.Some? then c.at else t.decidedAt)
  }

  function ApplyOne(db: Db, tx: TxId, op: Op): Option<Db> {
    match op
    case Rec(r) =>
      var rec := ApplyRecord(db.rec, tx, r);
      if rec.None? then None else Some(db.(rec := rec.value))
    case MintKey(scope, opWrap, recWrap, at) =>
      Some(db.(deks := db.deks[scope := Dek(opWrap, recWrap, at, 0)]))
    case DestroyKey(scope, at) =>
      if scope !in db.deks then None
      else Some(db.(deks := db.deks[scope := db.deks[scope].(opWrap := NoWrap, recWrap := NoWrap, destroyedAt := at)]))
    case PutTask(id, task) => Some(db.(tasks := db.tasks[id := FillTask(tx.digest, task)]))
    case MoveTask(id, change) =>
      if id !in db.tasks then None
      else Some(db.(tasks := db.tasks[id := Moved(db.tasks[id], FillChange(tx.digest, change))]))
    case Ppl(p) =>
      var ppl := ApplyPeople(db.people, tx, p);
      if ppl.None? then None else Some(db.(people := ppl.value))
  }

  function Apply(db: Db, tx: TxId, ops: seq<Op>): Option<Db>
    decreases |ops|
  {
    if ops == [] then Some(db)
    else
      var next := ApplyOne(db, tx, ops[0]);
      if next.None? then None else Apply(next.value, tx, ops[1..])
  }

  lemma {:induction false} ApplyAppend(db: Db, tx: TxId, xs: seq<Op>, ys: seq<Op>)
    ensures Apply(db, tx, xs + ys) ==
      (var mid := Apply(db, tx, xs); if mid.None? then None else Apply(mid.value, tx, ys))
    decreases |xs|
  {
    if xs == [] {
      assert xs + ys == ys;
    } else {
      assert (xs + ys)[1..] == xs[1..] + ys;
      var next := ApplyOne(db, tx, xs[0]);
      if next.Some? {
        ApplyAppend(next.value, tx, xs[1..], ys);
      }
    }
  }

  lemma ApplySingle(db: Db, tx: TxId, op: Op)
    ensures Apply(db, tx, [op]) == ApplyOne(db, tx, op)
  {
  }

  /** What a commit refused leaves is the state it found. */
  datatype Refusal =
    | Refused(why: string)
    | NotApplied

  /**
   `commit`: the same envelope and the same effects is a retried request and changes nothing;
   anything else lands as one, or not at all, and is logged.
   */
  function Commit(db: Db, tx: TxId): Result<Db, Refusal> {
    if tx in db.log then Ok(db)
    else
      var landed := Apply(db, tx, tx.ops);
      if landed.None? then Err(NotApplied) else Ok(landed.value.(log := db.log + [tx]))
  }

  lemma {:induction false} ApplyKeepsLog(db: Db, tx: TxId, ops: seq<Op>)
    requires Apply(db, tx, ops).Some?
    ensures Apply(db, tx, ops).value.log == db.log
    decreases |ops|
  {
    if ops != [] {
      ApplyKeepsLog(ApplyOne(db, tx, ops[0]).value, tx, ops[1..]);
    }
  }
}
