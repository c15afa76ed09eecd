/**
 Crash replay of the register's own write sets (`internal/register/register.go`, `apply` and `replayPending`):
 whatever part of one had been applied, applying all of it ends where applying it once would have.
 */
module Replays {
  import opened Outcomes
  import opened Tables
  import opened Packs
  import opened RecordBuild
  import opened RecordInvariant
  import opened RecordSafety
  import opened Batch
  import opened IndexLimits
  import opened Workflows
  import opened Approval
  import opened Membership
  import opened Runs
  import opened RunSafety
  import R = RetentionPolicy

  // ---- one entry, applied again ----------------------------------------------------------

  /** The row an entry of a write set is about. */
  datatype Spot =
    | VersionAt(objectId: Id, version: nat)
    | ObjectAt(objectId: Id)
    | KeyAt(cls: string, naturalKey: string)
    | QueryAt(table: QueryTable, objectId: Id)
    | MarkAt(idx: nat)
    | DekAt(scope: Scope)
    | TaskAt(taskId: Id)
    | MemberAt(id: string)
    | InviteAt(id: Id)
    | RecipientAt(id: Id)
    | ProfileAt(sub: string)

  function RecordSpot(tx: TxId, op: RecordOp): Spot {
    match op
    case PutVersion(o, v, _, _, _, _, _) => VersionAt(o, v)
    case PruneVersion(o, v, _) => VersionAt(o, v)
    case PutObject(o, _, _, _, _, _, _) => ObjectAt(o)
    case EraseObject(o, _) => ObjectAt(o)
    case PutKey(cls, k, _, _) => KeyAt(cls, Fill(tx.digest, k))
    case DropKey(cls, k) => KeyAt(cls, Fill(tx.digest, k))
    case PutQuery(table, o, _) => QueryAt(table, o)
    case PutMark(idx, _) => MarkAt(idx)
  }

  function PeopleSpot(tx: TxId, op: PeopleOp): Spot {
    match op
    case PutMember(id, _) => MemberAt(id)
    case DropMember(id) => MemberAt(id)
    case PutInvite(id, _) => InviteAt(id)
    case SpendInvite(id, _, _) => InviteAt(id)
    case WithdrawInvite(id) => InviteAt(id)
    case PutRecipient(id, _) => RecipientAt(id)
    case BlankRecipient(id) => RecipientAt(id)
    case RemindRecipient(id, _) => RecipientAt(id)
    case PutProfile(sub, _) => ProfileAt(Fill(tx.digest, sub))
    case BlankProfile(sub, _) => ProfileAt(Fill(tx.digest, sub))
  }

  function SpotOf(tx: TxId, op: Op): Spot {
    match op
    case Rec(r) => RecordSpot(tx, r)
    case MintKey(s, _, _, _) => DekAt(s)
    case DestroyKey(s, _) => DekAt(s)
    case PutTask(t, _) => TaskAt(t)
    case MoveTask(t, _) => TaskAt(t)
    case Ppl(p) => PeopleSpot(tx, p)
  }

  /** The row is as the entry leaves it. */
  predicate RecordDone(rec: Records, tx: TxId, op: RecordOp) {
    match op
    case PutVersion(o, v, at, status, hash, body, scope) =>
      (o, v) in rec.versions && rec.versions[(o, v)] == VersionRow(tx, at, status, hash, Some(body), scope, false, "")
    case PruneVersion(o, v, policy) =>
      && (o, v) in rec.versions && rec.versions[(o, v)].pruned
      && rec.versions[(o, v)].body.None? && rec.versions[(o, v)].policy == policy
    case PutObject(o, cls, naturalKey, head, status, at, stamped) =>
      && o in rec.objects && !Taken(rec.objects, cls, Fill(tx.digest, naturalKey), o)
      && (var row := rec.objects[o];
          && row == ObjectRow(cls, Fill(tx.digest, naturalKey), head, status, row.createdAt, row.createdTx, at, tx, false)
          && (stamped ==> row.createdAt == at && row.createdTx == tx))
    case EraseObject(o, at) =>
      o in rec.objects && rec.objects[o].erased && rec.objects[o].updatedAt == at && rec.objects[o].updatedTx == tx
    case PutKey(cls, k, o, at) =>
      var key := (cls, Fill(tx.digest, k));
      key in rec.keys && rec.keys[key] == KeyRow(o, at)
    case DropKey(cls, k) => (cls, Fill(tx.digest, k)) !in rec.keys
    case PutQuery(table, o, row) =>
      var columns := FillColumns(tx.digest, row.columns);
      && (table, o) in rec.query && rec.query[(table, o)] == row.(columns := columns)
      && !ColumnHeld(rec.query, table, o, columns)
    case PutMark(idx, mark) => (tx, idx) in rec.marks && rec.marks[(tx, idx)] == mark
  }

  predicate PeopleDone(ppl: People, tx: TxId, op: PeopleOp) {
    match op
    case PutMember(id, member) => id in ppl.members && ppl.members[id] == FillMember(tx.digest, member)
    case DropMember(id) => id !in ppl.members
    case PutInvite(id, invite) => id in ppl.invites && ppl.invites[id] == invite.(createdBy := Fill(tx.digest, invite.createdBy))
    case SpendInvite(id, sub, at) =>
      id in ppl.invites && ppl.invites[id].usedBy == Fill(tx.digest, sub) && ppl.invites[id].usedAt == at
    case WithdrawInvite(id) => id in ppl.invites && ppl.invites[id].revoked
    case PutRecipient(id, recipient) => id in ppl.recipients && ppl.recipients[id] == recipient
    case BlankRecipient(id) => id in ppl.recipients && ppl.recipients[id].sealed.None?
    case RemindRecipient(id, at) => id in ppl.recipients && ppl.recipients[id].remindedAt == at
    case PutProfile(text, profile) =>
      Fill(tx.digest, text) in ppl.profiles && ppl.profiles[Fill(tx.digest, text)] == profile
    case BlankProfile(text, at) =>
      var sub := Fill(tx.digest, text);
      sub in ppl.profiles && ppl.profiles[sub].sealed.None? && ppl.profiles[sub].updatedAt == at
  }

  predicate Done(db: Db, tx: TxId, op: Op) {
    match op
    case Rec(r) => RecordDone(db.rec, tx, r)
    case MintKey(s, opWrap, recWrap, at) => s in db.deks && db.deks[s] == Dek(opWrap, recWrap, at, 0)
    case DestroyKey(s, at) =>
      s in db.deks && db.deks[s].opWrap == NoWrap && db.deks[s].recWrap == NoWrap && db.deks[s].destroyedAt == at
    case PutTask(t, task) => t in db.tasks && db.tasks[t] == FillTask(tx.digest, task)
    case MoveTask(t, change) => t in db.tasks && Moved(db.tasks[t], FillChange(tx.digest, change)) == db.tasks[t]
    case Ppl(p) => PeopleDone(db.people, tx, p)
  }

  lemma SamePut<K, V>(m: map<K, V>, k: K, v: V)
    requires k in m && m[k] == v
    ensures m[k := v] == m
  {
  }

  lemma RecordNoop(rec: Records, tx: TxId, op: RecordOp)
    requires RecordDone(rec, tx, op)
    ensures ApplyRecord(rec, tx, op) == Some(rec)
  {
    match op
    case PutVersion(o, v, _, _, _, _, _) => SamePut(rec.versions, (o, v), rec.versions[(o, v)]);
    case PruneVersion(o, v, _) => SamePut(rec.versions, (o, v), rec.versions[(o, v)]);
    case PutObject(o, _, _, _, _, _, _) => SamePut(rec.objects, o, rec.objects[o]);
    case EraseObject(o, _) => SamePut(rec.objects, o, rec.objects[o]);
    case PutKey(cls, k, _, _) => SamePut(rec.keys, (cls, Fill(tx.digest, k)), rec.keys[(cls, Fill(tx.digest, k))]);
    case DropKey(cls, k) => assert rec.keys - {(cls, Fill(tx.digest, k))} == rec.keys;
    case PutQuery(table, o, _) => SamePut(rec.query, (table, o), rec.query[(table, o)]);
    case PutMark(idx, mark) => SamePut(rec.marks, (tx, idx), mark);
  }

  lemma PeopleNoop(ppl: People, tx: TxId, op: PeopleOp)
    requires PeopleDone(ppl, tx, op)
    ensures ApplyPeople(ppl, tx, op) == Some(ppl)
  {
    match op
    case PutMember(id, _) => SamePut(ppl.members, id, ppl.members[id]);
    case DropMember(id) => assert ppl.members - {id} == ppl.members;
    case PutInvite(id, _) => SamePut(ppl.invites, id, ppl.invites[id]);
    case SpendInvite(id, _, _) => SamePut(ppl.invites, id, ppl.invites[id]);
    case WithdrawInvite(id) => SamePut(ppl.invites, id, ppl.invites[id]);
    case PutRecipient(id, recipient) => SamePut(ppl.recipients, id, recipient);
    case BlankRecipient(id) => SamePut(ppl.recipients, id, ppl.recipients[id]);
    case RemindRecipient(id, _) => SamePut(ppl.recipients, id, ppl.recipients[id]);
    case PutProfile(text, profile) => SamePut(ppl.profiles, Fill(tx.digest, text), profile);
    case BlankProfile(text, _) => SamePut(ppl.profiles, Fill(tx.digest, text), ppl.profiles[Fill(tx.digest, text)]);
  }

  /** An entry whose row is as it leaves it has nothing more to do. */
  lemma DoneNoop(db: Db, tx: TxId, op: Op)
    requires Done(db, tx, op)
    ensures ApplyOne(db, tx, op) == Some(db)
  {
    match op
    case Rec(r) => RecordNoop(db.rec, tx, r);
    case MintKey(s, _, _, _) => SamePut(db.deks, s, db.deks[s]);
    case DestroyKey(s, _) => SamePut(db.deks, s, db.deks[s]);
    case PutTask(t, _) => SamePut(db.tasks, t, db.tasks[t]);
    case MoveTask(t, _) => SamePut(db.tasks, t, db.tasks[t]);
    case Ppl(p) => PeopleNoop(db.people, tx, p);
  }

  lemma OneDone(db: Db, tx: TxId, op: Op)
    requires ApplyOne(db, tx, op).Some?
    ensures Done(ApplyOne(db, tx, op).value, tx, op)
  {
  }

  lemma RecordStays(rec: Records, tx: TxId, op: RecordOp, later: RecordOp)
    requires RecordDone(rec, tx, op) && ApplyRecord(rec, tx, later).Some? && RecordSpot(tx, later) != RecordSpot(tx, op)
    ensures RecordDone(ApplyRecord(rec, tx, later).value, tx, op)
  {
  }

  lemma PeopleStays(ppl: People, tx: TxId, op: PeopleOp, later: PeopleOp)
    requires PeopleDone(ppl, tx, op) && ApplyPeople(ppl, tx, later).Some? && PeopleSpot(tx, later) != PeopleSpot(tx, op)
    ensures PeopleDone(ApplyPeople(ppl, tx, later).value, tx, op)
  {
  }

  /** What is done stays done while other rows are written. */
  lemma StaysDone(db: Db, tx: TxId, op: Op, later: Op)
    requires Done(db, tx, op) && ApplyOne(db, tx, later).Some? && SpotOf(tx, later) != SpotOf(tx, op)
    ensures Done(ApplyOne(db, tx, later).value, tx, op)
  {
    if op.Rec? && later.Rec? {
      RecordStays(db.rec, tx, op.r, later.r);
    } else if op.Ppl? && later.Ppl? {
      PeopleStays(db.people, tx, op.p, later.p);
    }
  }

  // ---- a write set, applied again ----------------------------------------------------------------

  /** No two entries are about one row. */
  ghost predicate OncePerSpot(tx: TxId, ops: seq<Op>) {
    forall i, j :: 0 <= i < j < |ops| ==> SpotOf(tx, ops[i]) != SpotOf(tx, ops[j])
  }

  ghost predicate AllDone(db: Db, tx: TxId, ops: seq<Op>) {
    forall op :: op in ops ==> Done(db, tx, op)
  }

  lemma {:induction false} PrefixDone(db: Db, tx: TxId, ops: seq<Op>)
    requires OncePerSpot(tx, ops) && Apply(db, tx, ops).Some?
    ensures AllDone(Apply(db, tx, ops).value, tx, ops)
    decreases |ops|
  {
    if ops != [] {
      var last := |ops| - 1;
      assert ops == ops[..last] + [ops[last]];
      ApplyAppend(db, tx, ops[..last], [ops[last]]);
      var mid := Apply(db, tx, ops[..last]).value;
      ApplySingle(mid, tx, ops[last]);
      PrefixDone(db, tx, ops[..last]);
      OneDone(mid, tx, ops[last]);
      forall op | op in ops[..last]
        ensures Done(ApplyOne(mid, tx, ops[last]).value, tx, op)
      {
        var i :| 0 <= i < last && ops[i] == op;
        StaysDone(mid, tx, op, ops[last]);
      }
    }
  }

  lemma {:induction false} DoneAgain(db: Db, tx: TxId, ops: seq<Op>)
    requires AllDone(db, tx, ops)
    ensures Apply(db, tx, ops) == Some(db)
    decreases |ops|
  {
    if ops != [] {
      DoneNoop(db, tx, ops[0]);
      DoneAgain(db, tx, ops[1..]);
    }
  }

  /** A crash after `n` entries, and all of them applied again. */
  predicate ReplaysAfter(db: Db, tx: TxId, ops: seq<Op>, n: nat)
    requires n <= |ops|
  {
    var mid := Apply(db, tx, ops[..n]);
    mid.Some? && Apply(mid.value, tx, ops) == Apply(db, tx, ops)
  }

  /** A write set that writes no row twice can be replayed from wherever it was left. */
  lemma OncePerSpotReplays(db: Db, tx: TxId, ops: seq<Op>, n: nat)
    requires OncePerSpot(tx, ops) && Apply(db, tx, ops).Some? && n <= |ops|
    ensures ReplaysAfter(db, tx, ops, n)
  {
    var done, rest := ops[..n], ops[n..];
    assert ops == done + rest;
    ApplyAppend(db, tx, done, rest);
    var mid := Apply(db, tx, done).value;
    PrefixDone(db, tx, done);
    DoneAgain(mid, tx, done);
    ApplyAppend(mid, tx, done, rest);
  }

  // ---- every write set of the register --------------------------------------------------------------

  ghost function Spots(tx: TxId, ops: seq<Op>): set<Spot> {
    set op | op in ops :: SpotOf(tx, op)
  }

  lemma OnceConcat(tx: TxId, a: seq<Op>, b: seq<Op>)
    requires OncePerSpot(tx, a) && OncePerSpot(tx, b) && Spots(tx, a) !! Spots(tx, b)
    ensures OncePerSpot(tx, a + b) && Spots(tx, a + b) == Spots(tx, a) + Spots(tx, b)
  {
    var ops := a + b;
    forall i, j | 0 <= i < j < |ops|
      ensures SpotOf(tx, ops[i]) != SpotOf(tx, ops[j])
    {
      assert i < |a| ==> ops[i] == a[i] && SpotOf(tx, a[i]) in Spots(tx, a);
      assert j >= |a| ==> ops[j] == b[j - |a|] && SpotOf(tx, b[j - |a|]) in Spots(tx, b);
    }
  }

  function KeySpots(p: Pack, tx: TxId, pre: map<Id, ObjectRow>, d: Draft): set<Spot> {
    var previous := PreviousKey(pre, d.objectId);
    if d.cls.naturalKey == "" then {}
    else if previous == "" then {KeyAt(d.cls.name, KeyOf(p, tx, d))}
    else {KeyAt(d.cls.name, KeyOf(p, tx, d)), KeyAt(d.cls.name, previous)}
  }

  function HeadSpots(d: Draft): set<Spot> {
    {VersionAt(d.objectId, d.version), ObjectAt(d.objectId), QueryAt(TableOf(d.cls), d.objectId)}
  }

  function MintSpots(deks: map<Scope, Dek>, d: Draft): set<Spot> {
    if Mints(deks, d) then {DekAt(DekScope(d.cls, d.objectId))} else {}
  }

  /** The rows one record change writes. */
  function DraftSpots(p: Pack, tx: TxId, db: Db, d: Draft): set<Spot> {
    HeadSpots(d) + KeySpots(p, tx, db.rec.objects, d) + MintSpots(db.deks, d)
  }

  lemma MintOnce(tx: TxId, deks: map<Scope, Dek>, w: WriteCtx, d: Draft)
    requires EnsureFor(deks, w, d).Ok?
    ensures OncePerSpot(tx, EnsureFor(deks, w, d).value.mint) && Spots(tx, EnsureFor(deks, w, d).value.mint) <= MintSpots(deks, d)
  {
  }

  lemma KeyOpsOnce(p: Pack, tx: TxId, pre: map<Id, ObjectRow>, d: Draft, at: int)
    requires Unforeseen(pre, tx)
    ensures
      var ops := KeyOps(PreviousKey(pre, d.objectId), d.cls, d.objectId, GivenKey(p, d), at);
      OncePerSpot(tx, ops) && Spots(tx, ops) <= KeySpots(p, tx, pre, d)
  {
  }

  lemma HeadOnce(p: Pack, tx: TxId, w: WriteCtx, d: Draft, key: Key)
    ensures
      var last := [Rec(ProjectionOp(p, d.cls, d.objectId, d.status, w.at, Clear(d.cls.pii, d.payload)))];
      && OncePerSpot(tx, HeadOps(p, w, d, key)) && OncePerSpot(tx, last) && Spots(tx, last) == {QueryAt(TableOf(d.cls), d.objectId)}
      && Spots(tx, HeadOps(p, w, d, key)) == {VersionAt(d.objectId, d.version), ObjectAt(d.objectId)}
  {
    var head := HeadOps(p, w, d, key);
    var last := [Rec(ProjectionOp(p, d.cls, d.objectId, d.status, w.at, Clear(d.cls.pii, d.payload)))];
    assert head[0] in head && head[1] in head && last[0] in last;
  }

  /** The key, the version and the head. */
  lemma FrontOnce(p: Pack, tx: TxId, db: Db, w: WriteCtx, d: Draft)
    requires EnsureFor(db.deks, w, d).Ok?
    ensures
      var e := EnsureFor(db.deks, w, d).value;
      var ops := e.mint + HeadOps(p, w, d, e.key);
      && OncePerSpot(tx, ops)
      && Spots(tx, ops) <= MintSpots(db.deks, d) + {VersionAt(d.objectId, d.version), ObjectAt(d.objectId)}
  {
    var e := EnsureFor(db.deks, w, d).value;
    MintOnce(tx, db.deks, w, d);
    HeadOnce(p, tx, w, d, e.key);
    OnceConcat(tx, e.mint, HeadOps(p, w, d, e.key));
  }

  lemma RecordOnce(p: Pack, tx: TxId, db: Db, w: WriteCtx, d: Draft)
    requires Unforeseen(db.rec.objects, tx)
    requires BuildRecord(p, db, w, d).Ok?
    ensures OncePerSpot(tx, BuildRecord(p, db, w, d).value)
    ensures Spots(tx, BuildRecord(p, db, w, d).value) <= DraftSpots(p, tx, db, d)
  {
    BuiltParts(p, db, w, d);
    var e := EnsureFor(db.deks, w, d).value;
    var head := HeadOps(p, w, d, e.key);
    var keys := KeyOps(PreviousKey(db.rec.objects, d.objectId), d.cls, d.objectId, GivenKey(p, d), w.at);
    var last := [Rec(ProjectionOp(p, d.cls, d.objectId, d.status, w.at, Clear(d.cls.pii, d.payload)))];
    FrontOnce(p, tx, db, w, d);
    KeyOpsOnce(p, tx, db.rec.objects, d, w.at);
    HeadOnce(p, tx, w, d, e.key);
    OnceConcat(tx, e.mint + head, keys);
    OnceConcat(tx, e.mint + head + keys, last);
    assert RecordOps(p, db.rec.objects, w, d, e) == e.mint + head + keys + last;
  }

  ghost predicate Apart(p: Pack, tx: TxId, db: Db, drafts: seq<Draft>) {
    forall i, j :: 0 <= i < j < |drafts| ==> DraftSpots(p, tx, db, drafts[i]) !! DraftSpots(p, tx, db, drafts[j])
  }

  ghost predicate OfDrafts(p: Pack, tx: TxId, db: Db, drafts: seq<Draft>, s: Spot) {
    exists i :: 0 <= i < |drafts| && s in DraftSpots(p, tx, db, drafts[i])
  }

  lemma {:induction false} BatchOnce(p: Pack, tx: TxId, db: Db, w: WriteCtx, drafts: seq<Draft>)
    requires Unforeseen(db.rec.objects, tx)
    requires BuildAll(p, db, w, drafts).Ok? && Apart(p, tx, db, drafts)
    ensures OncePerSpot(tx, BuildAll(p, db, w, drafts).value)
    ensures forall s :: s in Spots(tx, BuildAll(p, db, w, drafts).value) ==> OfDrafts(p, tx, db, drafts, s)
    decreases |drafts|
  {
    if drafts != [] {
      var d, rest := drafts[0], drafts[1..];
      forall i | 0 <= i < |rest|
        ensures rest[i] == drafts[i + 1] && DraftSpots(p, tx, db, d) !! DraftSpots(p, tx, db, rest[i])
      {
      }
      RecordOnce(p, tx, db, w, d);
      BatchOnce(p, tx, db, After(w, d), rest);
      var a, b := BuildRecord(p, db, w, d).value, BuildAll(p, db, After(w, d), rest).value;
      OnceConcat(tx, a, b);
      forall s | s in Spots(tx, a + b)
        ensures OfDrafts(p, tx, db, drafts, s)
      {
        if s in Spots(tx, b) {
          var i :| 0 <= i < |rest| && s in DraftSpots(p, tx, db, rest[i]);
          assert s in DraftSpots(p, tx, db, drafts[i + 1]);
        } else {
          assert s in DraftSpots(p, tx, db, drafts[0]);
        }
      }
    }
  }

  /** Two changes of distinct objects in one landed set never write one entry of the index. */
  lemma KeysApart(p: Pack, db: Db, tx: TxId, at: int, drafts: seq<Draft>, i: nat, j: nat)
    requires Unforeseen(db.rec.objects, tx)
    requires i < j < |drafts| && Distinct(drafts) && KeysUnique(db.rec.objects)
    requires Classed(p, db.rec.objects, drafts) && AllFree(p, db.rec.objects, drafts)
    requires Admitted(p, db.rec.objects, tx, at, drafts)
    ensures KeySpots(p, tx, db.rec.objects, drafts[i]) !! KeySpots(p, tx, db.rec.objects, drafts[j])
  {
    var a, b, pre := drafts[i], drafts[j], db.rec.objects;
    assert LastOnObject(drafts, i);
    NobodyAfter(p, pre, tx, at, drafts, i, j);
    if a.cls.naturalKey != "" && b.cls.naturalKey != "" && a.cls.name == b.cls.name {
      if b.objectId in pre {
        NotTheirs(p, pre, tx, drafts, i, b.objectId);
      }
      if a.objectId in pre {
        NotTheirs(p, pre, tx, drafts, j, a.objectId);
        assert b.objectId in pre ==> !SameKey(pre[a.objectId], pre[b.objectId]);
      }
    }
  }

  lemma DraftsApart(p: Pack, tx: TxId, db: Db, a: Draft, b: Draft)
    requires a.objectId != b.objectId && !MintTogether(db.deks, a, b)
    requires KeySpots(p, tx, db.rec.objects, a) !! KeySpots(p, tx, db.rec.objects, b)
    ensures DraftSpots(p, tx, db, a) !! DraftSpots(p, tx, db, b)
  {
    assert HeadSpots(a) !! HeadSpots(b) && MintSpots(db.deks, a) !! MintSpots(db.deks, b);
    KindsApart(p, tx, db, a, b);
    KindsApart(p, tx, db, b, a);
  }

  /** Index entries, keys and rows of records are different rows. */
  lemma KindsApart(p: Pack, tx: TxId, db: Db, a: Draft, b: Draft)
    ensures HeadSpots(a) !! KeySpots(p, tx, db.rec.objects, b) && HeadSpots(a) !! MintSpots(db.deks, b)
    ensures KeySpots(p, tx, db.rec.objects, a) !! MintSpots(db.deks, b)
  {
  }

  lemma SoundApart(p: Pack, db: Db, tx: TxId, w: WriteCtx, drafts: seq<Draft>)
    requires Unforeseen(db.rec.objects, tx)
    requires RecordsOk(p, db.rec, db.deks) && DraftsProper(p, db, drafts) && SoundDrafts(p, db, drafts)
    requires BuildAll(p, db, w, drafts).Ok? && Apply(db, tx, BuildAll(p, db, w, drafts).value).Some?
    ensures Apart(p, tx, db, drafts)
  {
    IndexLands(p, db, db, tx, w, drafts);
    forall i, j | 0 <= i < j < |drafts|
      ensures DraftSpots(p, tx, db, drafts[i]) !! DraftSpots(p, tx, db, drafts[j])
    {
      KeysApart(p, db, tx, w.at, drafts, i, j);
      DraftsApart(p, tx, db, drafts[i], drafts[j]);
    }
  }

  predicate OfRecords(s: Spot) {
    !s.TaskAt? && (s.DekAt? ==> ForRecords(s.scope))
  }

  lemma DraftSpotKinds(p: Pack, tx: TxId, db: Db, d: Draft, s: Spot)
    requires s in DraftSpots(p, tx, db, d)
    ensures OfRecords(s)
  {
    assert s in HeadSpots(d) || s in KeySpots(p, tx, db.rec.objects, d) || s in MintSpots(db.deks, d);
  }

  /** A landed batch of sound changes writes no row twice, and no proposal's. */
  lemma SoundBatchOnce(p: Pack, db: Db, tx: TxId, w: WriteCtx, drafts: seq<Draft>)
    requires Unforeseen(db.rec.objects, tx)
    requires RecordsOk(p, db.rec, db.deks) && DraftsProper(p, db, drafts) && SoundDrafts(p, db, drafts)
    requires BuildAll(p, db, w, drafts).Ok? && Apply(db, tx, BuildAll(p, db, w, drafts).value).Some?
    ensures OncePerSpot(tx, BuildAll(p, db, w, drafts).value)
    ensures forall s :: s in Spots(tx, BuildAll(p, db, w, drafts).value) ==> OfRecords(s)
  {
    SoundApart(p, db, tx, w, drafts);
    BatchOnce(p, tx, db, w, drafts);
    forall s | s in Spots(tx, BuildAll(p, db, w, drafts).value)
      ensures OfRecords(s)
    {
      var i :| 0 <= i < |drafts| && s in DraftSpots(p, tx, db, drafts[i]);
      DraftSpotKinds(p, tx, db, drafts[i], s);
    }
  }

  lemma OneOnce(tx: TxId, op: Op)
    ensures OncePerSpot(tx, [op]) && Spots(tx, [op]) == {SpotOf(tx, op)}
  {
    assert op in [op];
  }

  lemma TwoOnce(tx: TxId, a: Op, b: Op)
    requires SpotOf(tx, a) != SpotOf(tx, b)
    ensures OncePerSpot(tx, [a, b]) && Spots(tx, [a, b]) == {SpotOf(tx, a), SpotOf(tx, b)}
  {
    assert a in [a, b] && b in [a, b];
  }

  /** A move and the end of the proposal's key. */
  lemma CloseOnce(tx: TxId, deks: map<Scope, Dek>, taskId: Id, change: TaskChange, at: int)
    ensures
      var ops := [MoveTask(taskId, change)] + CloseProposal(deks, taskId, at);
      OncePerSpot(tx, ops) && Spots(tx, ops) <= {TaskAt(taskId), DekAt(TaskKey(taskId))}
  {
    var move := MoveTask(taskId, change);
    OneOnce(tx, move);
    if CloseProposal(deks, taskId, at) == [] {
      assert [move] + [] == [move];
    } else {
      TwoOnce(tx, move, DestroyKey(TaskKey(taskId), at));
      assert [move] + CloseProposal(deks, taskId, at) == [move, DestroyKey(TaskKey(taskId), at)];
    }
  }

  lemma ForgetOnce(tx: TxId, db: Db, id: Id, at: int)
    ensures OncePerSpot(tx, ForgetOps(db, id, at))
    ensures forall s :: s in Spots(tx, ForgetOps(db, id, at)) ==> s.DekAt? || s.RecipientAt?
  {
    if ForgetOps(db, id, at) != [] {
      TwoOnce(tx, ForgetOps(db, id, at)[0], ForgetOps(db, id, at)[1]);
    }
  }

  /** A batch and what follows it about a proposal. */
  lemma BatchThenOnce(p: Pack, db: Db, tx: TxId, w: WriteCtx, drafts: seq<Draft>, tail: seq<Op>, taskId: Id)
    requires Unforeseen(db.rec.objects, tx)
    requires RecordsOk(p, db.rec, db.deks) && DraftsProper(p, db, drafts) && SoundDrafts(p, db, drafts)
    requires BuildAll(p, db, w, drafts).Ok? && Apply(db, tx, BuildAll(p, db, w, drafts).value + tail).Some?
    requires OncePerSpot(tx, tail) && Spots(tx, tail) <= {TaskAt(taskId), DekAt(TaskKey(taskId))}
    ensures OncePerSpot(tx, BuildAll(p, db, w, drafts).value + tail)
  {
    ApplyAppend(db, tx, BuildAll(p, db, w, drafts).value, tail);
    SoundBatchOnce(p, db, tx, w, drafts);
    OnceConcat(tx, BuildAll(p, db, w, drafts).value, tail);
  }

  lemma ApprovalOnce(p: Pack, tx: TxId, db: Db, who: Principal, wf: Workflow, taskId: Id, supply: seq<Minted>, c: Call, plan: Planned)
    requires PackSound(p) && Inv(p, db) && taskId in db.tasks && db.tasks[taskId].workflow in p.workflows
    requires p.workflows[db.tasks[taskId].workflow] == wf && FreshIds(db, supply)
    requires SoundDrafts(p, db, ApprovalDrafts(p, db, who, taskId, supply, CtxOf(c)))
    requires PlanApproval(p, db, who, wf, taskId, supply, c.message, CtxOf(c)) == Ok(plan)
    requires tx == TxOf(p, plan) && Unforeseen(db.rec.objects, tx) && Apply(db, tx, plan.ops).Some?
    ensures OncePerSpot(tx, plan.ops)
  {
    var s := ApprovalParts(p, db, who, wf, taskId, supply, c.message, CtxOf(c), plan);
    var ops := BuildAll(p, db, CtxOf(c), s.drafts).value;
    var tail := [ApproveMove(taskId, s.objectId, who, c.at)] + CloseProposal(db.deks, taskId, c.at);
    CloseOnce(tx, db.deks, taskId, TaskChange(Approved, c.at, None, Some(s.objectId), Some(who.sub)), c.at);
    ApprovalProper(p, db, who, wf, taskId, supply, CtxOf(c), s);
    BatchThenOnce(p, db, tx, CtxOf(c), s.drafts, tail, taskId);
  }

  lemma SeedOnce(p: Pack, tx: TxId, db: Db, c: Call, plan: Planned)
    requires PackSound(p) && Inv(p, db) && Sound(p, db, c) && c.act.Seed? && Plan(p, db, c) == Ok(plan)
    requires tx == TxOf(p, plan) && Unforeseen(db.rec.objects, tx) && Apply(db, tx, plan.ops).Some?
    ensures OncePerSpot(tx, plan.ops)
  {
    var a := c.act;
    CreateProper(p, db, p.classes[a.cls], a.payload, a.status, a.m);
    SoundBatchOnce(p, db, tx, CtxOf(c), SeedDrafts(p, a).value);
  }

  lemma {:induction false} PruneOnce(tx: TxId, policy: Policy, at: int, rows: seq<(Id, nat)>, i: nat)
    requires forall j, k :: 0 <= j < k < |rows| ==> rows[j] != rows[k]
    ensures OncePerSpot(tx, R.PruneOps(policy, at, rows, i))
    ensures forall s :: s in Spots(tx, R.PruneOps(policy, at, rows, i)) ==>
      (s.VersionAt? && (s.objectId, s.version) in rows) || (s.MarkAt? && s.idx >= i)
    decreases |rows|
  {
    if rows != [] {
      var rest := rows[1..];
      forall j | 0 <= j < |rest|
        ensures rest[j] == rows[j + 1] && rest[j] != rows[0]
      {
      }
      PruneOnce(tx, policy, at, rest, i + 1);
      var pair := R.PrunePair(policy, at, rows[0], i);
      assert Spots(tx, pair) == {VersionAt(rows[0].0, rows[0].1), MarkAt(i)} by {
        assert pair[0] in pair && pair[1] in pair;
      }
      OnceConcat(tx, pair, R.PruneOps(policy, at, rest, i + 1));
      assert forall k :: k in rest ==> k in rows;
    }
  }

  lemma ProposeOnce(p: Pack, tx: TxId, db: Db, c: Call, plan: Planned)
    requires c.act.Propose? && Plan(p, db, c) == Ok(plan)
    ensures OncePerSpot(tx, plan.ops)
  {
    var put := plan.ops[|plan.ops| - 1];
    OneOnce(tx, put);
    if |plan.ops| == 2 {
      TwoOnce(tx, plan.ops[0], put);
      assert plan.ops == [plan.ops[0], put];
    } else {
      assert plan.ops == [put];
    }
  }

  /** An answer, a withdrawal or a refusal. */
  lemma MovePlanOnce(p: Pack, tx: TxId, db: Db, c: Call, plan: Planned)
    requires c.act.Respond? || c.act.Withdraw? || (c.act.Decide? && !c.act.approve)
    requires Plan(p, db, c) == Ok(plan)
    ensures OncePerSpot(tx, plan.ops)
  {
    var t, change := c.act.taskId, plan.ops[0].change;
    CloseOnce(tx, db.deks, t, change, c.at);
    OneOnce(tx, plan.ops[0]);
    assert plan.ops == [MoveTask(t, change)] || plan.ops == [MoveTask(t, change)] + CloseProposal(db.deks, t, c.at);
  }

  lemma DecideOnce(p: Pack, tx: TxId, db: Db, c: Call, plan: Planned)
    requires PackSound(p) && Inv(p, db) && Sound(p, db, c) && Plan(p, db, c) == Ok(plan)
    requires c.act.Decide? && c.act.approve
    requires tx == TxOf(p, plan) && Unforeseen(db.rec.objects, tx) && Apply(db, tx, plan.ops).Some?
    ensures OncePerSpot(tx, plan.ops)
  {
    var a := c.act;
    DecisionGuards(p, db, a.who, a.taskId, true, a.supply, c.message, CtxOf(c), plan);
    ApprovalOnce(p, tx, db, a.who, p.workflows[db.tasks[a.taskId].workflow], a.taskId, a.supply, c, plan);
  }

  lemma PolicyOnce(p: Pack, tx: TxId, db: Db, c: Call, plan: Planned)
    requires PackSound(p) && Inv(p, db) && Sound(p, db, c) && Plan(p, db, c) == Ok(plan)
    requires c.act.PolicyApproval?
    requires tx == TxOf(p, plan) && Unforeseen(db.rec.objects, tx) && Apply(db, tx, plan.ops).Some?
    ensures OncePerSpot(tx, plan.ops)
  {
    var a := c.act;
    ApprovalOnce(p, tx, db, PolicyPrincipal(), p.workflows[db.tasks[a.taskId].workflow], a.taskId, a.supply, c, plan);
  }

  lemma TaskPlanOnce(p: Pack, tx: TxId, db: Db, c: Call, plan: Planned)
    requires PackSound(p) && Inv(p, db) && Sound(p, db, c) && AboutTasks(c.act) && Plan(p, db, c) == Ok(plan)
    requires tx == TxOf(p, plan) && Unforeseen(db.rec.objects, tx) && Apply(db, tx, plan.ops).Some?
    ensures OncePerSpot(tx, plan.ops)
  {
    var a := c.act;
    if a.Propose? {
      ProposeOnce(p, tx, db, c, plan);
    } else if a.PolicyApproval? {
      PolicyOnce(p, tx, db, c, plan);
    } else if a.Decide? && a.approve {
      DecideOnce(p, tx, db, c, plan);
    } else {
      MovePlanOnce(p, tx, db, c, plan);
    }
  }

  lemma SealOnce(tx: TxId, deks: map<Scope, Dek>, w: WriteCtx, id: Id, recipient: Option<Payload>, minted: Key)
    requires SealRecipient(deks, w, id, recipient, minted).Ok?
    ensures
      var ops := SealRecipient(deks, w, id, recipient, minted).value;
      OncePerSpot(tx, ops) && forall s :: s in Spots(tx, ops) ==> s.DekAt? || s.RecipientAt?
  {
    var ops := SealRecipient(deks, w, id, recipient, minted).value;
    if |ops| == 1 {
      OneOnce(tx, ops[0]);
      assert ops == [ops[0]];
    } else if |ops| == 2 {
      TwoOnce(tx, ops[0], ops[1]);
      assert ops == [ops[0], ops[1]];
    }
  }

  lemma InviteOnce(p: Pack, tx: TxId, db: Db, c: Call, plan: Planned)
    requires c.act.Invite? && Plan(p, db, c) == Ok(plan)
    ensures OncePerSpot(tx, plan.ops)
  {
    var a := c.act;
    SealOnce(tx, db.deks, CtxOf(c), a.id, a.recipient, a.minted);
    var more := SealRecipient(db.deks, CtxOf(c), a.id, a.recipient, a.minted).value;
    assert plan.ops == [plan.ops[0]] + more;
    OneOnce(tx, plan.ops[0]);
    OnceConcat(tx, [plan.ops[0]], more);
  }

  lemma RedeemOnce(p: Pack, tx: TxId, db: Db, c: Call, plan: Planned)
    requires c.act.Redeem? && Plan(p, db, c) == Ok(plan)
    ensures OncePerSpot(tx, plan.ops)
  {
    var forget := ForgetOps(db, c.act.id, c.at);
    var first := [plan.ops[0], plan.ops[1]];
    assert plan.ops == first + forget;
    TwoOnce(tx, plan.ops[0], plan.ops[1]);
    ForgetOnce(tx, db, c.act.id, c.at);
    OnceConcat(tx, first, forget);
  }

  lemma WithdrawInviteOnce(p: Pack, tx: TxId, db: Db, c: Call, plan: Planned)
    requires c.act.WithdrawInvitation? && Plan(p, db, c) == Ok(plan)
    ensures OncePerSpot(tx, plan.ops)
  {
    var forget := ForgetOps(db, c.act.id, c.at);
    assert plan.ops == [plan.ops[0]] + forget;
    OneOnce(tx, plan.ops[0]);
    ForgetOnce(tx, db, c.act.id, c.at);
    OnceConcat(tx, [plan.ops[0]], forget);
  }

  lemma SeeOnce(p: Pack, tx: TxId, db: Db, c: Call, plan: Planned)
    requires c.act.SeeIdentity? && Plan(p, db, c) == Ok(plan)
    ensures OncePerSpot(tx, plan.ops)
  {
    var put := plan.ops[|plan.ops| - 1];
    if |plan.ops| == 2 {
      TwoOnce(tx, plan.ops[0], put);
      assert plan.ops == [plan.ops[0], put];
    } else {
      OneOnce(tx, put);
      assert plan.ops == [put];
    }
  }

  lemma PeoplePlanOnce(p: Pack, tx: TxId, db: Db, c: Call, plan: Planned)
    requires AboutPeople(c.act) && Plan(p, db, c) == Ok(plan)
    ensures OncePerSpot(tx, plan.ops)
  {
    var a := c.act;
    if a.Invite? {
      InviteOnce(p, tx, db, c, plan);
    } else if a.Redeem? {
      RedeemOnce(p, tx, db, c, plan);
    } else if a.WithdrawInvitation? {
      WithdrawInviteOnce(p, tx, db, c, plan);
    } else if a.Expire? {
      ForgetOnce(tx, db, a.id, c.at);
    } else if a.SeeIdentity? {
      SeeOnce(p, tx, db, c, plan);
    } else if a.EraseProfile? {
      TwoOnce(tx, plan.ops[0], plan.ops[1]);
      assert plan.ops == [plan.ops[0], plan.ops[1]];
    } else {
      assert plan.ops == [plan.ops[0]];
    }
  }

  /** No sound call writes a row twice. */
  lemma PlanOnce(p: Pack, tx: TxId, db: Db, c: Call, plan: Planned)
    requires PackSound(p) && Inv(p, db) && Sound(p, db, c) && Plan(p, db, c) == Ok(plan)
    requires tx == TxOf(p, plan) && Unforeseen(db.rec.objects, tx) && Apply(db, tx, plan.ops).Some?
    ensures OncePerSpot(tx, plan.ops)
  {
    if AboutTasks(c.act) {
      TaskPlanOnce(p, tx, db, c, plan);
    } else if AboutPeople(c.act) {
      PeoplePlanOnce(p, tx, db, c, plan);
    } else if c.act.Seed? {
      SeedOnce(p, tx, db, c, plan);
    } else if c.act.Prune? {
      PruneOnce(tx, p.policies[c.act.policyId], c.at, c.act.rows, 0);
    } else {
      EraseOnce(p, tx, db, c, plan);
    }
  }

  lemma EraseOnce(p: Pack, tx: TxId, db: Db, c: Call, plan: Planned)
    requires c.act.Erase? && Plan(p, db, c) == Ok(plan)
    ensures OncePerSpot(tx, plan.ops)
  {
    assert plan.ops == [plan.ops[0], plan.ops[1], plan.ops[2]];
  }

  /**
   Whatever a sound call commits can be replayed: from the state any part of its write set leaves,
   applying all of it ends where applying it once ends. No record was given the id of the call's
   transaction for its key before there was one.
   */
  lemma SoundCallsReplay(p: Pack, calls: seq<Call>, c: Call, n: nat)
    requires PackSound(p) && SoundRun(p, Blank(), calls) && Sound(p, Run(p, Blank(), calls), c)
    requires Plan(p, Run(p, Blank(), calls), c).Ok?
    requires
      var db, plan := Run(p, Blank(), calls), Plan(p, Run(p, Blank(), calls), c).value;
      && Apply(db, TxOf(p, plan), plan.ops).Some? && n <= |plan.ops|
      && Unforeseen(db.rec.objects, TxOf(p, plan))
    ensures
      var db, plan := Run(p, Blank(), calls), Plan(p, Run(p, Blank(), calls), c).value;
      ReplaysAfter(db, TxOf(p, plan), plan.ops, n)
  {
    var db := Run(p, Blank(), calls);
    var plan := Plan(p, db, c).value;
    ReachableInv(p, calls);
    PlanOnce(p, TxOf(p, plan), db, c, plan);
    OncePerSpotReplays(db, TxOf(p, plan), plan.ops, n);
  }
}
