/**
 Runs from the empty register in which what a write set relies on does not hold: each one commits, and
 each one loses something.
 */
module Witnesses {
  import opened Outcomes
  import opened Tables
  import opened Packs
  import opened RecordBuild
  import opened RecordInvariant
  import opened RecordSafety
  import opened Batch
  import opened BatchLimits
  import opened IndexLimits
  import opened ReadBack
  import opened Workflows
  import opened Membership
  import opened MembershipSafety
  import opened Runs
  import opened RunSafety
  import opened Retries
  import opened Yards
  import Canon

  // ---- the state an approval is taken in --------------------------------------------------

  function OneSeeded(o: Id, key: Key, plate: Settled, next: Settled, t: Id, at: int): seq<Call> {
    [SeedCall(o, key, plate, at), ProposeCall(o, next, t, at)]
  }

  function TwoSeeded(o: Id, plate: Settled, q: Id, other: Settled, key: Key, next: Settled, t: Id, at: int): seq<Call> {
    [SeedCall(o, key, plate, at), SeedCall(q, key, other, at), ProposeCall(o, next, t, at)]
  }

  /** What holds when a proposal about seeded records is waiting. */
  ghost predicate Ready(db: Db, o: Id, next: Settled, t: Id, at: int) {
    && DeksOk(db.deks) && KeyReady(db.deks) && TaskKey(t) !in db.deks
    && t in db.tasks && db.tasks[t] == ProposedRow(o, next, at)
    && (forall s :: NoneOf(db.log, TaskApprove, s))
  }

  /** Records seeded, and no proposal yet. */
  ghost predicate Seeded(db: Db) {
    && DeksOk(db.deks) && KeyReady(db.deks) && db.tasks == map[] && (forall t :: TaskKey(t) !in db.deks)
    && (forall s :: NoneOf(db.log, TaskApprove, s) && NoneOf(db.log, TaskPropose, s))
  }

  lemma BlankSeeded()
    ensures Seeded(Blank())
  {
  }

  lemma NoneStill(log: seq<TxId>, now: seq<TxId>, kind: Kind, subject: string)
    requires NoneOf(log, kind, subject) && |now| == |log| + 1 && now[..|log|] == log
    requires !(now[|log|].env.kind == kind && now[|log|].env.subject == subject)
    ensures NoneOf(now, kind, subject)
  {
    forall i | 0 <= i < |now|
      ensures !(now[i].env.kind == kind && now[i].env.subject == subject)
    {
      assert i < |log| ==> now[i] == log[i];
    }
  }

  lemma SeedAnother(action: ActionKind, effects: seq<Effect>, db: Db, o: Id, key: Key, plate: Settled, at: int)
    requires Seeded(db) && o !in db.rec.objects && !Taken(db.rec.objects, "car", plate, o) && NoneOf(db.log, RecordCreate, o)
    ensures Seeded(Step(Yard(action, effects), db, SeedCall(o, key, plate, at)))
  {
    YardSeed(action, effects, db, o, key, plate, at);
    var next := Step(Yard(action, effects), db, SeedCall(o, key, plate, at));
    forall s
      ensures NoneOf(next.log, TaskApprove, s) && NoneOf(next.log, TaskPropose, s)
    {
      NoneStill(db.log, next.log, TaskApprove, s);
      NoneStill(db.log, next.log, TaskPropose, s);
    }
  }

  /** A proposal about a seeded record waits for approval, and the records are as they were. */
  lemma ReadyAfter(action: ActionKind, effects: seq<Effect>, db: Db, o: Id, next: Settled, t: Id, at: int)
    requires Seeded(db) && !action.CreateAction? && o != "" && o in db.rec.objects && db.rec.objects[o].cls == "car"
    ensures
      var after := Step(Yard(action, effects), db, ProposeCall(o, next, t, at));
      && Ready(after, o, next, t, at) && after.rec == db.rec && after.deks == db.deks
      && (forall q, x {:trigger Fresh(db, q, x)} :: Fresh(db, q, x) ==> Fresh(after, q, x))
  {
    YardPropose(action, effects, db, o, next, t, at);
    var after := Step(Yard(action, effects), db, ProposeCall(o, next, t, at));
    forall s
      ensures NoneOf(after.log, TaskApprove, s)
    {
      NoneStill(db.log, after.log, TaskApprove, s);
    }
  }

  /** A record seeded and a proposal about it. */
  lemma OneReady(action: ActionKind, effects: seq<Effect>, o: Id, key: Key, plate: Settled, next: Settled, t: Id, at: int)
    returns (db: Db)
    requires o != "" && !action.CreateAction?
    ensures db == Run(Yard(action, effects), Blank(), OneSeeded(o, key, plate, next, t, at))
    ensures Ready(db, o, next, t, at) && Fresh(db, o, plate)
    ensures db.rec.objects == map[o := db.rec.objects[o]] && db.rec.keys == map[("car", plate) := KeyRow(o, at)]
  {
    var p := Yard(action, effects);
    YardSeed(action, effects, Blank(), o, key, plate, at);
    BlankSeeded();
    SeedAnother(action, effects, Blank(), o, key, plate, at);
    var seeded := Step(p, Blank(), SeedCall(o, key, plate, at));
    ReadyAfter(action, effects, seeded, o, next, t, at);
    RunTwo(p, Blank(), SeedCall(o, key, plate, at), ProposeCall(o, next, t, at));
    db := Step(p, seeded, ProposeCall(o, next, t, at));
  }

  lemma SeedSound(action: ActionKind, effects: seq<Effect>, db: Db, o: Id, key: Key, plate: Settled, at: int)
    requires o !in db.rec.objects && plate != "" && at > 0
    ensures Sound(Yard(action, effects), db, SeedCall(o, key, plate, at))
  {
    SeedDraftIs(action, effects, o, key, plate, at);
    PlateFacts(action, effects, o, plate);
  }

  lemma ProposeSound(action: ActionKind, effects: seq<Effect>, db: Db, o: Id, next: Settled, t: Id, at: int)
    requires t !in db.tasks && at > 0
    ensures Sound(Yard(action, effects), db, ProposeCall(o, next, t, at))
  {
    assert |Clerk().sub| == 3;
  }

  /** The calls before the approval are sound, so the tables agree in the state it is taken in. */
  lemma OneSound(action: ActionKind, effects: seq<Effect>, o: Id, key: Key, plate: Settled, next: Settled, t: Id, at: int)
    requires o != "" && plate != "" && at > 0 && !action.CreateAction?
    requires forall i :: 0 <= i < |effects| ==> ClassNames(effects[i]) <= {"car"}
    ensures PackSound(Yard(action, effects))
    ensures SoundRun(Yard(action, effects), Blank(), OneSeeded(o, key, plate, next, t, at))
  {
    var p := Yard(action, effects);
    YardSound(action, effects);
    SeedSound(action, effects, Blank(), o, key, plate, at);
    YardSeed(action, effects, Blank(), o, key, plate, at);
    ProposeSound(action, effects, Step(p, Blank(), SeedCall(o, key, plate, at)), o, next, t, at);
    RunTwo(p, Blank(), SeedCall(o, key, plate, at), ProposeCall(o, next, t, at));
  }

  /** What the register reads of a fresh record. */
  lemma FreshHead(action: ActionKind, effects: seq<Effect>, db: Db, o: Id, plate: Settled)
    requires RecordsOk(Yard(action, effects), db.rec, db.deks) && Fresh(db, o, plate)
    requires PackSound(Yard(action, effects))
    ensures HeadVersion(db, o) == Ok(("new", Plate(plate)))
  {
    HeadReads(Yard(action, effects), db, o);
  }

  /** The state a proposal about one seeded record is approved in. */
  lemma OneReached(
    action: ActionKind, effects: seq<Effect>, o: Id, key: Key, plate: Settled, next: Settled, t: Id, at: int)
    returns (db: Db)
    requires o != "" && plate != "" && at > 0 && !action.CreateAction?
    requires forall i :: 0 <= i < |effects| ==> ClassNames(effects[i]) <= {"car"}
    ensures db == Run(Yard(action, effects), Blank(), OneSeeded(o, key, plate, next, t, at))
    ensures Ready(db, o, next, t, at) && Fresh(db, o, plate) && db.rec.objects == map[o := db.rec.objects[o]]
    ensures HeadVersion(db, o) == Ok(("new", Plate(plate)))
    ensures KeysAgree(Yard(action, effects), db.rec.objects, db.rec.keys)
  {
    db := OneReady(action, effects, o, key, plate, next, t, at);
    OneSound(action, effects, o, key, plate, next, t, at);
    ReachableInv(Yard(action, effects), OneSeeded(o, key, plate, next, t, at));
    FreshHead(action, effects, db, o, plate);
  }

  /** What the random source hands two effects that create nothing. */
  function Supply(k: Key, l: Key): seq<Minted> {
    [Minted("", k), Minted("", l)]
  }

  // ---- two things said about one record ------------------------------------------------------

  /** A change of status, and another in the same write set. */
  function TwoStatuses(): seq<Effect> {
    [RecordEffect, SetStatusEffect("", "", "sold", false)]
  }

  function StatusDrafts(o: Id, plate: Settled, k: Key, l: Key): seq<Draft> {
    [Draft(Car(), o, 2, "used", Plate(plate), k), Draft(Car(), o, 2, "sold", Plate(plate), l)]
  }

  lemma StatusEffects(db: Db, o: Id, plate: Settled, k: Key, l: Key)
    requires Fresh(db, o, plate) && o != "" && HeadVersion(db, o) == Ok(("new", Plate(plate)))
    ensures
      JobEffects(StatusAction, TwoStatuses(), db, o, plate, Supply(k, l)) ==
      Ok(Progress(StatusDrafts(o, plate, k, l), o, map[]))
  {
    var p, wf := Yard(StatusAction, TwoStatuses()), Job(StatusAction, TwoStatuses());
    var supply := Supply(k, l);
    var drafts := StatusDrafts(o, plate, k, l);
    assert "new"[0] != "used"[0] && "new"[0] != "sold"[0];
    assert Car().statuses[1] == "used" && Car().statuses[2] == "sold";
    assert StatusDraft(db, Car(), o, "used", supply[0]) == Ok(Some(drafts[0]));
    assert StatusDraft(db, Car(), o, "sold", supply[1]) == Ok(Some(drafts[1]));
    var s0 := Progress([], o, map[]);
    var s1 := Progress([drafts[0]], o, map[]);
    assert [] + [drafts[0]] == [drafts[0]] && [drafts[0]] + [drafts[1]] == drafts;
    assert Effected(p, db, wf, TwoStatuses()[0], Plate(plate), supply[0], s0) == Ok(s1);
    assert Effected(p, db, wf, TwoStatuses()[1], Plate(plate), supply[1], s1) == Ok(Progress(drafts, o, map[]));
    TwoEffects(p, db, wf, TwoStatuses(), Plate(plate), supply, s0, s1);
  }

  lemma TwoEffects(
    p: Pack, db: Db, wf: Workflow, effects: seq<Effect>, payload: Payload, minted: seq<Minted>, s: Progress, s1: Progress)
    requires |effects| == 2 && |minted| == 2 && Effected(p, db, wf, effects[0], payload, minted[0], s) == Ok(s1)
    requires Effected(p, db, wf, effects[1], payload, minted[1], s1).Ok?
    ensures AllEffects(p, db, wf, effects, payload, minted, s) == Effected(p, db, wf, effects[1], payload, minted[1], s1)
  {
    assert effects[1..] == [effects[1]] && minted[1..] == [minted[1]] && [effects[1]][1..] == [];
    var last := Effected(p, db, wf, effects[1], payload, minted[1], s1).value;
    assert AllEffects(p, db, wf, [], payload, [minted[1]][1..], last) == Ok(last);
    assert AllEffects(p, db, wf, [effects[1]], payload, [minted[1]], s1) == Ok(last);
  }

  /** What the approval of a waiting proposal does, when its changes address one record. */
  lemma OneRecordApproved(
    action: ActionKind, effects: seq<Effect>, db: Db, o: Id, plate: Settled, next: Settled, t: Id, at: int,
    supply: seq<Minted>, drafts: seq<Draft>) returns (tx: TxId)
    requires !action.CreateAction? && !action.CorrectAction? && o != ""
    requires Ready(db, o, next, t, at) && Fresh(db, o, plate) && db.rec.objects == map[o := db.rec.objects[o]]
    requires JobEffects(action, effects, db, o, next, supply) == Ok(Progress(drafts, o, map[]))
    requires |drafts| == 2 && forall i :: 0 <= i < |drafts| ==> drafts[i].cls == Car() && drafts[i].objectId == o && drafts[i].version == 2
    ensures
      var p, c := Yard(action, effects), ApproveCall(t, supply, at);
      && BuildAll(p, db, CtxOf(c), drafts).Ok?
      && ApprovalDrafts(p, db, PolicyPrincipal(), t, supply, CtxOf(c)) == drafts
      && (var mid := Apply(db, tx, BuildAll(p, db, CtxOf(c), drafts).value);
          && mid.Some? && Step(p, db, c).rec == mid.value.rec && Step(p, db, c).deks == mid.value.deks
          && t in Step(p, db, c).tasks && Step(p, db, c).tasks[t].state.Approved?)
  {
    var p := Yard(action, effects);
    forall i | 0 <= i < |drafts|
      ensures Buildable(p, db, drafts[i])
    {
    }
    forall tx
      ensures Admitted(p, db.rec.objects, tx, at, drafts)
    {
      OnlyOneObject(p, db.rec.objects, tx, at, drafts, o);
    }
    tx := YardApprove(action, effects, db, o, next, t, at, supply, Progress(drafts, o, map[]));
  }

  lemma {:induction false} OnlyOneObject(p: Pack, objects: map<Id, ObjectRow>, tx: TxId, at: int, drafts: seq<Draft>, o: Id)
    requires objects.Keys <= {o} && forall i :: 0 <= i < |drafts| ==> drafts[i].objectId == o
    ensures Admitted(p, objects, tx, at, drafts)
    decreases |drafts|
  {
    if drafts != [] {
      OnlyOneObject(p, objects[o := LandedObject(p, objects, tx, at, drafts[0])], tx, at, drafts[1..], o);
    }
  }

  /** The later of two changes to one version is the one on record. */
  lemma EarlierLost(p: Pack, db: Db, tx: TxId, w: WriteCtx, a: Draft, b: Draft)
    requires DeksOk(db.deks) && BuildAll(p, db, w, [a, b]).Ok? && Apply(db, tx, BuildAll(p, db, w, [a, b]).value).Some?
    requires a.objectId == b.objectId && a.version == b.version && a.status != b.status
    ensures !Stores(Apply(db, tx, BuildAll(p, db, w, [a, b]).value).value.rec.versions, a)
  {
    RawLands(p, db, db, tx, w, [a, b]);
    LastVersion(db.deks, db.rec.versions, tx, w, [a, b], 1);
  }

  /** The call has approved the proposal. */
  ghost predicate Approving(p: Pack, db: Db, t: Id, c: Call) {
    t in Step(p, db, c).tasks && Step(p, db, c).tasks[t].state.Approved?
  }

  lemma StatusLostFrom(db: Db, o: Id, plate: Settled, t: Id, at: int, k: Key, l: Key)
    requires o != "" && Ready(db, o, plate, t, at) && Fresh(db, o, plate) && db.rec.objects == map[o := db.rec.objects[o]]
    requires HeadVersion(db, o) == Ok(("new", Plate(plate)))
    ensures
      var p, c := Yard(StatusAction, TwoStatuses()), ApproveCall(t, Supply(k, l), at);
      && Approving(p, db, t, c)
      && ApprovalDrafts(p, db, PolicyPrincipal(), t, Supply(k, l), CtxOf(c)) == StatusDrafts(o, plate, k, l)
      && !Stores(Step(p, db, c).rec.versions, StatusDrafts(o, plate, k, l)[0])
  {
    var p, c := Yard(StatusAction, TwoStatuses()), ApproveCall(t, Supply(k, l), at);
    StatusEffects(db, o, plate, k, l);
    var drafts := StatusDrafts(o, plate, k, l);
    var tx := OneRecordApproved(StatusAction, TwoStatuses(), db, o, plate, plate, t, at, Supply(k, l), drafts);
    assert "used"[0] != "sold"[0];
    EarlierLost(p, db, tx, CtxOf(c), drafts[0], drafts[1]);
  }

  /**
   A record seeded, and a job that sets its status and sets it again: the proposal is approved, both
   changes were part of its one commit, and the first status is nowhere.
   */
  lemma StatusCanBeLost(o: Id, key: Key, plate: Settled, t: Id, at: int, k: Key, l: Key)
    requires o != "" && plate != "" && at > 0
    ensures
      var p, c := Yard(StatusAction, TwoStatuses()), ApproveCall(t, Supply(k, l), at);
      var db, drafts := Run(p, Blank(), OneSeeded(o, key, plate, plate, t, at)), StatusDrafts(o, plate, k, l);
      && Approving(p, db, t, c)
      && ApprovalDrafts(p, db, PolicyPrincipal(), t, Supply(k, l), CtxOf(c)) == drafts
      && Conflict(drafts[0], drafts[1]) && drafts[0].payload == drafts[1].payload
      && !Stores(Step(p, db, c).rec.versions, drafts[0])
  {
    var db := OneReached(StatusAction, TwoStatuses(), o, key, plate, plate, t, at);
    StatusLostFrom(db, o, plate, t, at, k, l);
    assert "used"[0] != "sold"[0];
  }

  // ---- a key an object only passed through --------------------------------------------------------

  /** An update, and a link closed on the same record with another key. */
  function TwoKeys(o: Id, third: Settled): seq<Effect> {
    [RecordEffect, CloseLinkEffect("car", o, third, "", false)]
  }

  function KeyDrafts(o: Id, second: Settled, third: Settled, k: Key, l: Key): seq<Draft> {
    [Draft(Car(), o, 2, "new", Plate(second), k), Draft(Car(), o, 2, "new", Plate(third), l)]
  }

  lemma UpdateEffect(effects: seq<Effect>, db: Db, o: Id, first: Settled, second: Settled, m: Minted)
    requires Fresh(db, o, first)
    ensures
      Effected(
        Yard(UpdateAction, effects), db, Job(UpdateAction, effects), RecordEffect, Plate(second), m, Progress([], o, map[])) ==
      Ok(Progress([Draft(Car(), o, 2, "new", Plate(second), m.key)], o, map[]))
  {
    assert Car().statuses[0] == "new";
    assert [] + [Draft(Car(), o, 2, "new", Plate(second), m.key)] == [Draft(Car(), o, 2, "new", Plate(second), m.key)];
  }

  lemma LinkEffect(
    effects: seq<Effect>, db: Db, o: Id, first: Settled, third: Settled, payload: Payload, m: Minted, s: Progress)
    requires Fresh(db, o, first) && HeadVersion(db, o) == Ok(("new", Plate(first)))
    ensures
      Effected(
        Yard(UpdateAction, effects), db, Job(UpdateAction, effects), CloseLinkEffect("car", o, third, "", false), payload, m, s) ==
      Ok(s.(drafts := s.drafts + [Draft(Car(), o, 2, "new", Plate(third), m.key)]))
  {
    assert Car().statuses[0] == "new";
    assert Plate(first) + Plate(third) == Plate(third);
  }

  lemma KeyEffects(db: Db, o: Id, first: Settled, second: Settled, third: Settled, k: Key, l: Key)
    requires Fresh(db, o, first) && HeadVersion(db, o) == Ok(("new", Plate(first)))
    ensures
      JobEffects(UpdateAction, TwoKeys(o, third), db, o, second, Supply(k, l)) ==
      Ok(Progress(KeyDrafts(o, second, third, k, l), o, map[]))
  {
    var effects, drafts := TwoKeys(o, third), KeyDrafts(o, second, third, k, l);
    var s1 := Progress([drafts[0]], o, map[]);
    UpdateEffect(effects, db, o, first, second, Supply(k, l)[0]);
    LinkEffect(effects, db, o, first, third, Plate(second), Supply(k, l)[1], s1);
    assert [drafts[0]] + [drafts[1]] == drafts;
    TwoEffects(
      Yard(UpdateAction, effects), db, Job(UpdateAction, effects), effects, Plate(second), Supply(k, l), Progress([], o, map[]), s1);
  }

  lemma PassedThrough(
    effects: seq<Effect>, pre: map<Id, ObjectRow>, tx: TxId, o: Id, second: Settled, third: Settled, k: Key, l: Key)
    requires o in pre && pre[o].cls == "car" && pre[o].naturalKey != second && second != third
    ensures
      var p, drafts := Yard(UpdateAction, effects), KeyDrafts(o, second, third, k, l);
      Classed(p, pre, drafts) && LeavesBehind(p, pre, tx, drafts, 0)
  {
    var p, drafts := Yard(UpdateAction, effects), KeyDrafts(o, second, third, k, l);
    PlateFacts(UpdateAction, effects, o, second);
    PlateFacts(UpdateAction, effects, o, third);
    assert drafts[1].objectId == drafts[0].objectId;
  }

  lemma KeyStale(db: Db, tx: TxId, o: Id, first: Settled, second: Settled, third: Settled, at: int, k: Key, l: Key)
    requires Fresh(db, o, first) && db.rec.objects == map[o := db.rec.objects[o]] && DeksOk(db.deks)
    requires KeysAgree(Yard(UpdateAction, TwoKeys(o, third)), db.rec.objects, db.rec.keys)
    requires first != second && second != third && first != tx.digest
    requires
      var p, w := Yard(UpdateAction, TwoKeys(o, third)), WriteCtx(at, false, map[]);
      var built := BuildAll(p, db, w, KeyDrafts(o, second, third, k, l));
      built.Ok? && Apply(db, tx, built.value).Some?
    ensures
      var p, w := Yard(UpdateAction, TwoKeys(o, third)), WriteCtx(at, false, map[]);
      var after := Apply(db, tx, BuildAll(p, db, w, KeyDrafts(o, second, third, k, l)).value).value;
      !KeysAgree(p, after.rec.objects, after.rec.keys)
  {
    var p, drafts := Yard(UpdateAction, TwoKeys(o, third)), KeyDrafts(o, second, third, k, l);
    PassedThrough(TwoKeys(o, third), db.rec.objects, tx, o, second, third, k, l);
    IndexAgreesExactly(p, db, tx, WriteCtx(at, false, map[]), drafts);
  }

  lemma KeyLeftFrom(db: Db, o: Id, first: Settled, second: Settled, third: Settled, t: Id, at: int, k: Key, l: Key)
    requires o != "" && Ready(db, o, second, t, at) && Fresh(db, o, first) && db.rec.objects == map[o := db.rec.objects[o]]
    requires HeadVersion(db, o) == Ok(("new", Plate(first)))
    requires KeysAgree(Yard(UpdateAction, TwoKeys(o, third)), db.rec.objects, db.rec.keys)
    requires first != second && second != third && |first| < 64
    ensures
      var p, c := Yard(UpdateAction, TwoKeys(o, third)), ApproveCall(t, Supply(k, l), at);
      && Approving(p, db, t, c)
      && ApprovalDrafts(p, db, PolicyPrincipal(), t, Supply(k, l), CtxOf(c)) == KeyDrafts(o, second, third, k, l)
      && !KeysAgree(p, Step(p, db, c).rec.objects, Step(p, db, c).rec.keys)
  {
    var effects, drafts := TwoKeys(o, third), KeyDrafts(o, second, third, k, l);
    KeyEffects(db, o, first, second, third, k, l);
    var tx := OneRecordApproved(UpdateAction, effects, db, o, first, second, t, at, Supply(k, l), drafts);
    KeyStale(db, tx, o, first, second, third, at, k, l);
  }

  /**
   A record seeded, and a job that gives it one key and then another: the proposal is approved, and the
   index still names the record for the key it only passed through.
   */
  lemma KeyCanBeLeftBehind(
    o: Id, key: Key, first: Settled, second: Settled, third: Settled, t: Id, at: int, k: Key, l: Key)
    requires o != "" && first != "" && at > 0 && first != second && second != third && |first| < 64
    ensures
      var p, c := Yard(UpdateAction, TwoKeys(o, third)), ApproveCall(t, Supply(k, l), at);
      var db := Run(p, Blank(), OneSeeded(o, key, first, second, t, at));
      && Approving(p, db, t, c)
      && ApprovalDrafts(p, db, PolicyPrincipal(), t, Supply(k, l), CtxOf(c)) == KeyDrafts(o, second, third, k, l)
      && !KeysAgree(p, Step(p, db, c).rec.objects, Step(p, db, c).rec.keys)
  {
    var effects := TwoKeys(o, third);
    var db := OneReached(UpdateAction, effects, o, key, first, second, t, at);
    KeyLeftFrom(db, o, first, second, third, t, at, k, l);
  }

  // ---- the empty key -------------------------------------------------------------------------------

  /** The record's own change and nothing else. */
  function OneChange(): seq<Effect> {
    [RecordEffect]
  }

  lemma OneEffect(db: Db, o: Id, first: Settled, second: Settled, m: Minted)
    requires Fresh(db, o, first)
    ensures
      JobEffects(UpdateAction, OneChange(), db, o, second, [m]) ==
      Ok(Progress([Draft(Car(), o, 2, "new", Plate(second), m.key)], o, map[]))
  {
    UpdateEffect(OneChange(), db, o, first, second, m);
    var s := Progress([Draft(Car(), o, 2, "new", Plate(second), m.key)], o, map[]);
    assert OneChange()[1..] == [] && [m][1..] == [];
    assert AllEffects(Yard(UpdateAction, OneChange()), db, Job(UpdateAction, OneChange()), [], Plate(second), [], s) == Ok(s);
  }

  function OneDraft(o: Id, second: Settled, m: Minted): seq<Draft> {
    [Draft(Car(), o, 2, "new", Plate(second), m.key)]
  }

  lemma OneApproved(db: Db, o: Id, first: Settled, second: Settled, t: Id, at: int, m: Minted) returns (tx: TxId)
    requires o != "" && Ready(db, o, second, t, at) && Fresh(db, o, first)
    requires db.rec.objects == map[o := db.rec.objects[o]]
    ensures
      var p, c := Yard(UpdateAction, OneChange()), ApproveCall(t, [m], at);
      && BuildAll(p, db, CtxOf(c), OneDraft(o, second, m)).Ok? && Approving(p, db, t, c)
      && (var mid := Apply(db, tx, BuildAll(p, db, CtxOf(c), OneDraft(o, second, m)).value);
          mid.Some? && Step(p, db, c).rec == mid.value.rec)
  {
    var drafts, p := OneDraft(o, second, m), Yard(UpdateAction, OneChange());
    OneEffect(db, o, first, second, m);
    assert Buildable(p, db, drafts[0]);
    forall tx
      ensures Admitted(p, db.rec.objects, tx, at, drafts)
    {
      OnlyOneObject(p, db.rec.objects, tx, at, drafts, o);
    }
    tx := YardApprove(UpdateAction, OneChange(), db, o, second, t, at, [m], Progress(drafts, o, map[]));
  }

  lemma EmptyStale(db: Db, tx: TxId, o: Id, second: Settled, at: int, m: Minted)
    requires second != "" && Fresh(db, o, "") && DeksOk(db.deks)
    requires db.rec.objects == map[o := db.rec.objects[o]] && db.rec.keys == map[("car", "") := KeyRow(o, at)]
    requires
      var built := BuildAll(Yard(UpdateAction, OneChange()), db, WriteCtx(at, false, map[]), OneDraft(o, second, m));
      built.Ok? && Apply(db, tx, built.value).Some?
    ensures
      var p := Yard(UpdateAction, OneChange());
      var after := Apply(db, tx, BuildAll(p, db, WriteCtx(at, false, map[]), OneDraft(o, second, m)).value).value;
      KeysAgree(p, db.rec.objects, db.rec.keys) && !KeysAgree(p, after.rec.objects, after.rec.keys)
  {
    var p, drafts := Yard(UpdateAction, OneChange()), OneDraft(o, second, m);
    PlateFacts(UpdateAction, OneChange(), o, second);
    assert LeavesEmpty(p, db.rec.objects, tx, drafts, 0);
    IndexAgreesExactly(p, db, tx, WriteCtx(at, false, map[]), drafts);
  }

  /** A record seeded under the empty key and then given another: the index names it for the empty key still. */
  lemma EmptyKeyCanStay(o: Id, key: Key, second: Settled, t: Id, at: int, m: Minted)
    requires o != "" && second != ""
    ensures
      var p, c := Yard(UpdateAction, OneChange()), ApproveCall(t, [m], at);
      var db := Run(p, Blank(), OneSeeded(o, key, "", second, t, at));
      && KeysAgree(p, db.rec.objects, db.rec.keys) && Approving(p, db, t, c)
      && !KeysAgree(p, Step(p, db, c).rec.objects, Step(p, db, c).rec.keys)
  {
    var db := OneReady(UpdateAction, OneChange(), o, key, "", second, t, at);
    var tx := OneApproved(db, o, "", second, t, at, m);
    EmptyStale(db, tx, o, second, at, m);
  }

  // ---- a key that was registered once --------------------------------------------------------------

  lemma KeyMoves(db: Db, tx: TxId, o: Id, first: Settled, second: Settled, at: int, m: Minted)
    requires Fresh(db, o, first) && DeksOk(db.deks) && first != "" && first != second
    requires
      var built := BuildAll(Yard(UpdateAction, OneChange()), db, WriteCtx(at, false, map[]), OneDraft(o, second, m));
      built.Ok? && Apply(db, tx, built.value).Some?
    ensures
      var p := Yard(UpdateAction, OneChange());
      var after := Apply(db, tx, BuildAll(p, db, WriteCtx(at, false, map[]), OneDraft(o, second, m)).value).value;
      ("car", first) !in after.rec.keys && ("car", second) in after.rec.keys
  {
    var p, w, drafts := Yard(UpdateAction, OneChange()), WriteCtx(at, false, map[]), OneDraft(o, second, m);
    PlateFacts(UpdateAction, OneChange(), o, second);
    IndexLands(p, db, db, tx, w, drafts);
    assert drafts[1..] == [];
    var keys := LandedKeys(db.rec.keys, PreviousKey(db.rec.objects, o), drafts[0], KeyOf(p, tx, drafts[0]), at);
    assert EntriesAfter(p, db.rec.objects, keys, tx, at, []) == keys;
  }

  /** A record is registered under a key and then given another: the first key is absent, though it was there. */
  lemma KeyCanBeRetired(o: Id, key: Key, first: Settled, second: Settled, t: Id, at: int, m: Minted)
    requires o != "" && first != "" && first != second
    ensures
      var p, c := Yard(UpdateAction, OneChange()), ApproveCall(t, [m], at);
      var db := Run(p, Blank(), OneSeeded(o, key, first, second, t, at));
      && ("car", first) in db.rec.keys && Approving(p, db, t, c)
      && ("car", first) !in Step(p, db, c).rec.keys && ("car", second) in Step(p, db, c).rec.keys
  {
    var db := OneReady(UpdateAction, OneChange(), o, key, first, second, t, at);
    var tx := OneApproved(db, o, first, second, t, at, m);
    KeyMoves(db, tx, o, first, second, at, m);
  }

  // ---- one key minted twice --------------------------------------------------------------------------

  /** Two new records, in a class whose records share a key. */
  function Twins(twin: Settled): seq<Effect> {
    [RecordEffect, CreateEffect("car", twin, "")]
  }

  function TwinDrafts(o: Id, first: Settled, k: Key, q: Id, twin: Settled, l: Key): seq<Draft> {
    [Draft(Car(), o, 1, "new", Plate(first), k), Draft(Car(), q, 1, "new", Plate(twin), l)]
  }

  function TwinsMade(o: Id, first: Settled, k: Key, q: Id, twin: Settled, l: Key): Progress {
    Progress(
      TwinDrafts(o, first, k, q, twin, l), o,
      map["object.id" := Canon.Str(o)]["created." + "car" + ".id" := Canon.Str(q)])
  }

  lemma TwinEffects(db: Db, o: Id, first: Settled, k: Key, q: Id, twin: Settled, l: Key)
    requires o != ""
    ensures
      JobEffects(CreateAction, Twins(twin), db, "", first, [Minted(o, k), Minted(q, l)]) ==
      Ok(TwinsMade(o, first, k, q, twin, l))
  {
    var p, wf, drafts := Yard(CreateAction, Twins(twin)), Job(CreateAction, Twins(twin)), TwinDrafts(o, first, k, q, twin, l);
    assert Car().statuses[0] == "new";
    var s1 := Progress([drafts[0]], o, map[]["object.id" := Canon.Str(o)]);
    assert [] + [drafts[0]] == [drafts[0]] && [drafts[0]] + [drafts[1]] == drafts;
    TwoEffects(p, db, wf, Twins(twin), Plate(first), [Minted(o, k), Minted(q, l)], Progress([], "", map[]), s1);
  }

  lemma TwinsApproved(db: Db, o: Id, first: Settled, k: Key, q: Id, twin: Settled, l: Key, t: Id, at: int) returns (tx: TxId)
    requires o != "" && o != q && first != twin && Ready(db, "", first, t, at) && db.rec == Blank().rec && db.deks == map[]
    ensures
      var p, c, drafts := Yard(CreateAction, Twins(twin)), ApproveCall(t, [Minted(o, k), Minted(q, l)], at), TwinDrafts(o, first, k, q, twin, l);
      && BuildAll(p, db, CtxOf(c), drafts).Ok?
      && ApprovalDrafts(p, db, PolicyPrincipal(), t, [Minted(o, k), Minted(q, l)], CtxOf(c)) == drafts
      && Approving(p, db, t, c)
      && (var mid := Apply(db, tx, BuildAll(p, db, CtxOf(c), drafts).value);
          mid.Some? && Step(p, db, c).rec == mid.value.rec && Step(p, db, c).deks == mid.value.deks)
  {
    var p, drafts := Yard(CreateAction, Twins(twin)), TwinDrafts(o, first, k, q, twin, l);
    TwinEffects(db, o, first, k, q, twin, l);
    PlateFacts(CreateAction, Twins(twin), o, first);
    PlateFacts(CreateAction, Twins(twin), q, twin);
    assert Buildable(p, db, drafts[0]) && Buildable(p, db, drafts[1]);
    forall tx
      ensures Admitted(p, db.rec.objects, tx, at, drafts)
    {
      var next := db.rec.objects[o := LandedObject(p, db.rec.objects, tx, at, drafts[0])];
      assert drafts[1..] == [drafts[1]] && drafts[1..][1..] == [];
      assert Admitted(p, next[q := LandedObject(p, next, tx, at, drafts[1])], tx, at, []);
      assert Admitted(p, next, tx, at, drafts[1..]);
    }
    tx := YardApprove(
      CreateAction, Twins(twin), db, "", first, t, at, [Minted(o, k), Minted(q, l)], TwinsMade(o, first, k, q, twin, l));
  }

  lemma TwinsProper(db: Db, o: Id, first: Settled, k: Key, q: Id, twin: Settled, l: Key)
    requires db.rec == Blank().rec && db.deks == map[] && first != "" && twin != ""
    ensures
      var p, drafts := Yard(CreateAction, Twins(twin)), TwinDrafts(o, first, k, q, twin, l);
      && RecordsOk(p, db.rec, db.deks) && AllProper(p, db.rec.objects, drafts) && MintTogether(db.deks, drafts[0], drafts[1])
  {
    PlateFacts(CreateAction, Twins(twin), o, first);
    PlateFacts(CreateAction, Twins(twin), q, twin);
    assert Car().statuses[0] == "new";
  }

  function Proposed(first: Settled, t: Id, at: int): seq<Call> {
    [ProposeCall("", first, t, at)]
  }

  lemma ProposedReady(twin: Settled, first: Settled, t: Id, at: int) returns (db: Db)
    ensures db == Run(Yard(CreateAction, Twins(twin)), Blank(), Proposed(first, t, at))
    ensures Ready(db, "", first, t, at) && db.rec == Blank().rec && db.deks == map[]
  {
    db := ProposedStep(Twins(twin), first, t, at);
    ProposedRun(Yard(CreateAction, Twins(twin)), first, t, at);
  }

  lemma ProposedStep(effects: seq<Effect>, first: Settled, t: Id, at: int) returns (db: Db)
    ensures db == Step(Yard(CreateAction, effects), Blank(), ProposeCall("", first, t, at))
    ensures Ready(db, "", first, t, at) && db.rec == Blank().rec && db.deks == map[]
  {
    YardPropose(CreateAction, effects, Blank(), "", first, t, at);
    db := Step(Yard(CreateAction, effects), Blank(), ProposeCall("", first, t, at));
  }

  lemma ProposedRun(p: Pack, first: Settled, t: Id, at: int)
    ensures Run(p, Blank(), Proposed(first, t, at)) == Step(p, Blank(), ProposeCall("", first, t, at))
  {
    RunOne(p, Blank(), ProposeCall("", first, t, at));
  }

  lemma FirstTwinUnreadable(db: Db, tx: TxId, o: Id, first: Settled, k: Key, q: Id, twin: Settled, l: Key, at: int)
    requires db.rec == Blank().rec && db.deks == map[] && o != q && first != "" && twin != "" && k != l
    requires
      var p, w, drafts := Yard(CreateAction, Twins(twin)), WriteCtx(at, false, map[]), TwinDrafts(o, first, k, q, twin, l);
      BuildAll(p, db, w, drafts).Ok? && Apply(db, tx, BuildAll(p, db, w, drafts).value).Some?
    ensures
      var p, w, drafts := Yard(CreateAction, Twins(twin)), WriteCtx(at, false, map[]), TwinDrafts(o, first, k, q, twin, l);
      BatchLimits.ReadBack(Apply(db, tx, BuildAll(p, db, w, drafts).value).value, drafts[0]) == Err(Refused("decrypt"))
  {
    TwinsProper(db, o, first, k, q, twin, l);
    MintedOnceExactly(Yard(CreateAction, Twins(twin)), db, tx, at, false, TwinDrafts(o, first, k, q, twin, l));
  }

  lemma TwinLostFrom(db: Db, o: Id, first: Settled, k: Key, q: Id, twin: Settled, l: Key, t: Id, at: int)
    requires o != "" && o != q && first != "" && twin != "" && first != twin && k != l
    requires Ready(db, "", first, t, at) && db.rec == Blank().rec && db.deks == map[]
    ensures
      var p, supply := Yard(CreateAction, Twins(twin)), [Minted(o, k), Minted(q, l)];
      var c := ApproveCall(t, supply, at);
      && Approving(p, db, t, c)
      && ApprovalDrafts(p, db, PolicyPrincipal(), t, supply, CtxOf(c)) == TwinDrafts(o, first, k, q, twin, l)
      && BatchLimits.ReadBack(Step(p, db, c), TwinDrafts(o, first, k, q, twin, l)[0]) == Err(Refused("decrypt"))
  {
    var tx := TwinsApproved(db, o, first, k, q, twin, l, t, at);
    FirstTwinUnreadable(db, tx, o, first, k, q, twin, l, at);
  }

  /** Two records made by one approval in an empty register: the first can be opened by nobody. */
  lemma FirstTwinCanBeLost(o: Id, first: Settled, k: Key, q: Id, twin: Settled, l: Key, t: Id, at: int)
    requires o != "" && o != q && first != "" && twin != "" && first != twin && k != l
    ensures
      var p, supply := Yard(CreateAction, Twins(twin)), [Minted(o, k), Minted(q, l)];
      var c, db := ApproveCall(t, supply, at), Run(p, Blank(), Proposed(first, t, at));
      && Approving(p, db, t, c)
      && ApprovalDrafts(p, db, PolicyPrincipal(), t, supply, CtxOf(c)) == TwinDrafts(o, first, k, q, twin, l)
      && BatchLimits.ReadBack(Step(p, db, c), TwinDrafts(o, first, k, q, twin, l)[0]) == Err(Refused("decrypt"))
  {
    var db := ProposedReady(twin, first, t, at);
    TwinLostFrom(db, o, first, k, q, twin, l, t, at);
  }

  // ---- a key passed on ------------------------------------------------------------------------------------

  /** As before, and the key the first record passed through is given to a second one. */
  function PassOn(o: Id, third: Settled, q: Id, second: Settled): seq<Effect> {
    [RecordEffect, CloseLinkEffect("car", o, third, "", false), CloseLinkEffect("car", q, second, "", false)]
  }

  function PassDrafts(o: Id, second: Settled, third: Settled, q: Id, k: Key): seq<Draft> {
    [Draft(Car(), o, 2, "new", Plate(second), k), Draft(Car(), o, 2, "new", Plate(third), k),
     Draft(Car(), q, 2, "new", Plate(second), k)]
  }

  function SupplyThree(k: Key): seq<Minted> {
    [Minted("", k), Minted("", k), Minted("", k)]
  }

  lemma PassEffects(db: Db, o: Id, first: Settled, second: Settled, third: Settled, q: Id, zero: Settled, k: Key)
    requires Fresh(db, o, first) && HeadVersion(db, o) == Ok(("new", Plate(first)))
    requires Fresh(db, q, zero) && HeadVersion(db, q) == Ok(("new", Plate(zero)))
    ensures
      JobEffects(UpdateAction, PassOn(o, third, q, second), db, o, second, SupplyThree(k)) ==
      Ok(Progress(PassDrafts(o, second, third, q, k), o, map[]))
  {
    var effects, drafts := PassOn(o, third, q, second), PassDrafts(o, second, third, q, k);
    var p, wf := Yard(UpdateAction, effects), Job(UpdateAction, effects);
    var s1 := Progress([drafts[0]], o, map[]);
    var s2 := Progress([drafts[0], drafts[1]], o, map[]);
    UpdateEffect(effects, db, o, first, second, Minted("", k));
    LinkEffect(effects, db, o, first, third, Plate(second), Minted("", k), s1);
    LinkEffect(effects, db, q, zero, second, Plate(second), Minted("", k), s2);
    assert [drafts[0]] + [drafts[1]] == [drafts[0], drafts[1]] && [drafts[0], drafts[1]] + [drafts[2]] == drafts;
    TwoEffects(p, db, wf, effects[1..], Plate(second), SupplyThree(k)[1..], s1, s2);
    assert AllEffects(p, db, wf, effects, Plate(second), SupplyThree(k), Progress([], o, map[])) ==
      AllEffects(p, db, wf, effects[1..], Plate(second), SupplyThree(k)[1..], s1);
  }

  /** One record seeded in an empty register. */
  lemma FirstSeed(effects: seq<Effect>, o: Id, plate: Settled, key: Key, at: int) returns (one: Db)
    ensures one == Step(Yard(UpdateAction, effects), Blank(), SeedCall(o, key, plate, at))
    ensures Seeded(one) && Fresh(one, o, plate) && one.rec.objects.Keys == {o}
    ensures forall q :: q != o ==> NoneOf(one.log, RecordCreate, q)
  {
    one := Step(Yard(UpdateAction, effects), Blank(), SeedCall(o, key, plate, at));
    BlankSeeded();
    YardSeed(UpdateAction, effects, Blank(), o, key, plate, at);
    SeedAnother(UpdateAction, effects, Blank(), o, key, plate, at);
  }

  /** And another, under another key. */
  lemma SecondSeed(effects: seq<Effect>, one: Db, o: Id, plate: Settled, q: Id, other: Settled, key: Key, at: int)
    returns (two: Db)
    requires Seeded(one) && Fresh(one, o, plate) && one.rec.objects.Keys == {o} && NoneOf(one.log, RecordCreate, q)
    requires o != q && plate != other
    ensures two == Step(Yard(UpdateAction, effects), one, SeedCall(q, key, other, at))
    ensures Seeded(two) && Fresh(two, o, plate) && Fresh(two, q, other) && two.rec.objects.Keys == {o, q}
  {
    two := Step(Yard(UpdateAction, effects), one, SeedCall(q, key, other, at));
    YardSeed(UpdateAction, effects, one, q, key, other, at);
    SeedAnother(UpdateAction, effects, one, q, key, other, at);
  }

  /** Two records seeded and a proposal about the first. */
  lemma TwoReady(
    effects: seq<Effect>, o: Id, plate: Settled, q: Id, other: Settled, key: Key, next: Settled, t: Id, at: int)
    returns (db: Db)
    requires o != "" && o != q && plate != other
    ensures db == Run(Yard(UpdateAction, effects), Blank(), TwoSeeded(o, plate, q, other, key, next, t, at))
    ensures Ready(db, o, next, t, at) && Fresh(db, o, plate) && Fresh(db, q, other) && db.rec.objects.Keys == {o, q}
  {
    var p, c := Yard(UpdateAction, effects), ProposeCall(o, next, t, at);
    var one := FirstSeed(effects, o, plate, key, at);
    var two := SecondSeed(effects, one, o, plate, q, other, key, at);
    ReadyAfter(UpdateAction, effects, two, o, next, t, at);
    RunThree(p, Blank(), SeedCall(o, key, plate, at), SeedCall(q, key, other, at), c);
    db := Step(p, two, c);
  }

  lemma TwoSound(effects: seq<Effect>, o: Id, plate: Settled, q: Id, other: Settled, key: Key, next: Settled, t: Id, at: int)
    requires o != "" && o != q && plate != other && plate != "" && other != "" && at > 0
    requires forall i :: 0 <= i < |effects| ==> ClassNames(effects[i]) <= {"car"}
    ensures PackSound(Yard(UpdateAction, effects))
    ensures SoundRun(Yard(UpdateAction, effects), Blank(), TwoSeeded(o, plate, q, other, key, next, t, at))
  {
    YardSound(UpdateAction, effects);
    SeedSound(UpdateAction, effects, Blank(), o, key, plate, at);
    var one := FirstSeed(effects, o, plate, key, at);
    SeedSound(UpdateAction, effects, one, q, key, other, at);
    var two := SecondSeed(effects, one, o, plate, q, other, key, at);
    ProposeSound(UpdateAction, effects, two, o, next, t, at);
    RunThree(
      Yard(UpdateAction, effects), Blank(), SeedCall(o, key, plate, at), SeedCall(q, key, other, at), ProposeCall(o, next, t, at));
  }

  /** The keys of the two records, change by change. */
  lemma PassAdmitted(
    p: Pack, objects: map<Id, ObjectRow>, tx: TxId, at: int, o: Id, second: Settled, third: Settled, q: Id, zero: Settled, k: Key)
    requires objects.Keys == {o, q} && o != q && objects[q].naturalKey == zero
    requires forall x, plate :: NaturalKeyOf(p, Car(), x, Plate(plate)) == plate
    requires second != zero && third != zero && second != third
    ensures
      var drafts := PassDrafts(o, second, third, q, k);
      && Admitted(p, objects, tx, at, drafts)
      && Taken(ObjectsAfter(p, objects, tx, at, drafts), "car", second, o)
  {
    var drafts := PassDrafts(o, second, third, q, k);
    var a := objects[o := LandedObject(p, objects, tx, at, drafts[0])];
    var b := a[o := LandedObject(p, a, tx, at, drafts[1])];
    var c := b[q := LandedObject(p, b, tx, at, drafts[2])];
    assert drafts[1..] == [drafts[1], drafts[2]] && drafts[1..][1..] == [drafts[2]] && [drafts[2]][1..] == [];
    assert Admitted(p, c, tx, at, []) && ObjectsAfter(p, c, tx, at, []) == c;
    assert Admitted(p, b, tx, at, [drafts[2]]) && ObjectsAfter(p, b, tx, at, [drafts[2]]) == c;
    assert Admitted(p, a, tx, at, [drafts[1], drafts[2]]) && ObjectsAfter(p, a, tx, at, [drafts[1], drafts[2]]) == c;
    assert c[q].cls == "car" && c[q].naturalKey == second;
  }

  /** A write set whose first change is refused is refused. */
  lemma FirstRefused(p: Pack, pre: Db, now: Db, tx: TxId, w: WriteCtx, drafts: seq<Draft>, more: seq<Op>)
    requires DeksOk(pre.deks) && drafts != [] && BuildAll(p, pre, w, drafts).Ok?
    requires Taken(now.rec.objects, drafts[0].cls.name, KeyOf(p, tx, drafts[0]), drafts[0].objectId)
    ensures Apply(now, tx, BuildAll(p, pre, w, drafts).value + more).None?
  {
    var d := drafts[0];
    BuiltParts(p, pre, w, d);
    var e := EnsureFor(pre.deks, w, d).value;
    DeksGrow(pre.deks, w, d, e);
    RecordLands(p, now, tx, w, d, e, pre.rec.objects);
    var ops, rest := BuildRecord(p, pre, w, d).value, BuildAll(p, pre, After(w, d), drafts[1..]).value;
    ApplyAppend(now, tx, ops, rest + more);
    assert (ops + rest) + more == ops + (rest + more);
  }

  /** Both records are as they were seeded, and the proposal about the first waits. */
  ghost predicate TwoWaiting(db: Db, o: Id, first: Settled, second: Settled, q: Id, zero: Settled, t: Id, at: int) {
    && o != "" && o != q && Ready(db, o, second, t, at)
    && Fresh(db, o, first) && Fresh(db, q, zero) && db.rec.objects.Keys == {o, q}
    && HeadVersion(db, o) == Ok(("new", Plate(first))) && HeadVersion(db, q) == Ok(("new", Plate(zero)))
  }

  lemma AllPlates(effects: seq<Effect>)
    ensures forall x, plate :: NaturalKeyOf(Yard(UpdateAction, effects), Car(), x, Plate(plate)) == plate
  {
    forall x, plate
      ensures NaturalKeyOf(Yard(UpdateAction, effects), Car(), x, Plate(plate)) == plate
    {
      PlateFacts(UpdateAction, effects, x, plate);
    }
  }

  lemma PassWaiting(
    db: Db, o: Id, first: Settled, second: Settled, third: Settled, q: Id, zero: Settled, t: Id, at: int, k: Key)
    requires TwoWaiting(db, o, first, second, q, zero, t, at)
    requires second != first && second != zero && third != zero
    ensures Waiting(
      UpdateAction, PassOn(o, third, q, second), db, o, second, t, at, SupplyThree(k),
      Progress(PassDrafts(o, second, third, q, k), o, map[]))
  {
    PassEffects(db, o, first, second, third, q, zero, k);
    PassBuildable(db, o, first, second, third, q, zero, t, at, k);
  }

  lemma PassBuildable(
    db: Db, o: Id, first: Settled, second: Settled, third: Settled, q: Id, zero: Settled, t: Id, at: int, k: Key)
    requires TwoWaiting(db, o, first, second, q, zero, t, at)
    requires second != first && second != zero && third != zero
    ensures
      var p, drafts := Yard(UpdateAction, PassOn(o, third, q, second)), PassDrafts(o, second, third, q, k);
      forall i :: 0 <= i < |drafts| ==> Buildable(p, db, drafts[i])
  {
    AllPlates(PassOn(o, third, q, second));
  }

  lemma PassAlwaysAdmitted(
    effects: seq<Effect>, objects: map<Id, ObjectRow>, at: int, o: Id, second: Settled, third: Settled, q: Id, zero: Settled,
    k: Key)
    requires objects.Keys == {o, q} && o != q && objects[q].naturalKey == zero
    requires second != zero && third != zero && second != third
    ensures forall tx :: Admitted(Yard(UpdateAction, effects), objects, tx, at, PassDrafts(o, second, third, q, k))
  {
    AllPlates(effects);
    forall tx
      ensures Admitted(Yard(UpdateAction, effects), objects, tx, at, PassDrafts(o, second, third, q, k))
    {
      PassAdmitted(Yard(UpdateAction, effects), objects, tx, at, o, second, third, q, zero, k);
    }
  }

  lemma PassApproved(
    db: Db, o: Id, first: Settled, second: Settled, third: Settled, q: Id, zero: Settled, t: Id, at: int, k: Key)
    returns (tx: TxId)
    requires TwoWaiting(db, o, first, second, q, zero, t, at)
    requires second != first && second != zero && third != zero && second != third
    ensures
      var p, c := Yard(UpdateAction, PassOn(o, third, q, second)), ApproveCall(t, SupplyThree(k), at);
      var drafts := PassDrafts(o, second, third, q, k);
      && Approving(p, db, t, c) && BuildAll(p, db, CtxOf(c), drafts).Ok? && Plan(p, db, c).Ok?
      && tx == TxOf(p, Plan(p, db, c).value)
      && Plan(p, db, c).value.ops == BuildAll(p, db, CtxOf(c), drafts).value + ApproveMoves(t, o, at)
      && (var mid := Apply(db, tx, BuildAll(p, db, CtxOf(c), drafts).value);
          mid.Some? && Step(p, db, c).rec == mid.value.rec)
  {
    var effects, drafts := PassOn(o, third, q, second), PassDrafts(o, second, third, q, k);
    PassWaiting(db, o, first, second, third, q, zero, t, at, k);
    PassAlwaysAdmitted(effects, db.rec.objects, at, o, second, third, q, zero, k);
    tx := YardApprove(UpdateAction, effects, db, o, second, t, at, SupplyThree(k), Progress(drafts, o, map[]));
  }

  lemma ReplayRefusedFrom(
    db: Db, o: Id, first: Settled, second: Settled, third: Settled, q: Id, zero: Settled, t: Id, at: int, k: Key)
    requires TwoWaiting(db, o, first, second, q, zero, t, at)
    requires second != first && second != zero && third != zero && second != third
    ensures
      var p, c := Yard(UpdateAction, PassOn(o, third, q, second)), ApproveCall(t, SupplyThree(k), at);
      Approving(p, db, t, c) && ReplayRefused(p, db, c)
  {
    var effects, drafts := PassOn(o, third, q, second), PassDrafts(o, second, third, q, k);
    var p, c := Yard(UpdateAction, effects), ApproveCall(t, SupplyThree(k), at);
    var tx := PassApproved(db, o, first, second, third, q, zero, t, at, k);
    AllPlates(effects);
    IndexLands(p, db, db, tx, CtxOf(c), drafts);
    PassAdmitted(p, db.rec.objects, tx, at, o, second, third, q, zero, k);
    FirstRefused(p, db, Step(p, db, c), tx, CtxOf(c), drafts, ApproveMoves(t, o, at));
  }

  /** What the call committed cannot be applied again to the state it left. */
  ghost predicate ReplayRefused(p: Pack, db: Db, c: Call) {
    && Plan(p, db, c).Ok?
    && (var plan := Plan(p, db, c).value;
        Apply(Step(p, db, c), TxOf(p, plan), plan.ops).None?)
  }

  lemma TwoWaits(
    effects: seq<Effect>, o: Id, first: Settled, q: Id, zero: Settled, key: Key, second: Settled, t: Id, at: int)
    returns (db: Db)
    requires o != "" && o != q && first != zero && first != "" && zero != "" && at > 0
    requires forall i :: 0 <= i < |effects| ==> ClassNames(effects[i]) <= {"car"}
    ensures db == Run(Yard(UpdateAction, effects), Blank(), TwoSeeded(o, first, q, zero, key, second, t, at))
    ensures TwoWaiting(db, o, first, second, q, zero, t, at)
  {
    db := TwoReady(effects, o, first, q, zero, key, second, t, at);
    TwoSound(effects, o, first, q, zero, key, second, t, at);
    ReachableInv(Yard(UpdateAction, effects), TwoSeeded(o, first, q, zero, key, second, t, at));
    FreshHead(UpdateAction, effects, db, o, first);
    FreshHead(UpdateAction, effects, db, q, zero);
  }

  /**
   Two records seeded, and a job that moves the first through a key that it then gives to the second:
   the proposal is approved, and replaying its write set on the state it left is refused.
   */
  lemma ReplayCanBeRefused(
    o: Id, first: Settled, second: Settled, third: Settled, q: Id, zero: Settled, key: Key, t: Id, at: int, k: Key)
    requires o != "" && o != q && first != "" && zero != "" && at > 0 && first != zero
    requires second != first && second != zero && third != zero && second != third
    ensures
      var p, c := Yard(UpdateAction, PassOn(o, third, q, second)), ApproveCall(t, SupplyThree(k), at);
      var db := Run(p, Blank(), TwoSeeded(o, first, q, zero, key, second, t, at));
      Approving(p, db, t, c) && ReplayRefused(p, db, c)
  {
    var effects := PassOn(o, third, q, second);
    var db := TwoWaits(effects, o, first, q, zero, key, second, t, at);
    ReplayRefusedFrom(db, o, first, second, third, q, zero, t, at, k);
  }

  // ---- a request taken for an earlier one -------------------------------------------------------------------

  function GrantAdmin(sub: Settled, at: int): Call {
    Call(Grant(None, sub, "admin"), at, false, "")
  }

  function RevokeAdmin(who: Principal, sub: Settled, at: int): Call {
    Call(Revoke(who, sub, "admin"), at, false, "")
  }

  function Admin(sub: Settled, at: int): MemberRow {
    MemberRow(sub, "admin", "configure", at)
  }

  ghost predicate NoGrant(log: seq<TxId>, id: string, at: int) {
    forall i :: 0 <= i < |log| ==> !(log[i].env.kind == MemberGrant && log[i].env.subject == id && log[i].env.at == at)
  }

  /** Granting the role to somebody who has none adds their row. */
  lemma AdminGranted(db: Db, sub: Settled, at: int)
    requires sub != "" && NoGrant(db.log, MemberId(Yard(UpdateAction, OneChange()), sub, "admin"), at)
    requires forall id :: id in db.people.members ==> db.people.members[id].sub != sub
    ensures
      var p := Yard(UpdateAction, OneChange());
      var next, id := Step(p, db, GrantAdmin(sub, at)), MemberId(p, sub, "admin");
      && next.people.members == db.people.members[id := Admin(sub, at)]
      && |next.log| == |db.log| + 1 && next.log[..|db.log|] == db.log
      && next.log[|db.log|].env == Envelope(MemberGrant, "configure", at, id, "")
  {
    var p, c := Yard(UpdateAction, OneChange()), GrantAdmin(sub, at);
    var id := MemberId(p, sub, "admin");
    var put := Ppl(PutMember(id, Admin(sub, at)));
    assert [put] + [] == [put];
    var plan := Planned(Envelope(MemberGrant, "configure", at, id, ""), [put]);
    assert Plan(p, db, c) == Ok(plan);
    ApplySingle(db, TxOf(p, plan), put);
    StepIs(p, db, c, plan);
  }

  /** Two administrators, of whom one may be revoked. */
  predicate TwoAdmins(db: Db, a: Settled, b: Settled, at: int, later: int) {
    var p := Yard(UpdateAction, OneChange());
    db.people.members == map[MemberId(p, a, "admin") := Admin(a, at), MemberId(p, b, "admin") := Admin(b, later)]
  }

  lemma IdsApart(a: Settled, b: Settled)
    requires a != b
    ensures MemberId(Yard(UpdateAction, OneChange()), a, "admin") != MemberId(Yard(UpdateAction, OneChange()), b, "admin")
  {
    var p := Yard(UpdateAction, OneChange());
    if MemberId(p, a, "admin") == MemberId(p, b, "admin") {
      MemberIdUnique(p, a, "admin", b, "admin");
    }
  }

  lemma RevokeLetThrough(db: Db, who: Principal, a: Settled, b: Settled, at: int, later: int, t: int)
    requires Can(who, PERM_MEMBERS) && a != b && TwoAdmins(db, a, b, at, later)
    ensures
      var p, id := Yard(UpdateAction, OneChange()), MemberId(Yard(UpdateAction, OneChange()), b, "admin");
      Plan(p, db, RevokeAdmin(who, b, t)) ==
      Ok(Planned(Envelope(MemberRevoke, who.sub, t, id, ""), [Ppl(DropMember(id))]))
  {
    var p := Yard(UpdateAction, OneChange());
    IdsApart(a, b);
    assert PERM_MEMBERS in p.roles["admin"].permissions;
    assert db.people.members[MemberId(p, a, "admin")].sub in Administrators(p, db.people.members) - {b};
  }

  /** Revoking the second leaves the first. */
  lemma AdminRevoked(db: Db, who: Principal, a: Settled, b: Settled, at: int, later: int, t: int)
    requires Can(who, PERM_MEMBERS) && a != b && TwoAdmins(db, a, b, at, later)
    requires forall i :: 0 <= i < |db.log| ==> db.log[i].env.kind == MemberGrant
    ensures
      var p := Yard(UpdateAction, OneChange());
      var next := Step(p, db, RevokeAdmin(who, b, t));
      && next.people.members == map[MemberId(p, a, "admin") := Admin(a, at)]
      && |next.log| == |db.log| + 1 && next.log[..|db.log|] == db.log && next.log[|db.log|].env.kind == MemberRevoke
  {
    var p, c := Yard(UpdateAction, OneChange()), RevokeAdmin(who, b, t);
    IdsApart(a, b);
    RevokeLetThrough(db, who, a, b, at, later, t);
    var plan := Plan(p, db, c).value;
    ApplySingle(db, TxOf(p, plan), plan.ops[0]);
    StepIs(p, db, c, plan);
  }

  lemma BothGranted(a: Settled, b: Settled, s: int) returns (two: Db)
    requires a != b && a != "" && b != ""
    ensures
      var p := Yard(UpdateAction, OneChange());
      two == Step(p, Step(p, Blank(), GrantAdmin(a, s)), GrantAdmin(b, s)) && TwoAdmins(two, a, b, s, s)
    ensures |two.log| == 2 && forall i :: 0 <= i < 2 ==> two.log[i].env.kind == MemberGrant && two.log[i].env.at == s
  {
    var p := Yard(UpdateAction, OneChange());
    IdsApart(a, b);
    AdminGranted(Blank(), a, s);
    var first := Step(p, Blank(), GrantAdmin(a, s));
    AdminGranted(first, b, s);
    two := Step(p, first, GrantAdmin(b, s));
    assert two.log[0] == first.log[0];
  }

  /** Two administrators, the second granted, revoked and granted again. */
  lemma GrantedAgain(who: Principal, a: Settled, b: Settled, s: int, t: int) returns (two: Db, one: Db, db: Db)
    requires Can(who, PERM_MEMBERS) && a != b && a != "" && b != "" && s > 0 && t > 0 && s != t
    ensures
      var p := Yard(UpdateAction, OneChange());
      && two == Step(p, Step(p, Blank(), GrantAdmin(a, s)), GrantAdmin(b, s)) && TwoAdmins(two, a, b, s, s)
      && one == Step(p, two, RevokeAdmin(who, b, t))
      && db == Step(p, one, GrantAdmin(b, t)) && TwoAdmins(db, a, b, s, t)
  {
    var p := Yard(UpdateAction, OneChange());
    var c := RevokeAdmin(who, b, t);
    IdsApart(a, b);
    two := BothGranted(a, b, s);
    AdminRevoked(two, who, a, b, s, s, t);
    one := Step(p, two, c);
    assert one.log[0] == two.log[0] && one.log[1] == two.log[1];
    AdminGranted(one, b, t);
    db := Step(p, one, GrantAdmin(b, t));
  }

  lemma MemberCallSound(p: Pack, db: Db, c: Call)
    requires c.act.Grant? || c.act.Revoke?
    requires c.at > 0 && PLACEHOLDER !in Persons(c.act)
    ensures Sound(p, db, c)
  {
  }

  /** What the last of four such calls leaves follows what the third left. */
  lemma AgainLater(p: Pack, a: Call, b: Call, c: Call, d: Call)
    requires p == Yard(UpdateAction, OneChange()) && a.at > 0 && b.at > 0 && c.at > 0 && d.at > 0
    requires a.act.Grant? && b.act.Grant? && c.act.Revoke? && d.act.Grant?
    requires PLACEHOLDER !in Persons(a.act) + Persons(b.act) + Persons(d.act)
    ensures
      var one := Step(p, Step(p, Step(p, Blank(), a), b), c);
      Later(one, Step(p, one, d))
  {
    YardSound(UpdateAction, OneChange());
    MemberCallSound(p, Blank(), a);
    MemberCallSound(p, Step(p, Blank(), a), b);
    MemberCallSound(p, Step(p, Step(p, Blank(), a), b), c);
    RunThree(p, Blank(), a, b, c);
    ReachableInv(p, [a, b, c]);
    MemberCallSound(p, Run(p, Blank(), [a, b, c]), d);
    StepKeeps(p, Run(p, Blank(), [a, b, c]), d);
  }

  /** Revoked, granted and revoked again in one second: the second revocation is let through and does nothing. */
  lemma RevocationCanBeSwallowed(who: Principal, a: Settled, b: Settled, s: int, t: int)
    requires Can(who, PERM_MEMBERS) && a != b && a != "" && b != "" && s > 0 && t > 0 && s != t
    ensures
      var p, c := Yard(UpdateAction, OneChange()), RevokeAdmin(who, b, t);
      var db := Run(p, Blank(), [GrantAdmin(a, s), GrantAdmin(b, s), c, GrantAdmin(b, t)]);
      && Plan(p, db, c).Ok? && Step(p, db, c) == db
      && MemberId(p, b, "admin") in db.people.members && b in Administrators(p, db.people.members)
  {
    var p, c := Yard(UpdateAction, OneChange()), RevokeAdmin(who, b, t);
    var two, one, db := GrantedAgain(who, a, b, s, t);
    FourCalls(p, GrantAdmin(a, s), GrantAdmin(b, s), c, GrantAdmin(b, t));
    AgainLater(p, GrantAdmin(a, s), GrantAdmin(b, s), c, GrantAdmin(b, t));
    RevokeLetThrough(two, who, a, b, s, s, t);
    RevokeLetThrough(db, who, a, b, s, t, t);
    ThirdIsSwallowed(p, two, db, c);
    assert PERM_MEMBERS in p.roles["admin"].permissions;
    assert db.people.members[MemberId(p, b, "admin")].sub in Administrators(p, db.people.members);
  }

  lemma FourCalls(p: Pack, a: Call, b: Call, c: Call, d: Call)
    ensures Run(p, Blank(), [a, b, c, d]) == Step(p, Step(p, Step(p, Step(p, Blank(), a), b), c), d)
  {
    assert [a, b, c, d][1..] == [b, c, d];
    RunThree(p, Step(p, Blank(), a), b, c, d);
  }

  // ---- the last administrator -----------------------------------------------------------------------------

  function BarredRevoke(who: Principal, at: int): Call {
    Call(Revoke(who, "a", "b|admin"), at, false, "")
  }

  lemma BarredStep(db: Db, who: Principal, at: int, t: int)
    requires Can(who, PERM_MEMBERS)
    requires db.people.members == map[MemberId(Yard(UpdateAction, OneChange()), "a|b", "admin") := Admin("a|b", at)]
    requires forall i :: 0 <= i < |db.log| ==> db.log[i].env.kind == MemberGrant
    ensures Administrators(Yard(UpdateAction, OneChange()), db.people.members) == {"a|b"}
    ensures
      var p := Yard(UpdateAction, OneChange());
      Administrators(p, Step(p, db, BarredRevoke(who, t)).people.members) == {}
  {
    var p, c := Yard(UpdateAction, OneChange()), BarredRevoke(who, t);
    AdministratorsCanBeLost(p, db, who, "configure", t, at);
    var plan := Plan(p, db, c).value;
    ApplySingle(db, TxOf(p, plan), plan.ops[0]);
    StepIs(p, db, c, plan);
  }

  /** A register with one administrator loses it to a revocation that names a role nobody has declared. */
  lemma LastAdministratorCanBeLost(who: Principal, at: int, t: int)
    requires Can(who, PERM_MEMBERS)
    ensures
      var p := Yard(UpdateAction, OneChange());
      var granted := Step(p, Blank(), GrantAdmin("a|b", at));
      && Administrators(p, granted.people.members) == {"a|b"}
      && Administrators(p, Run(p, Blank(), [GrantAdmin("a|b", at), BarredRevoke(who, t)]).people.members) == {}
  {
    var p := Yard(UpdateAction, OneChange());
    assert |"a|b"| == 3;
    AdminGranted(Blank(), "a|b", at);
    BarredStep(Step(p, Blank(), GrantAdmin("a|b", at)), who, at, t);
    RunTwo(p, Blank(), GrantAdmin("a|b", at), BarredRevoke(who, t));
  }
}
