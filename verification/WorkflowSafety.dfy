/** What the workflow keeps over whole runs: states, keys, acceptances, decisions and the log agree. */
module WorkflowSafety {
  import opened Outcomes
  import opened Tables
  import opened Packs
  import opened RecordBuild
  import opened RecordInvariant
  import opened RecordSafety
  import opened History
  import opened Workflows

  // ---- what the log says of tasks -------------------------------------------------------

  predicate Moves(tx: TxId, taskId: Id, c: TaskChange) {
    MoveTask(taskId, c) in tx.ops
  }

  ghost predicate Approves(tx: TxId, taskId: Id) {
    exists c :: Moves(tx, taskId, c) && c.state.Approved?
  }

  ghost predicate ApprovedIn(log: seq<TxId>, taskId: Id) {
    exists i :: 0 <= i < |log| && Approves(log[i], taskId)
  }

  /** An entry of the log in which this person accepted this proposal. */
  predicate AcceptsAs(tx: TxId, taskId: Id, who: string) {
    tx.env.author == who && tx.env.kind.TaskAccept? &&
    exists i :: 0 <= i < |tx.ops| && tx.ops[i].MoveTask? && tx.ops[i].taskId == taskId && tx.ops[i].change.answer == Some(Accepted)
  }

  ghost predicate AcceptedIn(log: seq<TxId>, taskId: Id, who: string) {
    exists i :: 0 <= i < |log| && AcceptsAs(log[i], taskId, who)
  }

  /** The acceptance is an earlier entry than the approval. */
  ghost predicate AcceptedFirst(log: seq<TxId>, taskId: Id, who: string) {
    exists i, j :: 0 <= i < j < |log| && AcceptsAs(log[i], taskId, who) && Approves(log[j], taskId)
  }

  /** A state a task moved to is the one it is in, or one on the way there. */
  predicate Reached(s: TaskState, now: TaskState) {
    (s == now && (s.AwaitingReview? || Terminal(s))) || (s.AwaitingReview? && Terminal(now))
  }

  ghost predicate EntryReached(tasks: map<Id, TaskRow>, tx: TxId) {
    forall t, c :: Moves(tx, t, c) ==> t in tasks && Reached(c.state, tasks[t].state)
  }

  ghost predicate LogReached(tasks: map<Id, TaskRow>, log: seq<TxId>) {
    forall i :: 0 <= i < |log| ==> EntryReached(tasks, log[i])
  }

  /** No task is approved by two entries. */
  ghost predicate ApprovedOnce(log: seq<TxId>) {
    forall i, j, t :: 0 <= i < j < |log| ==> !(Approves(log[i], t) && Approves(log[j], t))
  }

  // ---- one task -------------------------------------------------------------------------------

  predicate SealedOk(deks: map<Scope, Dek>, taskId: Id, stored: Stored) {
    stored.enc.Some? ==>
      var ct := stored.enc.value;
      ct.scope == TaskKey(taskId) && ct.owner == taskId && ct.version == 0 && KeyFits(deks, TaskKey(taskId), ct.key)
  }

  predicate KeyLive(deks: map<Scope, Dek>, s: Scope) {
    s in deks && deks[s].Live()
  }

  /** A task's key lives until the decision and not beyond it. */
  predicate TaskKeyOk(deks: map<Scope, Dek>, taskId: Id, t: TaskRow) {
    && (Terminal(t.state) ==> !KeyLive(deks, TaskKey(taskId)))
    && (!Terminal(t.state) && t.payload.enc.Some? ==> KeyLive(deks, TaskKey(taskId)))
  }

  ghost predicate PartyOk(wf: Workflow, taskId: Id, t: TaskRow, log: seq<TxId>) {
    if wf.counterpartyField.None? then !t.state.AwaitingCounterparty?
    else
      && (t.state.AwaitingReview? || t.state.Approved? ==> t.answer == Accepted)
      && (t.state.AwaitingReview? ==> AcceptedIn(log, taskId, t.counterparty))
      && (t.state.Approved? ==> AcceptedFirst(log, taskId, t.counterparty))
  }

  /** A decision taken under independence is the policy's or somebody else's. */
  predicate IndependenceOk(wf: Workflow, t: TaskRow) {
    t.state.Approved? && wf.independence ==> t.decidedBy == POLICY || t.decidedBy != t.proposer
  }

  ghost predicate TaskOk(p: Pack, deks: map<Scope, Dek>, log: seq<TxId>, taskId: Id, t: TaskRow) {
    && t.workflow in p.workflows && !t.state.Proposed?
    && SealedOk(deks, taskId, t.payload)
    && TaskKeyOk(deks, taskId, t)
    && PartyOk(p.workflows[t.workflow], taskId, t, log)
    && IndependenceOk(p.workflows[t.workflow], t)
    && (t.state.Approved? <==> ApprovedIn(log, taskId))
  }

  ghost predicate TasksOk(p: Pack, db: Db) {
    && (forall t :: t in db.tasks ==> TaskOk(p, db.deks, db.log, t, db.tasks[t]))
    && (forall s :: s in db.deks ==> s.TaskKey? ==> s.taskId in db.tasks)
    && LogReached(db.tasks, db.log)
    && ApprovedOnce(db.log)
  }

  /** A decided task is decided for good, and nobody rewrites who proposed what to whom, or about what before it is approved. */
  predicate TaskOnward(a: TaskRow, b: TaskRow) {
    && b.workflow == a.workflow && b.proposer == a.proposer && b.counterparty == a.counterparty && b.payload == a.payload
    && b.cls == a.cls && b.createdAt == a.createdAt && (!b.state.Approved? ==> b.objectId == a.objectId)
    && (Terminal(a.state) ==> b == a)
  }

  ghost predicate TasksOnward(a: map<Id, TaskRow>, b: map<Id, TaskRow>) {
    forall t :: t in a ==> t in b && TaskOnward(a[t], b[t])
  }

  // ---- the log grows ---------------------------------------------------------------------------

  lemma LogGrows(log: seq<TxId>, tx: TxId, taskId: Id, who: string)
    ensures ApprovedIn(log, taskId) ==> ApprovedIn(log + [tx], taskId)
    ensures ApprovedIn(log + [tx], taskId) && !Approves(tx, taskId) ==> ApprovedIn(log, taskId)
    ensures Approves(tx, taskId) ==> ApprovedIn(log + [tx], taskId)
    ensures AcceptedIn(log, taskId, who) ==> AcceptedIn(log + [tx], taskId, who)
    ensures AcceptsAs(tx, taskId, who) ==> AcceptedIn(log + [tx], taskId, who)
    ensures AcceptedFirst(log, taskId, who) ==> AcceptedFirst(log + [tx], taskId, who)
    ensures AcceptedIn(log, taskId, who) && Approves(tx, taskId) ==> AcceptedFirst(log + [tx], taskId, who)
  {
    var more := log + [tx];
    if ApprovedIn(log, taskId) {
      var i :| 0 <= i < |log| && Approves(log[i], taskId);
      assert more[i] == log[i];
    }
    if AcceptedIn(log, taskId, who) {
      var i :| 0 <= i < |log| && AcceptsAs(log[i], taskId, who);
      assert more[i] == log[i];
    }
    if AcceptedFirst(log, taskId, who) {
      var i, j :| 0 <= i < j < |log| && AcceptsAs(log[i], taskId, who) && Approves(log[j], taskId);
      assert more[i] == log[i] && more[j] == log[j];
    }
    assert more[|log|] == tx;
  }

  /** Entries that move no task. */
  ghost predicate MovesNothing(ops: seq<Op>) {
    forall op :: op in ops ==> !op.MoveTask?
  }

  /** Entries that move exactly one task, once. */
  ghost predicate MovesOne(ops: seq<Op>, taskId: Id, c: TaskChange) {
    MoveTask(taskId, c) in ops && forall op :: op in ops && op.MoveTask? ==> op == MoveTask(taskId, c)
  }

  lemma ReachedAppend(tasks: map<Id, TaskRow>, now: map<Id, TaskRow>, log: seq<TxId>, tx: TxId)
    requires forall i :: 0 <= i < |log| ==> EntryReached(now, log[i])
    requires EntryReached(now, tx)
    ensures LogReached(now, log + [tx])
  {
  }

  lemma OnceAppend(log: seq<TxId>, tx: TxId)
    requires ApprovedOnce(log) && forall t :: Approves(tx, t) ==> !ApprovedIn(log, t)
    ensures ApprovedOnce(log + [tx])
  {
    var more := log + [tx];
    forall i, j, t | 0 <= i < j < |more|
      ensures !(Approves(more[i], t) && Approves(more[j], t))
    {
      if j < |log| {
        assert !(Approves(log[i], t) && Approves(log[j], t));
      } else if Approves(more[i], t) {
        assert ApprovedIn(log, t);
      }
    }
  }

  // ---- steps that leave proposals alone -----------------------------------------------------------

  /** The keys of tasks are as they were. */
  ghost predicate TaskKeysSame(deks: map<Scope, Dek>, now: map<Scope, Dek>) {
    forall s: Scope :: s.TaskKey? ==> (s in now <==> s in deks) && (s in deks ==> now[s] == deks[s])
  }

  lemma TasksAlone(p: Pack, db: Db, now: Db, tx: TxId)
    requires TasksOk(p, db) && now.tasks == db.tasks && now.log == db.log + [tx]
    requires TaskKeysSame(db.deks, now.deks) && MovesNothing(tx.ops)
    ensures TasksOk(p, now)
  {
    forall t | t in now.tasks
      ensures TaskOk(p, now.deks, now.log, t, now.tasks[t])
    {
      assert TaskOk(p, db.deks, db.log, t, db.tasks[t]);
      LogGrows(db.log, tx, t, db.tasks[t].counterparty);
    }
    ReachedAppend(db.tasks, now.tasks, db.log, tx);
    OnceAppend(db.log, tx);
  }

  lemma LoggedMove(tasks: map<Id, TaskRow>, log: seq<TxId>, tx: TxId, taskId: Id, c: TaskChange)
    requires LogReached(tasks, log) && tx in log && Moves(tx, taskId, c)
    ensures taskId in tasks && Reached(c.state, tasks[taskId].state)
  {
    var i :| 0 <= i < |log| && log[i] == tx;
    assert EntryReached(tasks, log[i]);
  }

  lemma ApprovedIsKnown(tasks: map<Id, TaskRow>, log: seq<TxId>, taskId: Id)
    requires LogReached(tasks, log)
    ensures ApprovedIn(log, taskId) ==> taskId in tasks && tasks[taskId].state.Approved?
  {
    if ApprovedIn(log, taskId) {
      var i :| 0 <= i < |log| && Approves(log[i], taskId);
      var c :| Moves(log[i], taskId, c) && c.state.Approved?;
      LoggedMove(tasks, log, log[i], taskId, c);
    }
  }

  // ---- a new proposal ---------------------------------------------------------------------------------

  lemma ProposalLands(db: Db, tx: TxId, w: WriteCtx, pii: set<string>, taskId: Id, payload: Payload, minted: Key, task: TaskRow)
    requires SealProposal(db.deks, w, pii, taskId, payload, minted).Ok?
    requires TaskKey(taskId) !in db.deks
    ensures
      var sealed := SealProposal(db.deks, w, pii, taskId, payload, minted).value;
      var after := Apply(db, tx, sealed.mint + [PutTask(taskId, task)]);
      && after.Some? && after.value == db.(deks := after.value.deks, tasks := db.tasks[taskId := FillTask(tx.digest, task)])
      && AgreeOff(db.deks, after.value.deks, TaskKey(taskId))
      && after.value.deks.Keys <= db.deks.Keys + {TaskKey(taskId)}
      && SealedOk(after.value.deks, taskId, sealed.stored)
      && (sealed.stored.enc.Some? ==> KeyLive(after.value.deks, TaskKey(taskId)))
      && DeksExtend(db.deks, after.value.deks)
      && (TaskKey(taskId) in after.value.deks ==> DekOk(TaskKey(taskId), after.value.deks[TaskKey(taskId)]))
      && OpenProposal(after.value.deks, true, taskId, sealed.stored) == Ok(Opened(payload, false))
      && MovesNothing(sealed.mint + [PutTask(taskId, task)])
  {
    var sealed := SealProposal(db.deks, w, pii, taskId, payload, minted).value;
    ApplyAppend(db, tx, sealed.mint, [PutTask(taskId, task)]);
    SplitMerges(pii, payload);
    if sealed.mint != [] {
      ApplySingle(db, tx, sealed.mint[0]);
      ApplySingle(ApplyOne(db, tx, sealed.mint[0]).value, tx, PutTask(taskId, task));
    } else {
      assert Personal(pii, payload) == map[];
      assert Clear(pii, payload) + map[] == Clear(pii, payload);
      ApplySingle(db, tx, PutTask(taskId, task));
    }
  }

  lemma ProposalKeeps(p: Pack, db: Db, now: Db, tx: TxId, taskId: Id, task: TaskRow)
    requires TasksOk(p, db) && taskId !in db.tasks
    requires now.tasks == db.tasks[taskId := task] && now.log == db.log + [tx] && MovesNothing(tx.ops)
    requires DeksExtend(db.deks, now.deks) && now.deks.Keys <= db.deks.Keys + {TaskKey(taskId)}
    requires task.workflow in p.workflows && SealedOk(now.deks, taskId, task.payload)
    requires task.payload.enc.Some? ==> KeyLive(now.deks, TaskKey(taskId))
    requires
      task.state == if p.workflows[task.workflow].counterpartyField.Some? then AwaitingCounterparty else AwaitingReview
    ensures TasksOk(p, now) && TasksOnward(db.tasks, now.tasks)
  {
    forall t | t in db.tasks
      ensures TaskOk(p, now.deks, now.log, t, db.tasks[t])
    {
      assert TaskOk(p, db.deks, db.log, t, db.tasks[t]);
      LogGrows(db.log, tx, t, db.tasks[t].counterparty);
      assert TaskKey(t) in now.deks ==> TaskKey(t) in db.deks;
    }
    LogGrows(db.log, tx, taskId, task.counterparty);
    ApprovedIsKnown(db.tasks, db.log, taskId);
    forall i | 0 <= i < |db.log|
      ensures EntryReached(now.tasks, db.log[i])
    {
      assert EntryReached(db.tasks, db.log[i]);
    }
    ReachedAppend(db.tasks, now.tasks, db.log, tx);
    OnceAppend(db.log, tx);
  }

  // ---- a task moves -----------------------------------------------------------------------------------

  function Closed(deks: map<Scope, Dek>, taskId: Id, at: int): map<Scope, Dek> {
    if TaskKey(taskId) in deks && deks[TaskKey(taskId)].Live() then
      deks[TaskKey(taskId) := deks[TaskKey(taskId)].(opWrap := NoWrap, recWrap := NoWrap, destroyedAt := at)]
    else deks
  }

  lemma CloseLands(db: Db, tx: TxId, deks: map<Scope, Dek>, taskId: Id, at: int)
    requires TaskKey(taskId) in deks <==> TaskKey(taskId) in db.deks
    requires TaskKey(taskId) in deks ==> deks[TaskKey(taskId)] == db.deks[TaskKey(taskId)]
    ensures Apply(db, tx, CloseProposal(deks, taskId, at)) == Some(db.(deks := Closed(db.deks, taskId, at)))
  {
    if TaskKey(taskId) in deks && deks[TaskKey(taskId)].Live() {
      ApplySingle(db, tx, DestroyKey(TaskKey(taskId), at));
    }
  }

  /** A decision by somebody whose name the tables take as it is. */
  predicate Signed(c: TaskChange) {
    c.decidedBy != Some(PLACEHOLDER)
  }

  lemma MoveLands(db: Db, tx: TxId, deks: map<Scope, Dek>, taskId: Id, c: TaskChange, close: seq<Op>)
    requires taskId in db.tasks && Signed(c)
    requires TaskKey(taskId) in deks <==> TaskKey(taskId) in db.deks
    requires TaskKey(taskId) in deks ==> deks[TaskKey(taskId)] == db.deks[TaskKey(taskId)]
    requires close == [] || close == CloseProposal(deks, taskId, c.at)
    ensures
      Apply(db, tx, [MoveTask(taskId, c)] + close) ==
      Some(db.(tasks := db.tasks[taskId := Moved(db.tasks[taskId], c)],
               deks := if close == [] then db.deks else Closed(db.deks, taskId, c.at)))
    ensures MovesOne([MoveTask(taskId, c)] + close, taskId, c)
  {
    ApplyAppend(db, tx, [MoveTask(taskId, c)], close);
    ApplySingle(db, tx, MoveTask(taskId, c));
    var mid := ApplyOne(db, tx, MoveTask(taskId, c)).value;
    if close != [] {
      CloseLands(mid, tx, deks, taskId, c.at);
    }
  }

  /** The moves the workflow makes: forward, with the key closed on the way out. */
  predicate Forward(a: TaskState, b: TaskState) {
    || (a.AwaitingCounterparty? && (b.AwaitingReview? || b.Rejected? || b.Withdrawn?))
    || (a.AwaitingReview? && (b.Approved? || b.Rejected? || b.Withdrawn?))
  }

  lemma ClosedOk(deks: map<Scope, Dek>, taskId: Id, at: int)
    requires at > 0 && DeksOk(deks)
    ensures
      var now := Closed(deks, taskId, at);
      && AgreeOff(deks, now, TaskKey(taskId)) && now.Keys == deks.Keys && DeksOk(now) && DeksOnward(deks, now)
      && (TaskKey(taskId) in now ==> !now[TaskKey(taskId)].Live())
  {
    var now := Closed(deks, taskId, at);
    forall s | s in now
      ensures DekOk(s, now[s])
    {
      assert DekOk(s, deks[s]);
    }
  }

  /** What a move must bring with it. */
  ghost predicate MoveJustified(p: Pack, t: TaskRow, tx: TxId, taskId: Id, c: TaskChange)
    requires t.workflow in p.workflows
  {
    var wf := p.workflows[t.workflow];
    && Forward(t.state, c.state) && (c.objectId.Some? ==> c.state.Approved?)
    && (t.state.AwaitingCounterparty? && c.state.AwaitingReview? ==>
          c.answer == Some(Accepted) && AcceptsAs(tx, taskId, t.counterparty))
    && (c.state.Approved? ==>
          c.answer.None? && c.decidedBy.Some? &&
          (wf.independence ==> c.decidedBy.value == POLICY || c.decidedBy.value != t.proposer))
  }

  lemma NoneLeftBehind(p: Pack, db: Db, taskId: Id, c: TaskChange)
    requires TasksOk(p, db) && taskId in db.tasks && Forward(db.tasks[taskId].state, c.state)
    ensures forall i :: 0 <= i < |db.log| ==>
      EntryReached(db.tasks[taskId := Moved(db.tasks[taskId], c)], db.log[i])
  {
    var now := db.tasks[taskId := Moved(db.tasks[taskId], c)];
    forall i | 0 <= i < |db.log|
      ensures EntryReached(now, db.log[i])
    {
      assert EntryReached(db.tasks, db.log[i]);
      forall t, d | Moves(db.log[i], t, d)
        ensures t in now && Reached(d.state, now[t].state)
      {
        assert Reached(d.state, db.tasks[t].state);
      }
    }
  }

  lemma MovedTaskOk(p: Pack, db: Db, now: Db, tx: TxId, taskId: Id, c: TaskChange)
    requires TasksOk(p, db) && taskId in db.tasks
    requires db.tasks[taskId].workflow in p.workflows && MoveJustified(p, db.tasks[taskId], tx, taskId, c)
    requires now.log == db.log + [tx] && MovesOne(tx.ops, taskId, c)
    requires TaskKey(taskId) in now.deks <==> TaskKey(taskId) in db.deks
    requires TaskKey(taskId) in db.deks ==>
      now.deks[TaskKey(taskId)] == db.deks[TaskKey(taskId)] || !now.deks[TaskKey(taskId)].Live()
    requires if Terminal(c.state) then !KeyLive(now.deks, TaskKey(taskId)) else KeyLive(db.deks, TaskKey(taskId)) ==> KeyLive(now.deks, TaskKey(taskId))
    ensures TaskOk(p, now.deks, now.log, taskId, Moved(db.tasks[taskId], c))
  {
    var t := db.tasks[taskId];
    assert TaskOk(p, db.deks, db.log, taskId, t);
    LogGrows(db.log, tx, taskId, t.counterparty);
    assert Approves(tx, taskId) <==> c.state.Approved? by {
      assert Moves(tx, taskId, c);
    }
  }

  /** The keys of every other task are as they were. */
  ghost predicate TaskKeysBut(deks: map<Scope, Dek>, now: map<Scope, Dek>, taskId: Id) {
    forall s: Scope :: s.TaskKey? && s != TaskKey(taskId) ==> (s in now <==> s in deks) && (s in deks ==> now[s] == deks[s])
  }

  lemma OtherTaskOk(p: Pack, db: Db, now: Db, tx: TxId, taskId: Id, c: TaskChange, other: Id)
    requires TasksOk(p, db) && other in db.tasks && other != taskId
    requires now.log == db.log + [tx] && MovesOne(tx.ops, taskId, c)
    requires TaskKeysBut(db.deks, now.deks, taskId)
    ensures TaskOk(p, now.deks, now.log, other, db.tasks[other])
  {
    assert TaskOk(p, db.deks, db.log, other, db.tasks[other]);
    LogGrows(db.log, tx, other, db.tasks[other].counterparty);
  }

  lemma MoveIsFirst(p: Pack, db: Db, tx: TxId, taskId: Id, c: TaskChange)
    requires TasksOk(p, db) && taskId in db.tasks && MovesOne(tx.ops, taskId, c)
    requires Forward(db.tasks[taskId].state, c.state)
    ensures forall t :: Approves(tx, t) ==> !ApprovedIn(db.log, t)
  {
    forall t | Approves(tx, t)
      ensures !ApprovedIn(db.log, t)
    {
      assert t == taskId && TaskOk(p, db.deks, db.log, taskId, db.tasks[taskId]);
    }
  }

  lemma KeysStayOwned(tasks: map<Id, TaskRow>, deks: map<Scope, Dek>, now: map<Scope, Dek>, taskId: Id)
    requires forall s :: s in deks ==> s.TaskKey? ==> s.taskId in tasks
    requires TaskKeysBut(deks, now, taskId) && taskId in tasks
    ensures forall s :: s in now ==> s.TaskKey? ==> s.taskId in tasks
  {
    forall s | s in now && s.TaskKey?
      ensures s.taskId in tasks
    {
      assert s != TaskKey(taskId) ==> s in deks;
    }
  }

  lemma MovedAllOk(p: Pack, db: Db, now: Db, tx: TxId, taskId: Id, c: TaskChange)
    requires TasksOk(p, db) && taskId in db.tasks
    requires db.tasks[taskId].workflow in p.workflows && MoveJustified(p, db.tasks[taskId], tx, taskId, c)
    requires now.tasks == db.tasks[taskId := Moved(db.tasks[taskId], c)]
    requires now.log == db.log + [tx] && MovesOne(tx.ops, taskId, c)
    requires TaskKeysBut(db.deks, now.deks, taskId)
    requires TaskKey(taskId) in db.deks <==> TaskKey(taskId) in now.deks
    requires TaskKey(taskId) in db.deks ==>
      now.deks[TaskKey(taskId)] == db.deks[TaskKey(taskId)] || !now.deks[TaskKey(taskId)].Live()
    requires if Terminal(c.state) then !KeyLive(now.deks, TaskKey(taskId)) else KeyLive(db.deks, TaskKey(taskId)) ==> KeyLive(now.deks, TaskKey(taskId))
    ensures forall t :: t in now.tasks ==> TaskOk(p, now.deks, now.log, t, now.tasks[t])
  {
    forall t | t in now.tasks
      ensures TaskOk(p, now.deks, now.log, t, now.tasks[t])
    {
      if t == taskId {
        MovedTaskOk(p, db, now, tx, taskId, c);
      } else {
        OtherTaskOk(p, db, now, tx, taskId, c, t);
      }
    }
  }

  lemma MovedOnward(tasks: map<Id, TaskRow>, taskId: Id, c: TaskChange)
    requires taskId in tasks && !Terminal(tasks[taskId].state) && (c.objectId.Some? ==> c.state.Approved?)
    ensures TasksOnward(tasks, tasks[taskId := Moved(tasks[taskId], c)])
  {
  }

  /** A justified move keeps everything the workflow promises. */
  lemma MoveKeeps(p: Pack, db: Db, now: Db, tx: TxId, taskId: Id, c: TaskChange)
    requires TasksOk(p, db) && taskId in db.tasks
    requires db.tasks[taskId].workflow in p.workflows && MoveJustified(p, db.tasks[taskId], tx, taskId, c)
    requires now.tasks == db.tasks[taskId := Moved(db.tasks[taskId], c)]
    requires now.log == db.log + [tx] && MovesOne(tx.ops, taskId, c)
    requires TaskKeysBut(db.deks, now.deks, taskId)
    requires TaskKey(taskId) in db.deks <==> TaskKey(taskId) in now.deks
    requires TaskKey(taskId) in db.deks ==>
      now.deks[TaskKey(taskId)] == db.deks[TaskKey(taskId)] || !now.deks[TaskKey(taskId)].Live()
    requires if Terminal(c.state) then !KeyLive(now.deks, TaskKey(taskId)) else KeyLive(db.deks, TaskKey(taskId)) ==> KeyLive(now.deks, TaskKey(taskId))
    ensures TasksOk(p, now) && TasksOnward(db.tasks, now.tasks)
  {
    MovedAllOk(p, db, now, tx, taskId, c);
    KeysStayOwned(now.tasks, db.deks, now.deks, taskId);
    NoneLeftBehind(p, db, taskId, c);
    ReachedAppend(db.tasks, now.tasks, db.log, tx);
    MoveIsFirst(p, db, tx, taskId, c);
    OnceAppend(db.log, tx);
    MovedOnward(db.tasks, taskId, c);
  }

  /** A move that has been logged cannot be asked for again: the retry check never swallows one. */
  lemma MoveIsNew(p: Pack, db: Db, tx: TxId, taskId: Id, c: TaskChange)
    requires TasksOk(p, db) && taskId in db.tasks && Forward(db.tasks[taskId].state, c.state)
    requires Moves(tx, taskId, c)
    ensures tx !in db.log
  {
    if tx in db.log {
      LoggedMove(db.tasks, db.log, tx, taskId, c);
    }
  }
}
