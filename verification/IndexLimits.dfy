/**
 What the natural-key index is worth after a write set: the exact conditions under which it still names,
 for every key, the object that has it.
 */
module IndexLimits {
  import opened Outcomes
  import opened Tables
  import opened Packs
  import opened RecordBuild
  import opened RecordInvariant
  import opened RecordSafety
  import opened Batch

  // ---- the empty natural key ------------------------------------------------------------

  /**
   The retire step skips the empty key, so the index still agrees after a change exactly when the
   change does not take an object off that key.
   */
  lemma EmptyKeyExactly(
    p: Pack, objects: map<Id, ObjectRow>, keys: map<(string, string), KeyRow>, d: Draft, naturalKey: Settled, at: int,
    ob: ObjectRow)
    requires KeysAgree(p, objects, keys)
    requires d.cls.name in p.classes && p.classes[d.cls.name] == d.cls
    requires d.objectId in objects ==> objects[d.objectId].cls == d.cls.name
    requires ob.cls == d.cls.name && ob.naturalKey == naturalKey
    requires !Taken(objects, d.cls.name, naturalKey, d.objectId)
    ensures
      var after := LandedKeys(keys, PreviousKey(objects, d.objectId), d, naturalKey, at);
      KeysAgree(p, objects[d.objectId := ob], after) <==> !Leaves(objects, d, naturalKey)
  {
    var after := LandedKeys(keys, PreviousKey(objects, d.objectId), d, naturalKey, at);
    if Leaves(objects, d, naturalKey) {
      assert Indexed(p, keys, d.objectId, objects[d.objectId]);
      assert (d.cls.name, "") in after && !EntryRight(p, objects[d.objectId := ob], (d.cls.name, ""), after[(d.cls.name, "")]);
    } else {
      KeysFollow(p, objects, keys, d, naturalKey, at, ob);
    }
  }

  // ---- what a landed write set leaves in the index, whatever it was built against -----------------

  function ObjectsAfter(p: Pack, objects: map<Id, ObjectRow>, tx: TxId, at: int, drafts: seq<Draft>): map<Id, ObjectRow>
    decreases |drafts|
  {
    if drafts == [] then objects
    else
      var d := drafts[0];
      ObjectsAfter(p, objects[d.objectId := LandedObject(p, objects, tx, at, d)], tx, at, drafts[1..])
  }

  /** Every change retires the key its object had in the state the set was built against. */
  function EntriesAfter(
    p: Pack, pre: map<Id, ObjectRow>, keys: map<(string, string), KeyRow>, tx: TxId, at: int, drafts: seq<Draft>)
    : map<(string, string), KeyRow>
    decreases |drafts|
  {
    if drafts == [] then keys
    else
      var d := drafts[0];
      EntriesAfter(p, pre, LandedKeys(keys, PreviousKey(pre, d.objectId), d, KeyOf(p, tx, d), at), tx, at, drafts[1..])
  }

  /** The unique index let every change through. */
  predicate Admitted(p: Pack, objects: map<Id, ObjectRow>, tx: TxId, at: int, drafts: seq<Draft>)
    decreases |drafts|
  {
    drafts == [] ||
    (var d := drafts[0];
     && !Taken(objects, d.cls.name, KeyOf(p, tx, d), d.objectId)
     && Admitted(p, objects[d.objectId := LandedObject(p, objects, tx, at, d)], tx, at, drafts[1..]))
  }

  /** So did the unique indexes on the projected columns. */
  predicate ColumnsAdmitted(p: Pack, query: map<(QueryTable, Id), QueryRow>, tx: TxId, at: int, drafts: seq<Draft>)
    decreases |drafts|
  {
    drafts == [] ||
    (var d := drafts[0];
     && !ColumnsTaken(p, query, tx, d)
     && ColumnsAdmitted(p, query[(TableOf(d.cls), d.objectId) := LandedQuery(p, tx, at, d)], tx, at, drafts[1..]))
  }

  /** The natural-key check of a build looks at the state the set was built against, and at the text it was given. */
  ghost predicate AllFree(p: Pack, pre: map<Id, ObjectRow>, drafts: seq<Draft>) {
    forall i :: 0 <= i < |drafts| ==> NaturalKeyFree(pre, drafts[i].cls, drafts[i].objectId, GivenKey(p, drafts[i]))
  }

  /** No object was given the transaction's id for its key before there was such a transaction. */
  ghost predicate Unforeseen(objects: map<Id, ObjectRow>, tx: TxId) {
    forall o :: o in objects ==> objects[o].naturalKey != tx.digest
  }

  lemma {:induction false} IndexLands(p: Pack, pre: Db, now: Db, tx: TxId, w: WriteCtx, drafts: seq<Draft>)
    requires DeksOk(pre.deks) && BuildAll(p, pre, w, drafts).Ok?
    requires Apply(now, tx, BuildAll(p, pre, w, drafts).value).Some?
    ensures
      var after := Apply(now, tx, BuildAll(p, pre, w, drafts).value).value;
      && after.rec.objects == ObjectsAfter(p, now.rec.objects, tx, w.at, drafts)
      && after.rec.keys == EntriesAfter(p, pre.rec.objects, now.rec.keys, tx, w.at, drafts)
    ensures Admitted(p, now.rec.objects, tx, w.at, drafts) && ColumnsAdmitted(p, now.rec.query, tx, w.at, drafts)
    ensures AllFree(p, pre.rec.objects, drafts)
    decreases |drafts|
  {
    if drafts != [] {
      var d, rest := drafts[0], drafts[1..];
      var ops := BuildRecord(p, pre, w, d).value;
      BuiltParts(p, pre, w, d);
      var e := EnsureFor(pre.deks, w, d).value;
      DeksGrow(pre.deks, w, d, e);
      RecordLands(p, now, tx, w, d, e, pre.rec.objects);
      ApplyAppend(now, tx, ops, BuildAll(p, pre, After(w, d), rest).value);
      IndexLands(p, pre, Apply(now, tx, ops).value, tx, After(w, d), rest);
      forall i | 0 <= i < |drafts|
        ensures NaturalKeyFree(pre.rec.objects, drafts[i].cls, drafts[i].objectId, GivenKey(p, drafts[i]))
      {
        assert i > 0 ==> drafts[i] == rest[i - 1];
      }
    }
  }

  /** What a set needs to land: the unique indexes let it through, and there is a row for every update. */
  lemma {:induction false} LandsWhen(p: Pack, pre: Db, now: Db, tx: TxId, w: WriteCtx, drafts: seq<Draft>)
    requires DeksOk(pre.deks) && BuildAll(p, pre, w, drafts).Ok?
    requires Admitted(p, now.rec.objects, tx, w.at, drafts) && ColumnsAdmitted(p, now.rec.query, tx, w.at, drafts)
    requires forall i :: 0 <= i < |drafts| ==> drafts[i].version <= 1 || drafts[i].objectId in now.rec.objects
    ensures Apply(now, tx, BuildAll(p, pre, w, drafts).value).Some?
    decreases |drafts|
  {
    if drafts != [] {
      var d, rest := drafts[0], drafts[1..];
      var ops := BuildRecord(p, pre, w, d).value;
      BuiltParts(p, pre, w, d);
      var e := EnsureFor(pre.deks, w, d).value;
      DeksGrow(pre.deks, w, d, e);
      RecordLands(p, now, tx, w, d, e, pre.rec.objects);
      ApplyAppend(now, tx, ops, BuildAll(p, pre, After(w, d), rest).value);
      forall i | 0 <= i < |rest|
        ensures rest[i].version <= 1 || rest[i].objectId in Apply(now, tx, ops).value.rec.objects
      {
        assert rest[i] == drafts[i + 1];
      }
      LandsWhen(p, pre, Apply(now, tx, ops).value, tx, After(w, d), rest);
    }
  }

  /** A change that refers to nothing, in a state its checks pass in. */
  predicate Buildable(p: Pack, db: Db, d: Draft) {
    && p.accepts(d.cls.name, d.payload) && d.cls.references == map[]
    && (d.cls.encryption.EncNone? || DekScope(d.cls, d.objectId) !in db.deks ||
        (var dek := db.deks[DekScope(d.cls, d.objectId)]; dek.Live() && dek.opWrap.Wrapped? && dek.opWrap.scope == DekScope(d.cls, d.objectId)))
    && NaturalKeyFree(db.rec.objects, d.cls, d.objectId, GivenKey(p, d))
  }

  lemma {:induction false} BuildsWhen(p: Pack, db: Db, w: WriteCtx, drafts: seq<Draft>)
    requires forall i :: 0 <= i < |drafts| ==> Buildable(p, db, drafts[i])
    ensures BuildAll(p, db, w, drafts).Ok?
    decreases |drafts|
  {
    if drafts != [] {
      assert Buildable(p, db, drafts[0]);
      forall i | 0 <= i < |drafts[1..]|
        ensures Buildable(p, db, drafts[1..][i])
      {
        assert drafts[1..][i] == drafts[i + 1];
      }
      BuildsWhen(p, db, After(w, drafts[0]), drafts[1..]);
    }
  }

  // ---- who wrote last ----------------------------------------------------------------------------

  /** No later change addresses the object. */
  predicate LastOnObject(drafts: seq<Draft>, i: nat) {
    i < |drafts| && forall j :: i < j < |drafts| ==> drafts[j].objectId != drafts[i].objectId
  }

  lemma {:induction false} UntouchedObject(
    p: Pack, objects: map<Id, ObjectRow>, tx: TxId, at: int, drafts: seq<Draft>, o: Id)
    requires forall i :: 0 <= i < |drafts| ==> drafts[i].objectId != o
    ensures o in ObjectsAfter(p, objects, tx, at, drafts) <==> o in objects
    ensures o in objects ==> ObjectsAfter(p, objects, tx, at, drafts)[o] == objects[o]
    decreases |drafts|
  {
    if drafts != [] {
      TailMisses(drafts, o);
      UntouchedObject(p, objects[drafts[0].objectId := LandedObject(p, objects, tx, at, drafts[0])], tx, at, drafts[1..], o);
    }
  }

  lemma TailMisses(drafts: seq<Draft>, o: Id)
    requires drafts != [] && forall i :: 0 <= i < |drafts| ==> drafts[i].objectId != o
    ensures drafts[0].objectId != o && forall i :: 0 <= i < |drafts[1..]| ==> drafts[1..][i].objectId != o
  {
    forall i | 0 <= i < |drafts[1..]|
      ensures drafts[1..][i].objectId != o
    {
      assert drafts[1..][i] == drafts[i + 1];
    }
  }

  /** The object ends with the class and the key its last change gives it. */
  lemma {:induction false} LastObject(p: Pack, objects: map<Id, ObjectRow>, tx: TxId, at: int, drafts: seq<Draft>, i: nat)
    requires LastOnObject(drafts, i)
    ensures
      var d, after := drafts[i], ObjectsAfter(p, objects, tx, at, drafts);
      d.objectId in after && after[d.objectId].cls == d.cls.name && after[d.objectId].naturalKey == KeyOf(p, tx, d)
    decreases |drafts|
  {
    var d, rest := drafts[0], drafts[1..];
    forall j | 0 <= j < |rest|
      ensures rest[j] == drafts[j + 1]
    {
    }
    var next := objects[d.objectId := LandedObject(p, objects, tx, at, d)];
    if i == 0 {
      UntouchedObject(p, next, tx, at, rest, d.objectId);
    } else {
      LastObject(p, next, tx, at, rest, i - 1);
    }
  }

  /** The change puts or retires this entry of the index. */
  predicate Touches(p: Pack, pre: map<Id, ObjectRow>, tx: TxId, d: Draft, k: (string, string)) {
    && d.cls.naturalKey != "" && d.cls.name == k.0
    && (KeyOf(p, tx, d) == k.1 || (PreviousKey(pre, d.objectId) == k.1 && k.1 != ""))
  }

  lemma {:induction false} UntouchedEntry(
    p: Pack, pre: map<Id, ObjectRow>, keys: map<(string, string), KeyRow>, tx: TxId, at: int, drafts: seq<Draft>,
    k: (string, string))
    requires forall i :: 0 <= i < |drafts| ==> !Touches(p, pre, tx, drafts[i], k)
    ensures k in EntriesAfter(p, pre, keys, tx, at, drafts) <==> k in keys
    ensures k in keys ==> EntriesAfter(p, pre, keys, tx, at, drafts)[k] == keys[k]
    decreases |drafts|
  {
    if drafts != [] {
      var d, rest := drafts[0], drafts[1..];
      assert !Touches(p, pre, tx, drafts[0], k);
      forall i | 0 <= i < |rest|
        ensures !Touches(p, pre, tx, rest[i], k)
      {
        assert rest[i] == drafts[i + 1];
      }
      UntouchedEntry(p, pre, LandedKeys(keys, PreviousKey(pre, d.objectId), d, KeyOf(p, tx, d), at), tx, at, rest, k);
    }
  }

  predicate LastTouching(p: Pack, pre: map<Id, ObjectRow>, tx: TxId, drafts: seq<Draft>, k: (string, string), i: nat) {
    && i < |drafts| && Touches(p, pre, tx, drafts[i], k)
    && forall j :: i < j < |drafts| ==> !Touches(p, pre, tx, drafts[j], k)
  }

  /** An entry is what the last change to touch it made of it. */
  lemma {:induction false} LastEntry(
    p: Pack, pre: map<Id, ObjectRow>, keys: map<(string, string), KeyRow>, tx: TxId, at: int, drafts: seq<Draft>,
    k: (string, string), i: nat)
    requires LastTouching(p, pre, tx, drafts, k, i)
    ensures
      var after := EntriesAfter(p, pre, keys, tx, at, drafts);
      && (k in after <==> KeyOf(p, tx, drafts[i]) == k.1)
      && (k in after ==> after[k].objectId == drafts[i].objectId)
    decreases |drafts|
  {
    var d, rest := drafts[0], drafts[1..];
    forall j | 0 <= j < |rest|
      ensures rest[j] == drafts[j + 1]
    {
    }
    var next := LandedKeys(keys, PreviousKey(pre, d.objectId), d, KeyOf(p, tx, d), at);
    if i == 0 {
      UntouchedEntry(p, pre, next, tx, at, rest, k);
    } else {
      LastEntry(p, pre, next, tx, at, rest, k, i - 1);
    }
  }

  lemma {:induction false} FindLast(p: Pack, pre: map<Id, ObjectRow>, tx: TxId, drafts: seq<Draft>, k: (string, string), n: nat)
    returns (i: Option<nat>)
    requires n <= |drafts| && forall j :: n <= j < |drafts| ==> !Touches(p, pre, tx, drafts[j], k)
    ensures i.None? ==> forall j :: 0 <= j < |drafts| ==> !Touches(p, pre, tx, drafts[j], k)
    ensures i.Some? ==> LastTouching(p, pre, tx, drafts, k, i.value)
    decreases n
  {
    if n == 0 {
      i := None;
    } else if Touches(p, pre, tx, drafts[n - 1], k) {
      i := Some(n - 1);
    } else {
      i := FindLast(p, pre, tx, drafts, k, n - 1);
    }
  }

  lemma {:induction false} FindLastOn(drafts: seq<Draft>, i: nat) returns (last: nat)
    requires i < |drafts|
    ensures i <= last && LastOnObject(drafts, last) && drafts[last].objectId == drafts[i].objectId
    decreases |drafts| - i
  {
    if j :| i < j < |drafts| && drafts[j].objectId == drafts[i].objectId {
      last := FindLastOn(drafts, j);
    } else {
      last := i;
    }
  }

  // ---- keys nobody else may take ---------------------------------------------------------------------

  /** While an object holds a key, the unique index keeps every other object off it. */
  lemma {:induction false} HeldKey(
    p: Pack, objects: map<Id, ObjectRow>, tx: TxId, at: int, drafts: seq<Draft>, o: Id, j: nat)
    requires Admitted(p, objects, tx, at, drafts) && o in objects && j < |drafts|
    requires forall i :: 0 <= i < |drafts| ==> drafts[i].objectId != o
    ensures !(drafts[j].cls.name == objects[o].cls && KeyOf(p, tx, drafts[j]) == objects[o].naturalKey)
    decreases |drafts|
  {
    TailMisses(drafts, o);
    if j > 0 {
      var d := drafts[0];
      assert drafts[1..][j - 1] == drafts[j];
      HeldKey(p, objects[d.objectId := LandedObject(p, objects, tx, at, d)], tx, at, drafts[1..], o, j - 1);
    }
  }

  /** After an object's last change nobody is given its key. */
  lemma {:induction false} NobodyAfter(
    p: Pack, objects: map<Id, ObjectRow>, tx: TxId, at: int, drafts: seq<Draft>, i: nat, j: nat)
    requires Admitted(p, objects, tx, at, drafts) && LastOnObject(drafts, i) && i < j < |drafts|
    ensures !(drafts[j].cls.name == drafts[i].cls.name && KeyOf(p, tx, drafts[j]) == KeyOf(p, tx, drafts[i]))
    decreases |drafts|
  {
    var d, rest := drafts[0], drafts[1..];
    var next := objects[d.objectId := LandedObject(p, objects, tx, at, d)];
    forall k | 0 <= k < |rest|
      ensures rest[k] == drafts[k + 1]
    {
    }
    if i == 0 {
      HeldKey(p, next, tx, at, rest, d.objectId, j - 1);
    } else {
      NobodyAfter(p, next, tx, at, rest, i - 1, j - 1);
    }
  }

  // ---- the exact condition ---------------------------------------------------------------------------

  /**
   The last change to give a key gives it to an object that a later change moves on, and the key is not
   the one that later change retires.
   */
  predicate LeavesBehind(p: Pack, pre: map<Id, ObjectRow>, tx: TxId, drafts: seq<Draft>, i: nat) {
    && i < |drafts| && drafts[i].cls.naturalKey != ""
    && !(drafts[i].objectId in pre && pre[drafts[i].objectId].naturalKey == KeyOf(p, tx, drafts[i]))
    && !LastOnObject(drafts, i)
    && forall j :: i < j < |drafts| ==>
        !(drafts[j].cls.name == drafts[i].cls.name && KeyOf(p, tx, drafts[j]) == KeyOf(p, tx, drafts[i]))
  }

  /** The object ends off the empty key it had, which no change retires. */
  predicate LeavesEmpty(p: Pack, pre: map<Id, ObjectRow>, tx: TxId, drafts: seq<Draft>, i: nat) {
    LastOnObject(drafts, i) && Leaves(pre, drafts[i], KeyOf(p, tx, drafts[i]))
  }

  ghost predicate NothingLeft(p: Pack, pre: map<Id, ObjectRow>, tx: TxId, drafts: seq<Draft>) {
    forall i: nat :: !LeavesBehind(p, pre, tx, drafts, i) && !LeavesEmpty(p, pre, tx, drafts, i)
  }

  /** Every change is of a declared class, and of the class its object had before. */
  ghost predicate Classed(p: Pack, pre: map<Id, ObjectRow>, drafts: seq<Draft>) {
    && (forall i :: 0 <= i < |drafts| ==> drafts[i].cls.name in p.classes && p.classes[drafts[i].cls.name] == drafts[i].cls)
    && (forall i :: 0 <= i < |drafts| && drafts[i].objectId in pre ==> pre[drafts[i].objectId].cls == drafts[i].cls.name)
  }

  /** A set that landed, as far as objects and their keys go. */
  ghost predicate KeysLanded(p: Pack, pre: map<Id, ObjectRow>, tx: TxId, at: int, drafts: seq<Draft>) {
    Classed(p, pre, drafts) && Admitted(p, pre, tx, at, drafts) && AllFree(p, pre, drafts) && Unforeseen(pre, tx)
  }

  /** An entry no change touches is as right as it was. */
  lemma OldEntryRight(
    p: Pack, pre: map<Id, ObjectRow>, keys: map<(string, string), KeyRow>, tx: TxId, at: int, drafts: seq<Draft>,
    k: (string, string))
    requires KeysAgree(p, pre, keys) && KeysLanded(p, pre, tx, at, drafts) && NothingLeft(p, pre, tx, drafts)
    requires k in keys && forall i :: 0 <= i < |drafts| ==> !Touches(p, pre, tx, drafts[i], k)
    ensures EntryRight(p, ObjectsAfter(p, pre, tx, at, drafts), k, keys[k])
  {
    var o := keys[k].objectId;
    assert EntryRight(p, pre, k, keys[k]);
    forall i | 0 <= i < |drafts|
      ensures drafts[i].objectId != o
    {
      var last := FindLastOn(drafts, i);
      assert !Touches(p, pre, tx, drafts[last], k) && !LeavesEmpty(p, pre, tx, drafts, last);
    }
    UntouchedObject(p, pre, tx, at, drafts, o);
  }

  /** The object of an entry moves on with a change that leaves the entry alone: it ends elsewhere. */
  lemma EndsElsewhere(
    p: Pack, pre: map<Id, ObjectRow>, tx: TxId, at: int, drafts: seq<Draft>, k: (string, string), i: nat)
    requires Classed(p, pre, drafts) && LastTouching(p, pre, tx, drafts, k, i) && !LastOnObject(drafts, i)
    ensures
      var after := ObjectsAfter(p, pre, tx, at, drafts);
      var o := drafts[i].objectId;
      o in after && !(after[o].cls == k.0 && after[o].naturalKey == k.1)
  {
    var last := FindLastOn(drafts, i);
    LastObject(p, pre, tx, at, drafts, last);
    assert !Touches(p, pre, tx, drafts[last], k);
  }

  /** An entry put by a change is right exactly when the change is the object's last. */
  lemma NewEntry(
    p: Pack, pre: map<Id, ObjectRow>, keys: map<(string, string), KeyRow>, tx: TxId, at: int, drafts: seq<Draft>,
    k: (string, string), i: nat)
    requires Classed(p, pre, drafts) && LastTouching(p, pre, tx, drafts, k, i) && KeyOf(p, tx, drafts[i]) == k.1
    ensures
      var after := EntriesAfter(p, pre, keys, tx, at, drafts);
      && k in after
      && (EntryRight(p, ObjectsAfter(p, pre, tx, at, drafts), k, after[k]) <==> LastOnObject(drafts, i))
  {
    LastEntry(p, pre, keys, tx, at, drafts, k, i);
    if LastOnObject(drafts, i) {
      LastObject(p, pre, tx, at, drafts, i);
    } else {
      EndsElsewhere(p, pre, tx, at, drafts, k, i);
    }
  }

  /** Another object had the key before, so the check of a build keeps this one off it. */
  lemma NotTheirs(p: Pack, pre: map<Id, ObjectRow>, tx: TxId, drafts: seq<Draft>, i: nat, o: Id)
    requires AllFree(p, pre, drafts) && Unforeseen(pre, tx) && i < |drafts| && drafts[i].cls.naturalKey != ""
    requires o in pre && o != drafts[i].objectId && pre[o].cls == drafts[i].cls.name
    ensures pre[o].naturalKey != KeyOf(p, tx, drafts[i])
  {
    assert NaturalKeyFree(pre, drafts[i].cls, drafts[i].objectId, GivenKey(p, drafts[i]));
  }

  /** The last giver of a key touches its entry last, unless its object had the key and is moved on. */
  lemma GiverTouchesLast(p: Pack, pre: map<Id, ObjectRow>, tx: TxId, drafts: seq<Draft>, i: nat)
    requires Classed(p, pre, drafts) && AllFree(p, pre, drafts) && Unforeseen(pre, tx) && i < |drafts| && drafts[i].cls.naturalKey != ""
    requires forall j :: i < j < |drafts| ==>
      !(drafts[j].cls.name == drafts[i].cls.name && KeyOf(p, tx, drafts[j]) == KeyOf(p, tx, drafts[i]))
    requires LastOnObject(drafts, i) || !(drafts[i].objectId in pre && pre[drafts[i].objectId].naturalKey == KeyOf(p, tx, drafts[i]))
    ensures LastTouching(p, pre, tx, drafts, (drafts[i].cls.name, KeyOf(p, tx, drafts[i])), i)
  {
    forall j | i < j < |drafts|
      ensures !Touches(p, pre, tx, drafts[j], (drafts[i].cls.name, KeyOf(p, tx, drafts[i])))
    {
      var o := drafts[j].objectId;
      if o in pre && o != drafts[i].objectId && drafts[j].cls.name == drafts[i].cls.name {
        NotTheirs(p, pre, tx, drafts, i, o);
      }
    }
  }

  /** A key an object had before and is given again is retired by the change that moves it on. */
  lemma RetiredOrLast(p: Pack, pre: map<Id, ObjectRow>, tx: TxId, drafts: seq<Draft>, k: (string, string), i: nat)
    requires Classed(p, pre, drafts) && NothingLeft(p, pre, tx, drafts)
    requires LastTouching(p, pre, tx, drafts, k, i) && KeyOf(p, tx, drafts[i]) == k.1
    ensures LastOnObject(drafts, i)
  {
    var last := FindLastOn(drafts, i);
    assert !LeavesBehind(p, pre, tx, drafts, i) && !LeavesEmpty(p, pre, tx, drafts, last);
    assert last > i ==> !Touches(p, pre, tx, drafts[last], k);
    assert forall j :: i < j < |drafts| ==> !Touches(p, pre, tx, drafts[j], k);
  }

  lemma EntriesStayRight(
    p: Pack, pre: map<Id, ObjectRow>, keys: map<(string, string), KeyRow>, tx: TxId, at: int, drafts: seq<Draft>,
    k: (string, string))
    requires KeysAgree(p, pre, keys) && KeysLanded(p, pre, tx, at, drafts) && NothingLeft(p, pre, tx, drafts)
    ensures
      var after := EntriesAfter(p, pre, keys, tx, at, drafts);
      k in after ==> EntryRight(p, ObjectsAfter(p, pre, tx, at, drafts), k, after[k])
  {
    var i := FindLast(p, pre, tx, drafts, k, |drafts|);
    if i.None? {
      UntouchedEntry(p, pre, keys, tx, at, drafts, k);
      if k in keys {
        OldEntryRight(p, pre, keys, tx, at, drafts, k);
      }
    } else {
      LastEntry(p, pre, keys, tx, at, drafts, k, i.value);
      if KeyOf(p, tx, drafts[i.value]) == k.1 {
        RetiredOrLast(p, pre, tx, drafts, k, i.value);
        NewEntry(p, pre, keys, tx, at, drafts, k, i.value);
      }
    }
  }

  /** An object a change addresses is found under the key it ends with. */
  lemma MovedIndexed(
    p: Pack, pre: map<Id, ObjectRow>, keys: map<(string, string), KeyRow>, tx: TxId, at: int, drafts: seq<Draft>, i: nat)
    requires KeysLanded(p, pre, tx, at, drafts) && LastOnObject(drafts, i)
    ensures
      var o, after := drafts[i].objectId, ObjectsAfter(p, pre, tx, at, drafts);
      o in after && Indexed(p, EntriesAfter(p, pre, keys, tx, at, drafts), o, after[o])
  {
    LastObject(p, pre, tx, at, drafts, i);
    if drafts[i].cls.naturalKey != "" {
      forall j | i < j < |drafts|
        ensures !(drafts[j].cls.name == drafts[i].cls.name && KeyOf(p, tx, drafts[j]) == KeyOf(p, tx, drafts[i]))
      {
        NobodyAfter(p, pre, tx, at, drafts, i, j);
      }
      GiverTouchesLast(p, pre, tx, drafts, i);
      LastEntry(p, pre, keys, tx, at, drafts, (drafts[i].cls.name, KeyOf(p, tx, drafts[i])), i);
    }
  }

  /** So is an object no change addresses. */
  lemma OthersIndexed(
    p: Pack, pre: map<Id, ObjectRow>, keys: map<(string, string), KeyRow>, tx: TxId, at: int, drafts: seq<Draft>, o: Id)
    requires KeysAgree(p, pre, keys) && KeysUnique(pre) && KeysLanded(p, pre, tx, at, drafts)
    requires o in pre && forall i :: 0 <= i < |drafts| ==> drafts[i].objectId != o
    ensures Indexed(p, EntriesAfter(p, pre, keys, tx, at, drafts), o, pre[o])
  {
    var k := (pre[o].cls, pre[o].naturalKey);
    assert Indexed(p, keys, o, pre[o]);
    forall i | 0 <= i < |drafts|
      ensures !Touches(p, pre, tx, drafts[i], k)
    {
      var d := drafts[i];
      if d.cls.naturalKey != "" && d.cls.name == k.0 {
        NotTheirs(p, pre, tx, drafts, i, o);
        assert d.objectId in pre ==> !SameKey(pre[o], pre[d.objectId]);
      }
    }
    UntouchedEntry(p, pre, keys, tx, at, drafts, k);
  }

  lemma AllIndexed(
    p: Pack, pre: map<Id, ObjectRow>, keys: map<(string, string), KeyRow>, tx: TxId, at: int, drafts: seq<Draft>, o: Id)
    requires KeysAgree(p, pre, keys) && KeysUnique(pre) && KeysLanded(p, pre, tx, at, drafts)
    requires o in ObjectsAfter(p, pre, tx, at, drafts)
    ensures Indexed(p, EntriesAfter(p, pre, keys, tx, at, drafts), o, ObjectsAfter(p, pre, tx, at, drafts)[o])
  {
    if forall i :: 0 <= i < |drafts| ==> drafts[i].objectId != o {
      UntouchedObject(p, pre, tx, at, drafts, o);
      OthersIndexed(p, pre, keys, tx, at, drafts, o);
    } else {
      var i :| 0 <= i < |drafts| && drafts[i].objectId == o;
      var last := FindLastOn(drafts, i);
      MovedIndexed(p, pre, keys, tx, at, drafts, last);
    }
  }

  /** The entry of a key an object was moved on from, and that nothing retired. */
  lemma BehindIsWrong(
    p: Pack, pre: map<Id, ObjectRow>, keys: map<(string, string), KeyRow>, tx: TxId, at: int, drafts: seq<Draft>, i: nat)
    requires KeysLanded(p, pre, tx, at, drafts) && LeavesBehind(p, pre, tx, drafts, i)
    ensures !KeysAgree(p, ObjectsAfter(p, pre, tx, at, drafts), EntriesAfter(p, pre, keys, tx, at, drafts))
  {
    GiverTouchesLast(p, pre, tx, drafts, i);
    NewEntry(p, pre, keys, tx, at, drafts, (drafts[i].cls.name, KeyOf(p, tx, drafts[i])), i);
  }

  /** The entry of the empty key, once its object has left it. */
  lemma EmptyIsWrong(
    p: Pack, pre: map<Id, ObjectRow>, keys: map<(string, string), KeyRow>, tx: TxId, at: int, drafts: seq<Draft>, i: nat)
    requires KeysAgree(p, pre, keys) && KeysLanded(p, pre, tx, at, drafts) && LeavesEmpty(p, pre, tx, drafts, i)
    ensures !KeysAgree(p, ObjectsAfter(p, pre, tx, at, drafts), EntriesAfter(p, pre, keys, tx, at, drafts))
  {
    var o, after := drafts[i].objectId, EntriesAfter(p, pre, keys, tx, at, drafts);
    var k := (drafts[i].cls.name, "");
    assert Indexed(p, keys, o, pre[o]);
    LastObject(p, pre, tx, at, drafts, i);
    var t := FindLast(p, pre, tx, drafts, k, |drafts|);
    if t.None? {
      UntouchedEntry(p, pre, keys, tx, at, drafts, k);
    } else {
      var j := t.value;
      LastEntry(p, pre, keys, tx, at, drafts, k, j);
      assert NaturalKeyFree(pre, drafts[j].cls, drafts[j].objectId, GivenKey(p, drafts[j]));
    }
    assert k in after && after[k].objectId == o;
    assert !EntryRight(p, ObjectsAfter(p, pre, tx, at, drafts), k, after[k]);
  }

  /**
   After a write set has landed, whatever objects it addresses and however often, the index names for
   every key the object that has it exactly when the set moves no object on from a key it only passed
   through and that nobody was given afterwards, and takes no object off the empty key.
   */
  lemma IndexAgreesExactly(p: Pack, db: Db, tx: TxId, w: WriteCtx, drafts: seq<Draft>)
    requires DeksOk(db.deks) && KeysUnique(db.rec.objects) && KeysAgree(p, db.rec.objects, db.rec.keys)
    requires Classed(p, db.rec.objects, drafts) && Unforeseen(db.rec.objects, tx)
    requires BuildAll(p, db, w, drafts).Ok? && Apply(db, tx, BuildAll(p, db, w, drafts).value).Some?
    ensures
      var after := Apply(db, tx, BuildAll(p, db, w, drafts).value).value;
      KeysAgree(p, after.rec.objects, after.rec.keys) <==> NothingLeft(p, db.rec.objects, tx, drafts)
  {
    IndexLands(p, db, db, tx, w, drafts);
    var pre, keys := db.rec.objects, db.rec.keys;
    var objects, entries := ObjectsAfter(p, pre, tx, w.at, drafts), EntriesAfter(p, pre, keys, tx, w.at, drafts);
    if NothingLeft(p, pre, tx, drafts) {
      forall k | k in entries
        ensures EntryRight(p, objects, k, entries[k])
      {
        EntriesStayRight(p, pre, keys, tx, w.at, drafts, k);
      }
      forall o | o in objects
        ensures Indexed(p, entries, o, objects[o])
      {
        AllIndexed(p, pre, keys, tx, w.at, drafts, o);
      }
    } else {
      var i: nat :| LeavesBehind(p, pre, tx, drafts, i) || LeavesEmpty(p, pre, tx, drafts, i);
      if LeavesBehind(p, pre, tx, drafts, i) {
        BehindIsWrong(p, pre, keys, tx, w.at, drafts, i);
      } else {
        EmptyIsWrong(p, pre, keys, tx, w.at, drafts, i);
      }
    }
  }
}
