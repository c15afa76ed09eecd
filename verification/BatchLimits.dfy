/**
 What a batch must satisfy, exactly: the conditions under which landing a write set keeps the tables
 in agreement, and what is lost when they do not hold.
 */
module BatchLimits {
  import opened Outcomes
  import opened Tables
  import opened Packs
  import opened RecordBuild
  import opened RecordInvariant
  import opened RecordSafety
  import opened Batch

  // ---- what landing a batch writes, whatever it was built against ----------------------------

  function Minting(w: WriteCtx, d: Draft): Dek {
    var s := DekScope(d.cls, d.objectId);
    Dek(Wrapped(s, d.minted), if w.recover then Wrapped(s, d.minted) else NoWrap, w.at, 0)
  }

  function KeysAfter(pre: map<Scope, Dek>, now: map<Scope, Dek>, w: WriteCtx, drafts: seq<Draft>): map<Scope, Dek>
    decreases |drafts|
  {
    if drafts == [] then now
    else
      var d := drafts[0];
      var next := if Mints(pre, d) then now[DekScope(d.cls, d.objectId) := Minting(w, d)] else now;
      KeysAfter(pre, next, w, drafts[1..])
  }

  function KeyUsed(pre: map<Scope, Dek>, w: WriteCtx, d: Draft): Key {
    var e := EnsureFor(pre, w, d);
    if e.Ok? then e.value.key else 0
  }

  function VersionsAfter(
    pre: map<Scope, Dek>, versions: map<(Id, nat), VersionRow>, tx: TxId, w: WriteCtx, drafts: seq<Draft>)
    : map<(Id, nat), VersionRow>
    decreases |drafts|
  {
    if drafts == [] then versions
    else
      var d := drafts[0];
      VersionsAfter(
        pre, versions[(d.objectId, d.version) := LandedVersion(tx, w.at, d, KeyUsed(pre, w, d))], tx, w, drafts[1..])
  }

  lemma {:induction false} RawLands(p: Pack, pre: Db, now: Db, tx: TxId, w: WriteCtx, drafts: seq<Draft>)
    requires DeksOk(pre.deks) && BuildAll(p, pre, w, drafts).Ok?
    requires Apply(now, tx, BuildAll(p, pre, w, drafts).value).Some?
    ensures
      var after := Apply(now, tx, BuildAll(p, pre, w, drafts).value).value;
      && after.deks == KeysAfter(pre.deks, now.deks, w, drafts)
      && after.rec.versions == VersionsAfter(pre.deks, now.rec.versions, tx, w, drafts)
    decreases |drafts|
  {
    if drafts != [] {
      var d := drafts[0];
      var ops := BuildRecord(p, pre, w, d).value;
      BuiltParts(p, pre, w, d);
      var e := EnsureFor(pre.deks, w, d).value;
      DeksGrow(pre.deks, w, d, e);
      RecordLands(p, now, tx, w, d, e, pre.rec.objects);
      ApplyAppend(now, tx, ops, BuildAll(p, pre, After(w, d), drafts[1..]).value);
      assert LandedDeks(now.deks, w, d, e) ==
        if Mints(pre.deks, d) then now.deks[DekScope(d.cls, d.objectId) := Minting(w, d)] else now.deks;
      RawLands(p, pre, Apply(now, tx, ops).value, tx, After(w, d), drafts[1..]);
      PendingIrrelevant(pre.deks, LandedDeks(now.deks, w, d, e), Apply(now, tx, ops).value.rec.versions, tx, w, After(w, d), drafts[1..]);
    }
  }

  lemma {:induction false} PendingIrrelevant(
    pre: map<Scope, Dek>, now: map<Scope, Dek>, versions: map<(Id, nat), VersionRow>, tx: TxId, w: WriteCtx,
    u: WriteCtx, drafts: seq<Draft>)
    requires w.at == u.at && w.recover == u.recover
    ensures KeysAfter(pre, now, w, drafts) == KeysAfter(pre, now, u, drafts)
    ensures VersionsAfter(pre, versions, tx, w, drafts) == VersionsAfter(pre, versions, tx, u, drafts)
    decreases |drafts|
  {
    if drafts != [] {
      var d := drafts[0];
      var next := if Mints(pre, d) then now[DekScope(d.cls, d.objectId) := Minting(w, d)] else now;
      assert KeyUsed(pre, w, d) == KeyUsed(pre, u, d);
      PendingIrrelevant(
        pre, next, versions[(d.objectId, d.version) := LandedVersion(tx, w.at, d, KeyUsed(pre, w, d))], tx, w, u,
        drafts[1..]);
    }
  }

  // ---- the last writer wins --------------------------------------------------------------------

  predicate Writes(d: Draft, k: (Id, nat)) {
    d.objectId == k.0 && d.version == k.1
  }

  lemma {:induction false} UntouchedVersion(
    pre: map<Scope, Dek>, versions: map<(Id, nat), VersionRow>, tx: TxId, w: WriteCtx, drafts: seq<Draft>, k: (Id, nat))
    requires forall i :: 0 <= i < |drafts| ==> !Writes(drafts[i], k)
    ensures k in VersionsAfter(pre, versions, tx, w, drafts) <==> k in versions
    ensures k in versions ==> VersionsAfter(pre, versions, tx, w, drafts)[k] == versions[k]
    decreases |drafts|
  {
    if drafts != [] {
      var d := drafts[0];
      assert !Writes(drafts[0], k);
      forall i | 0 <= i < |drafts[1..]|
        ensures !Writes(drafts[1..][i], k)
      {
        assert drafts[1..][i] == drafts[i + 1];
      }
      UntouchedVersion(
        pre, versions[(d.objectId, d.version) := LandedVersion(tx, w.at, d, KeyUsed(pre, w, d))], tx, w, drafts[1..], k);
    }
  }

  lemma {:induction false} LastVersion(
    pre: map<Scope, Dek>, versions: map<(Id, nat), VersionRow>, tx: TxId, w: WriteCtx, drafts: seq<Draft>, i: nat)
    requires i < |drafts|
    requires forall j :: i < j < |drafts| ==> !Writes(drafts[j], (drafts[i].objectId, drafts[i].version))
    ensures
      var k := (drafts[i].objectId, drafts[i].version);
      var after := VersionsAfter(pre, versions, tx, w, drafts);
      k in after && after[k] == LandedVersion(tx, w.at, drafts[i], KeyUsed(pre, w, drafts[i]))
    decreases |drafts|
  {
    var d, rest := drafts[0], drafts[1..];
    var next := versions[(d.objectId, d.version) := LandedVersion(tx, w.at, d, KeyUsed(pre, w, d))];
    forall j | 0 <= j < |rest|
      ensures rest[j] == drafts[j + 1]
    {
    }
    if i == 0 {
      UntouchedVersion(pre, next, tx, w, rest, (d.objectId, d.version));
    } else {
      LastVersion(pre, next, tx, w, rest, i - 1);
    }
  }

  lemma {:induction false} UntouchedKey(
    pre: map<Scope, Dek>, now: map<Scope, Dek>, w: WriteCtx, drafts: seq<Draft>, s: Scope)
    requires forall i :: 0 <= i < |drafts| ==> !(Mints(pre, drafts[i]) && DekScope(drafts[i].cls, drafts[i].objectId) == s)
    ensures s in KeysAfter(pre, now, w, drafts) <==> s in now
    ensures s in now ==> KeysAfter(pre, now, w, drafts)[s] == now[s]
    decreases |drafts|
  {
    if drafts != [] {
      var d, rest := drafts[0], drafts[1..];
      assert !(Mints(pre, drafts[0]) && DekScope(drafts[0].cls, drafts[0].objectId) == s);
      forall i | 0 <= i < |rest|
        ensures !(Mints(pre, rest[i]) && DekScope(rest[i].cls, rest[i].objectId) == s)
      {
        assert rest[i] == drafts[i + 1];
      }
      UntouchedKey(pre, if Mints(pre, d) then now[DekScope(d.cls, d.objectId) := Minting(w, d)] else now, w, rest, s);
    }
  }

  /** A key minted by change `j` and possibly again later ends up being the last one minted. */
  lemma {:induction false} LastMint(pre: map<Scope, Dek>, now: map<Scope, Dek>, w: WriteCtx, drafts: seq<Draft>, j: nat)
    returns (last: nat)
    requires j < |drafts| && Mints(pre, drafts[j])
    ensures j <= last < |drafts| && Mints(pre, drafts[last])
    ensures DekScope(drafts[last].cls, drafts[last].objectId) == DekScope(drafts[j].cls, drafts[j].objectId)
    ensures forall k :: last < k < |drafts| ==> !MintTogether(pre, drafts[j], drafts[k])
    ensures
      var s := DekScope(drafts[j].cls, drafts[j].objectId);
      var after := KeysAfter(pre, now, w, drafts);
      s in after && after[s] == Minting(w, drafts[last])
    decreases |drafts|
  {
    var d, rest := drafts[0], drafts[1..];
    var next := if Mints(pre, d) then now[DekScope(d.cls, d.objectId) := Minting(w, d)] else now;
    var s := DekScope(drafts[j].cls, drafts[j].objectId);
    forall k | 0 < k < |drafts|
      ensures drafts[k] == rest[k - 1]
    {
    }
    if j > 0 {
      assert rest[j - 1] == drafts[j];
      last := LastMint(pre, next, w, rest, j - 1);
      last := last + 1;
    } else if k :| 0 <= k < |rest| && Mints(pre, rest[k]) && DekScope(rest[k].cls, rest[k].objectId) == s {
      last := LastMint(pre, next, w, rest, k);
      last := last + 1;
    } else {
      UntouchedKey(pre, next, w, rest, s);
      last := 0;
    }
  }

  // ---- minting one key twice ----------------------------------------------------------------------

  ghost predicate KeysDistinct(drafts: seq<Draft>) {
    forall i, j :: 0 <= i < j < |drafts| ==> drafts[i].minted != drafts[j].minted
  }

  /** A reader with every clearance, asking for what change `i` wrote. */
  function ReadBack(db: Db, d: Draft): Result<Reading, Refusal> {
    if (d.objectId, d.version) !in db.rec.versions then Err(Refused("no versions"))
    else ReadRow(db.deks, true, d.objectId, d.version, db.rec.versions[(d.objectId, d.version)])
  }

  lemma KeyedVersionFits(p: Pack, rec: Records, deks: map<Scope, Dek>, k: (Id, nat))
    requires RecordsOk(p, rec, deks) && k in rec.versions
    ensures rec.versions[k].hash.KeyedHash? ==> KeyFits(deks, rec.versions[k].scope, rec.versions[k].hash.key)
  {
    assert ObjectOk(p, rec, deks, k.0);
    assert VersionOk(p.classes[rec.objects[k.0].cls], deks, k.0, k.1, rec.versions[k]);
  }

  /** The record sealed under a key that the same write set then replaced. */
  lemma Overwritten(p: Pack, db: Db, after: Db, tx: TxId, w: WriteCtx, drafts: seq<Draft>, i: nat, j: nat)
    requires DeksOk(db.deks) && Distinct(drafts) && KeysDistinct(drafts)
    requires i < j < |drafts| && MintTogether(db.deks, drafts[i], drafts[j])
    requires after.deks == KeysAfter(db.deks, db.deks, w, drafts)
    requires after.rec.versions == VersionsAfter(db.deks, db.rec.versions, tx, w, drafts)
    ensures ReadBack(after, drafts[i]) == Err(Refused("decrypt"))
    ensures !RecordsOk(p, after.rec, after.deks)
  {
    var d := drafts[i];
    var s := DekScope(d.cls, d.objectId);
    LastVersion(db.deks, db.rec.versions, tx, w, drafts, i);
    var last := LastMint(db.deks, db.deks, w, drafts, j);
    var row := LandedVersion(tx, w.at, d, d.minted);
    assert KeyUsed(db.deks, w, d) == d.minted;
    assert after.rec.versions[(d.objectId, d.version)] == row;
    assert after.deks[s] == Minting(w, drafts[last]) && drafts[last].minted != d.minted;
    if RecordsOk(p, after.rec, after.deks) {
      KeyedVersionFits(p, after.rec, after.deks, (d.objectId, d.version));
    }
  }

  /**
   `ensureDEK` looks only at the store. A landed write set leaves the tables in agreement exactly when
   no two of its changes need the same key that does not exist yet; otherwise the earlier of the two
   records cannot be opened by anybody.
   */
  lemma MintedOnceExactly(p: Pack, db: Db, tx: TxId, at: int, recover: bool, drafts: seq<Draft>)
    requires RecordsOk(p, db.rec, db.deks) && AllProper(p, db.rec.objects, drafts)
    requires Distinct(drafts) && KeysDistinct(drafts)
    requires BuildAll(p, db, WriteCtx(at, recover, map[]), drafts).Ok?
    requires Apply(db, tx, BuildAll(p, db, WriteCtx(at, recover, map[]), drafts).value).Some?
    ensures
      var after := Apply(db, tx, BuildAll(p, db, WriteCtx(at, recover, map[]), drafts).value).value;
      && (RecordsOk(p, after.rec, after.deks) <==> MintsOnce(db.deks, drafts))
      && (forall i, j :: 0 <= i < j < |drafts| && MintTogether(db.deks, drafts[i], drafts[j]) ==>
            ReadBack(after, drafts[i]) == Err(Refused("decrypt")))
  {
    var w := WriteCtx(at, recover, map[]);
    var after := Apply(db, tx, BuildAll(p, db, w, drafts).value).value;
    RawLands(p, db, db, tx, w, drafts);
    if MintsOnce(db.deks, drafts) {
      BatchIsSequential(p, db, tx, at, recover, drafts);
    }
    forall i, j | 0 <= i < j < |drafts| && MintTogether(db.deks, drafts[i], drafts[j])
      ensures ReadBack(after, drafts[i]) == Err(Refused("decrypt")) && !RecordsOk(p, after.rec, after.deks)
    {
      Overwritten(p, db, after, tx, w, drafts, i, j);
    }
  }

  /** The last change to mint the key that change `i` was sealed under, when that was another key. */
  predicate Replaces(deks: map<Scope, Dek>, drafts: seq<Draft>, i: nat, j: nat) {
    && i < j < |drafts| && MintTogether(deks, drafts[i], drafts[j]) && drafts[i].minted != drafts[j].minted
    && forall k :: j < k < |drafts| ==> !MintTogether(deks, drafts[i], drafts[k])
  }

  /** What a sealed version opens as under a live key of its scope. */
  lemma OpensUnder(db: Db, tx: TxId, at: int, d: Draft, key: Key)
    requires (d.objectId, d.version) in db.rec.versions && db.rec.versions[(d.objectId, d.version)] == LandedVersion(tx, at, d, key)
    requires !d.cls.encryption.EncNone? && DekScope(d.cls, d.objectId) in db.deks
    requires
      var s := DekScope(d.cls, d.objectId);
      db.deks[s].Live() && db.deks[s].opWrap.Wrapped? && db.deks[s].opWrap.scope == s
    ensures
      ReadBack(db, d) ==
      if db.deks[DekScope(d.cls, d.objectId)].opWrap.key == key then Ok(Read(d.payload, false, false)) else Err(Refused("decrypt"))
  {
    SplitMerges(d.cls.pii, d.payload);
  }

  /**
   Of any write set that lands, however its changes overlap and whatever keys they mint: the last change
   to an object reads back as written, unless a later change minted the same key anew and it came out
   different; then nobody can open it.
   */
  lemma OpensExactly(p: Pack, db: Db, tx: TxId, w: WriteCtx, drafts: seq<Draft>, i: nat)
    requires DeksOk(db.deks) && AllProper(p, db.rec.objects, drafts)
    requires BuildAll(p, db, w, drafts).Ok? && Apply(db, tx, BuildAll(p, db, w, drafts).value).Some?
    requires i < |drafts| && !drafts[i].cls.encryption.EncNone?
    requires forall j :: i < j < |drafts| ==> drafts[j].objectId != drafts[i].objectId
    ensures
      ReadBack(Apply(db, tx, BuildAll(p, db, w, drafts).value).value, drafts[i]) ==
      if exists j :: Replaces(db.deks, drafts, i, j) then Err(Refused("decrypt")) else Ok(Read(drafts[i].payload, false, false))
  {
    var d, after := drafts[i], Apply(db, tx, BuildAll(p, db, w, drafts).value).value;
    var s := DekScope(d.cls, d.objectId);
    RawLands(p, db, db, tx, w, drafts);
    LastVersion(db.deks, db.rec.versions, tx, w, drafts, i);
    BuiltAt(p, db, w, drafts, i);
    if Mints(db.deks, d) {
      var last := LastMint(db.deks, db.deks, w, drafts, i);
      assert KeyUsed(db.deks, w, d) == d.minted;
      if last > i && drafts[last].minted != d.minted {
        assert Replaces(db.deks, drafts, i, last);
      } else {
        assert forall j :: Replaces(db.deks, drafts, i, j) ==> j == last;
      }
    } else {
      UntouchedKey(db.deks, db.deks, w, drafts, s);
      assert DekOk(s, db.deks[s]);
    }
    OpensUnder(after, tx, w.at, d, KeyUsed(db.deks, w, d));
  }

  /** Every change of a write set that was built got its key. */
  lemma {:induction false} BuiltAt(p: Pack, db: Db, w: WriteCtx, drafts: seq<Draft>, i: nat)
    requires BuildAll(p, db, w, drafts).Ok? && i < |drafts|
    ensures EnsureFor(db.deks, w, drafts[i]).Ok?
    decreases |drafts|
  {
    BuiltParts(p, db, w, drafts[0]);
    if i > 0 {
      BuiltAt(p, db, After(w, drafts[0]), drafts[1..], i - 1);
      assert drafts[1..][i - 1] == drafts[i];
    }
  }

  // ---- two changes to one object -------------------------------------------------------------------

  predicate Stores(versions: map<(Id, nat), VersionRow>, d: Draft) {
    && (d.objectId, d.version) in versions
    && versions[(d.objectId, d.version)].hash.payload == d.payload
    && versions[(d.objectId, d.version)].status == d.status
  }

  /** Two changes to one object that say different things. */
  predicate Conflict(a: Draft, b: Draft) {
    a.objectId == b.objectId && (a.payload != b.payload || a.status != b.status)
  }

  lemma {:induction false} LastOn(drafts: seq<Draft>, i: nat) returns (last: nat)
    requires i < |drafts|
    ensures i <= last < |drafts| && drafts[last].objectId == drafts[i].objectId
    ensures forall j :: last < j < |drafts| ==> drafts[j].objectId != drafts[i].objectId
    decreases |drafts| - i
  {
    if j :| i < j < |drafts| && drafts[j].objectId == drafts[i].objectId {
      last := LastOn(drafts, j);
    } else {
      last := i;
    }
  }

  /** Which of the changes to an object is the one recorded. */
  lemma RecordedBy(
    p: Pack, db: Db, versions: map<(Id, nat), VersionRow>, tx: TxId, w: WriteCtx, drafts: seq<Draft>, i: nat)
    returns (last: nat)
    requires AllProper(p, db.rec.objects, drafts) && i < |drafts|
    requires versions == VersionsAfter(db.deks, db.rec.versions, tx, w, drafts)
    ensures i <= last < |drafts| && drafts[last].objectId == drafts[i].objectId
    ensures (drafts[i].objectId, drafts[i].version) in versions
    ensures
      var row := versions[(drafts[i].objectId, drafts[i].version)];
      row.hash.payload == drafts[last].payload && row.status == drafts[last].status
  {
    last := LastOn(drafts, i);
    assert Proper(p, db.rec.objects, drafts[i]) && Proper(p, db.rec.objects, drafts[last]);
    LastVersion(db.deks, db.rec.versions, tx, w, drafts, last);
  }

  ghost predicate AllStored(versions: map<(Id, nat), VersionRow>, drafts: seq<Draft>) {
    forall i :: 0 <= i < |drafts| ==> Stores(versions, drafts[i])
  }

  ghost predicate NoConflict(drafts: seq<Draft>) {
    forall i, j :: 0 <= i < j < |drafts| ==> !Conflict(drafts[i], drafts[j])
  }

  /**
   Two effects of one write set on one object both write the version after the head, and the later
   one replaces the earlier. What every change said is recorded exactly when no two changes say
   different things about one object.
   */
  lemma NoUpdateLostExactly(p: Pack, db: Db, tx: TxId, w: WriteCtx, drafts: seq<Draft>)
    requires DeksOk(db.deks) && AllProper(p, db.rec.objects, drafts)
    requires BuildAll(p, db, w, drafts).Ok? && Apply(db, tx, BuildAll(p, db, w, drafts).value).Some?
    ensures
      var after := Apply(db, tx, BuildAll(p, db, w, drafts).value).value;
      AllStored(after.rec.versions, drafts) <==> NoConflict(drafts)
  {
    RawLands(p, db, db, tx, w, drafts);
    LastWriterExactly(p, db, VersionsAfter(db.deks, db.rec.versions, tx, w, drafts), tx, w, drafts);
  }

  lemma LastWriterExactly(
    p: Pack, db: Db, versions: map<(Id, nat), VersionRow>, tx: TxId, w: WriteCtx, drafts: seq<Draft>)
    requires AllProper(p, db.rec.objects, drafts)
    requires versions == VersionsAfter(db.deks, db.rec.versions, tx, w, drafts)
    ensures AllStored(versions, drafts) <==> NoConflict(drafts)
  {
    if AllStored(versions, drafts) {
      forall i, j | 0 <= i < j < |drafts|
        ensures !Conflict(drafts[i], drafts[j])
      {
        assert Proper(p, db.rec.objects, drafts[i]) && Proper(p, db.rec.objects, drafts[j]);
        assert Stores(versions, drafts[i]) && Stores(versions, drafts[j]);
      }
    }
    if NoConflict(drafts) {
      forall i | 0 <= i < |drafts|
        ensures Stores(versions, drafts[i])
      {
        var last := RecordedBy(p, db, versions, tx, w, drafts, i);
        assert i < last ==> !Conflict(drafts[i], drafts[last]);
      }
    }
  }
}
