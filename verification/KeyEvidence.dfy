/**
 Evidence that a natural key is, or is not, registered (`internal/register/query.go`, `NaturalKeyEvidence`):
 what a bundle about one position of the authenticated state says of the register's records.
 */
module KeyEvidence {
  import opened Outcomes
  import opened Tables
  import opened Packs
  import opened RecordInvariant
  import opened Runs
  import opened RunSafety
  import ReadBack
  import Merkle
  import Lineage
  import Checkpoints

  // ---- where the index lies in the state ---------------------------------------------------

  /** Some row's key in the ledger hashes to this position. */
  ghost predicate Positioned(H: Merkle.Hasher, ledger: set<Merkle.Bytes>, path: Merkle.Digest) {
    exists lk :: lk in ledger && H.sha(lk) == path
  }

  /**
   The authenticated tree of a state: a leaf for every row of every table, under the hash of the row's key
   in the ledger; `keyOf` gives those of the natural-key index.
   */
  ghost predicate Mirrors(
    H: Merkle.Hasher, keyOf: (string, string) -> Merkle.Bytes, t: Merkle.Tree, ledger: set<Merkle.Bytes>, rec: Records)
  {
    && Merkle.WellFormed(t, [])
    && (forall path: Merkle.Digest :: Merkle.Holds(t, path) <==> Positioned(H, ledger, path))
    && (forall cls, k :: keyOf(cls, k) in ledger <==> (cls, k) in rec.keys)
  }

  /** The position of an index entry is taken exactly when the entry is there, or two ledger keys collide. */
  lemma PositionMeans(
    H: Merkle.Hasher, keyOf: (string, string) -> Merkle.Bytes, t: Merkle.Tree, ledger: set<Merkle.Bytes>, rec: Records,
    cls: string, k: string)
    requires Mirrors(H, keyOf, t, ledger, rec)
    ensures
      || (Merkle.Holds(t, H.sha(keyOf(cls, k))) <==> (cls, k) in rec.keys)
      || Merkle.Collides(H, ledger + {keyOf(cls, k)})
  {
    var mine := keyOf(cls, k);
    assert mine in ledger <==> (cls, k) in rec.keys;
    assert Merkle.Holds(t, H.sha(mine)) <==> Positioned(H, ledger, H.sha(mine));
    if Positioned(H, ledger, H.sha(mine)) && mine !in ledger {
      var lk :| lk in ledger && H.sha(lk) == H.sha(mine);
      assert Merkle.Clash(H, lk, mine);
    }
  }

  // ---- what an entry says of the records ----------------------------------------------------------

  /** The object, and no other of its class, is registered under the key; its head gives that key, or the placeholder. */
  ghost predicate RegisteredAs(p: Pack, rec: Records, cls: string, k: string, o: Id) {
    && ReadBack.Headed(p, rec, o) && rec.objects[o].cls == cls && rec.objects[o].naturalKey == k
    && (ReadBack.HeadKey(p, rec, o) == k || ReadBack.HeadKey(p, rec, o) == PLACEHOLDER)
    && forall q :: q in rec.objects && rec.objects[q].cls == cls && rec.objects[q].naturalKey == k ==> q == o
  }

  /** No object of the class is registered under the key, and no head gives it unless it is the placeholder. */
  ghost predicate Unregistered(p: Pack, rec: Records, cls: string, k: string) {
    forall o :: o in rec.objects && rec.objects[o].cls == cls ==>
      && rec.objects[o].naturalKey != k
      && ReadBack.Headed(p, rec, o) && (ReadBack.HeadKey(p, rec, o) == k ==> k == PLACEHOLDER)
  }

  lemma EntryTells(p: Pack, calls: seq<Call>, cls: string, k: string)
    requires PackSound(p) && SoundRun(p, Blank(), calls)
    requires cls in p.classes && p.classes[cls].naturalKey != ""
    ensures
      var rec := Run(p, Blank(), calls).rec;
      && ((cls, k) in rec.keys ==> RegisteredAs(p, rec, cls, k, rec.keys[(cls, k)].objectId))
      && ((cls, k) !in rec.keys ==> Unregistered(p, rec, cls, k))
  {
    IndexTellsTheTruth(p, calls, cls, k);
    GivenKeysExactly(p, calls, cls);
    ReachableInv(p, calls);
    var db := Run(p, Blank(), calls);
    forall o | o in db.rec.objects
      ensures HeadOk(p, p.classes[db.rec.objects[o].cls], o, db.rec.objects[o], db.rec.versions[(o, db.rec.objects[o].head)])
    {
      ReadBack.HeadRow(p, db.rec, db.deks, o);
    }
  }

  // ---- the outsider's conclusion --------------------------------------------------------------------

  /**
   Whoever made the bundle: if its proof verifies at the position of a natural key, and it names the state
   of a checkpoint that attests the tree of a reachable state, then a bundle of absence means that no record
   of the class has the key, and one of presence that exactly one has; or the hash collides on what was
   hashed to get there.
   */
  lemma KeyBundleTruth(
    p: Pack, calls: seq<Call>, cls: string, k: string, H: Merkle.Hasher, keyOf: (string, string) -> Merkle.Bytes,
    t: Merkle.Tree, ledger: set<Merkle.Bytes>, s: Lineage.Ledger, cp: Checkpoints.Checkpoint, c: Checkpoints.Claim)
    requires PackSound(p) && SoundRun(p, Blank(), calls)
    requires cls in p.classes && p.classes[cls].naturalKey != ""
    requires Mirrors(H, keyOf, t, ledger, Run(p, Blank(), calls).rec)
    requires Merkle.Separated(H) && s.root == Merkle.TreeRoot(H, t) && Checkpoints.Attests(cp, s)
    requires Checkpoints.VerifyProof(H, c) == Ok(()) && Checkpoints.VerifyAgainst(c, cp) == Ok(())
    requires Lineage.ParseHash(c.path) == Some(H.sha(keyOf(cls, k)))
    ensures
      var rec := Run(p, Blank(), calls).rec;
      var proof := Merkle.Decode(Lineage.DecodeHex(c.proof).value).value;
      || (if c.present then exists o :: RegisteredAs(p, rec, cls, k, o) else Unregistered(p, rec, cls, k))
      || Merkle.Collides(H, Merkle.TreeInputs(H, t) + Merkle.Inputs(H, H.sha(keyOf(cls, k)), proof))
      || Merkle.Collides(H, ledger + {keyOf(cls, k)})
  {
    var rec := Run(p, Blank(), calls).rec;
    Checkpoints.BundleTruth(H, t, s, cp, c);
    PositionMeans(H, keyOf, t, ledger, rec, cls, k);
    EntryTells(p, calls, cls, k);
  }
}
