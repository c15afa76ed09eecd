/**
 Signed checkpoints and evidence bundles (`internal/register/checkpoints.go`, `Evidence` in
 `internal/register/query.go`, `internal/checkpoint/checkpoint.go`).

 The ledger is its tree, its version and its lineage head; a commit replaces the tree and moves the
 version by one. A signature is the signed document under the signer's key.
 */
module Checkpoints {
  import opened Outcomes
  import Merkle
  import Lineage

  // ---- documents ------------------------------------------------------------------

  datatype CheckpointRef = CheckpointRef(version: nat, root: string)

  datatype Checkpoint = Checkpoint(
    version: nat, root: string, head: string, issuedAt: int, reason: string, txSeq: nat,
    previous: Option<CheckpointRef>)

  datatype CheckpointSignature = SignedBy(signer: nat, body: Checkpoint)

  datatype Signed = Signed(checkpoint: Checkpoint, signature: CheckpointSignature)

  function Sign(key: nat, cp: Checkpoint): Signed {
    Signed(cp, SignedBy(key, cp))
  }

  predicate VerifyCheckpoint(key: nat, sc: Signed) {
    sc.signature == SignedBy(key, sc.checkpoint)
  }

  function RefTo(cp: Checkpoint): CheckpointRef {
    CheckpointRef(cp.version, cp.root)
  }

  /** Every field of a bundle except its signature, which covers them all. */
  datatype Claim = Claim(
    statement: string, present: bool, path: string, proof: string, root: string, version: nat,
    checkpoint: Signed)

  datatype BundleSignature = SealedBy(signer: nat, body: Claim)

  datatype Bundle = Bundle(claim: Claim, signature: BundleSignature)

  datatype BundleError = BadRoot | BadPath | BadProof | ProofDoesNotHold | WrongPresence | OtherVersion | OtherRoot

  /** `VerifyBundleProof`: recompute the root from the proof, with nothing but the bundle. */
  function VerifyProof(H: Merkle.Hasher, c: Claim): Result<(), BundleError> {
    var root, path, proof := Lineage.ParseHash(c.root), Lineage.ParseHash(c.path), Lineage.DecodeHex(c.proof);
    if root.None? then Err(BadRoot)
    else if path.None? then Err(BadPath)
    else if proof.None? || Merkle.Decode(proof.value).Err? then Err(BadProof)
    else
      var verdict := Merkle.Verify(H, root.value, path.value, Merkle.Decode(proof.value).value);
      if verdict.Err? then Err(ProofDoesNotHold)
      else if verdict.value.present != c.present then Err(WrongPresence)
      else Ok(())
  }

  /** `VerifyBundleAgainstCheckpoint` */
  function VerifyAgainst(c: Claim, cp: Checkpoint): Result<(), BundleError> {
    if cp.version != c.version then Err(OtherVersion)
    else if cp.root != c.root then Err(OtherRoot)
    else Ok(())
  }

  predicate VerifySignature(key: nat, b: Bundle) {
    b.signature == SealedBy(key, b.claim)
  }

  // ---- reading the tree ---------------------------------------------------------------

  function Find(t: Merkle.Tree, path: Merkle.Bytes, depth: nat): Option<Merkle.Digest> {
    match t
    case Empty => None
    case Leaf(p, vh) => if p == path then Some(vh) else None
    case Node(left, right) => Find(if Merkle.BitAt(path, depth) then right else left, path, depth + 1)
  }

  lemma {:induction false} FindMeans(t: Merkle.Tree, prefix: seq<bool>, path: Merkle.Digest)
    requires Merkle.WellFormed(t, prefix)
    ensures Find(t, path, |prefix|).Some? <==> Merkle.Holds(t, path)
    ensures Find(t, path, |prefix|).Some? ==> (path, Find(t, path, |prefix|).value) in Merkle.Entries(t)
    decreases t
  {
    match t
    case Empty =>
    case Leaf(p, vh) =>
      assert (p, vh) in Merkle.Entries(t);
    case Node(left, right) =>
      var bit := Merkle.BitAt(path, |prefix|);
      var child := if bit then right else left;
      FindMeans(child, prefix + [bit], path);
      Merkle.EntriesByBit(t, prefix, path);
      if Merkle.Holds(t, path) {
        var e :| e in Merkle.Entries(t) && e.0 == path;
        assert e in Merkle.Entries(child);
      }
      if Merkle.Holds(child, path) {
        var e :| e in Merkle.Entries(child) && e.0 == path;
        assert e in Merkle.Entries(t);
      }
  }

  // ---- the chain ---------------------------------------------------------------------------

  /** The states of a ledger, one per version, each following from the one before by one commit. */
  ghost predicate Recorded(link: Lineage.Link, history: seq<Lineage.Ledger>) {
    && history != []
    && (forall v :: 0 <= v < |history| ==> history[v].version == v)
    && (forall v :: 0 < v < |history| ==> history[v] == Lineage.Commit(link, history[v - 1], history[v].root))
  }

  lemma RecordedGrows(link: Lineage.Link, history: seq<Lineage.Ledger>, root: Lineage.Hash)
    requires Recorded(link, history)
    ensures Recorded(link, history + [Lineage.Commit(link, history[|history| - 1], root)])
  {
  }

  /** A checkpoint states the root and the head that were current at its version. */
  predicate Attests(cp: Checkpoint, s: Lineage.Ledger) {
    cp.version == s.version && cp.root == Lineage.Hex(s.root) && cp.head == Lineage.Hex(s.head)
  }

  /** The checkpoint a ledger state gets, naming the one issued before it. */
  function Attest(s: Lineage.Ledger, previous: Option<Signed>, reason: string, at: int, txSeq: nat): (cp: Checkpoint)
    ensures Attests(cp, s)
  {
    Checkpoint(
      s.version, Lineage.Hex(s.root), Lineage.Hex(s.head), at, reason, txSeq,
      if previous.Some? then Some(RefTo(previous.value.checkpoint)) else None)
  }

  predicate Supersedes(cp: Checkpoint, previous: Checkpoint) {
    previous.version < cp.version && cp.previous == Some(RefTo(previous))
  }

  predicate Follows(chain: seq<Signed>, i: nat)
    requires i < |chain|
  {
    if i == 0 then chain[i].checkpoint.previous == None
    else Supersedes(chain[i].checkpoint, chain[i - 1].checkpoint)
  }

  ghost predicate Genuine(key: nat, history: seq<Lineage.Ledger>, sc: Signed) {
    && VerifyCheckpoint(key, sc)
    && sc.checkpoint.version < |history|
    && Attests(sc.checkpoint, history[sc.checkpoint.version])
  }

  ghost predicate ChainOk(key: nat, history: seq<Lineage.Ledger>, chain: seq<Signed>) {
    && (forall i: nat :: i < |chain| ==> Genuine(key, history, chain[i]))
    && (forall i: nat :: i < |chain| ==> Follows(chain, i))
  }

  lemma {:induction false} Ascending(chain: seq<Signed>, i: nat, j: nat)
    requires i < j < |chain|
    requires forall k: nat :: k < |chain| ==> Follows(chain, k)
    ensures chain[i].checkpoint.version < chain[j].checkpoint.version
    decreases j
  {
    assert Follows(chain, j);
    if i < j - 1 {
      Ascending(chain, i, j - 1);
    }
  }

  ghost function RootsBetween(history: seq<Lineage.Ledger>, lo: nat, hi: nat): (roots: seq<Lineage.Hash>)
    requires lo <= hi < |history|
    ensures |roots| == hi - lo
    decreases hi
  {
    if lo == hi then [] else RootsBetween(history, lo, hi - 1) + [history[hi].root]
  }

  lemma {:induction false} HistoryAdvances(link: Lineage.Link, history: seq<Lineage.Ledger>, lo: nat, hi: nat)
    requires Recorded(link, history) && lo <= hi < |history|
    ensures Lineage.Advance(link, history[lo], RootsBetween(history, lo, hi)) == history[hi]
    decreases hi
  {
    if lo < hi {
      HistoryAdvances(link, history, lo, hi - 1);
      Lineage.AdvanceLast(link, history[lo], RootsBetween(history, lo, hi - 1), history[hi].root);
    }
  }

  /**
   Any two checkpoints of a chain audit each other: the versions ascend, and the roots recorded
   between them lead from the one to the other.
   */
  lemma {:induction false} ChainAudits(
    link: Lineage.Link, key: nat, history: seq<Lineage.Ledger>, chain: seq<Signed>, i: nat, j: nat)
    requires Recorded(link, history) && ChainOk(key, history, chain)
    requires i < j < |chain|
    ensures
      var a, b := chain[i].checkpoint, chain[j].checkpoint;
      && a.version < b.version < |history|
      && Lineage.Verify(
           link, Lineage.Anchor(a.version, a.root, a.head), Lineage.Anchor(b.version, b.root, b.head),
           Lineage.HexAll(RootsBetween(history, a.version, b.version))) == Ok(())
  {
    var a, b := chain[i].checkpoint, chain[j].checkpoint;
    Ascending(chain, i, j);
    assert Genuine(key, history, chain[i]) && Genuine(key, history, chain[j]);
    HistoryAdvances(link, history, a.version, b.version);
    Lineage.GenuineAccepted(link, history[a.version], RootsBetween(history, a.version, b.version));
  }

  /** A state recorded later changes nothing about the checkpoints already issued. */
  lemma ChainGrowsWith(key: nat, history: seq<Lineage.Ledger>, next: Lineage.Ledger, chain: seq<Signed>)
    requires ChainOk(key, history, chain)
    ensures ChainOk(key, history + [next], chain)
  {
    forall i: nat | i < |chain|
      ensures Genuine(key, history + [next], chain[i])
    {
      assert Genuine(key, history, chain[i]);
      assert (history + [next])[chain[i].checkpoint.version] == history[chain[i].checkpoint.version];
    }
  }

  function Newest(chain: seq<Signed>): Option<Signed> {
    if chain == [] then None else Some(chain[|chain| - 1])
  }

  ghost predicate Current(link: Lineage.Link, history: seq<Lineage.Ledger>, s: Lineage.Ledger) {
    Recorded(link, history) && history[|history| - 1] == s
  }

  /** One more ledger commit: the history grows by it and the chain is as genuine as it was. */
  lemma CommitKeeps(
    link: Lineage.Link, key: nat, history: seq<Lineage.Ledger>, s: Lineage.Ledger, chain: seq<Signed>, root: Lineage.Hash)
    requires Current(link, history, s) && ChainOk(key, history, chain)
    ensures
      var next := Lineage.Commit(link, s, root);
      Current(link, history + [next], next) && ChainOk(key, history + [next], chain)
  {
    RecordedGrows(link, history, root);
    ChainGrowsWith(key, history, Lineage.Commit(link, s, root), chain);
  }

  lemma NewestIsPast(link: Lineage.Link, key: nat, history: seq<Lineage.Ledger>, s: Lineage.Ledger, chain: seq<Signed>)
    requires Current(link, history, s) && ChainOk(key, history, chain) && chain != []
    ensures
      var newest := chain[|chain| - 1];
      && VerifyCheckpoint(key, newest)
      && newest.checkpoint.version <= s.version
      && (newest.checkpoint.version == s.version ==> Attests(newest.checkpoint, s))
  {
    assert Genuine(key, history, chain[|chain| - 1]);
  }

  /** Issuing at the current version extends the chain. */
  lemma ChainExtends(
    link: Lineage.Link, key: nat, history: seq<Lineage.Ledger>, s: Lineage.Ledger, chain: seq<Signed>, sc: Signed,
    reason: string, at: int, txSeq: nat)
    requires Current(link, history, s) && ChainOk(key, history, chain)
    requires chain != [] ==> chain[|chain| - 1].checkpoint.version != s.version
    requires sc == Sign(key, Attest(s, Newest(chain), reason, at, txSeq))
    ensures ChainOk(key, history, chain + [sc])
  {
    var longer := chain + [sc];
    if chain != [] {
      NewestIsPast(link, key, history, s, chain);
    }
    forall i: nat | i < |longer|
      ensures Genuine(key, history, longer[i]) && Follows(longer, i)
    {
      if i < |chain| {
        assert longer[i] == chain[i];
        assert Genuine(key, history, chain[i]) && Follows(chain, i);
        assert i > 0 ==> longer[i - 1] == chain[i - 1];
      } else {
        assert longer[i] == sc;
        assert i > 0 ==> longer[i - 1] == chain[|chain| - 1];
      }
    }
  }

  /** The first `n` checkpoints are below `start` and the next one is not. */
  ghost predicate SplitsAt(chain: seq<Signed>, n: nat, start: nat) {
    && n <= |chain|
    && (forall i: nat :: i < n ==> chain[i].checkpoint.version < start)
    && (n < |chain| ==> chain[n].checkpoint.version >= start)
  }

  lemma SplitOnce(chain: seq<Signed>, m: nat, n: nat, start: nat)
    requires SplitsAt(chain, m, start) && SplitsAt(chain, n, start)
    ensures m == n
  {
  }

  lemma SplitAfter(chain: seq<Signed>, n: nat)
    requires 0 < n <= |chain|
    requires forall k: nat :: k < |chain| ==> Follows(chain, k)
    ensures SplitsAt(chain, n, chain[n - 1].checkpoint.version + 1)
  {
    forall i: nat | i < n - 1
      ensures chain[i].checkpoint.version < chain[n - 1].checkpoint.version
    {
      Ascending(chain, i, n - 1);
    }
    if n < |chain| {
      Ascending(chain, n - 1, n);
    }
  }

  /** One page of the backend's keyspace: at most `limit` checkpoints from `start` on, in key order. */
  method Scan(chain: seq<Signed>, start: nat, limit: nat) returns (page: seq<Signed>, ghost skipped: nat)
    ensures skipped <= |chain| && page == chain[skipped..if skipped + limit <= |chain| then skipped + limit else |chain|]
    ensures SplitsAt(chain, skipped, start)
  {
    var i := 0;
    while i < |chain| && chain[i].checkpoint.version < start
      invariant i <= |chain|
      invariant forall k: nat :: k < i ==> chain[k].checkpoint.version < start
    {
      i := i + 1;
    }
    skipped := i;
    page := chain[i..if i + limit <= |chain| then i + limit else |chain|];
  }

  /** The scan loop of `readCheckpoints`: pages of 256 until one comes back empty. */
  method ReadAll(chain: seq<Signed>) returns (out: seq<Signed>)
    requires forall k: nat :: k < |chain| ==> Follows(chain, k)
    ensures out == chain
  {
    out := [];
    var start: nat := 0;
    while true
      invariant |out| <= |chain| && out == chain[..|out|]
      invariant SplitsAt(chain, |out|, start)
      decreases |chain| - |out|
    {
      var page, skipped := Scan(chain, start, 256);
      SplitOnce(chain, |out|, skipped, start);
      if page == [] {
        break;
      }
      out := out + page;
      start := page[|page| - 1].checkpoint.version + 1;
      assert page[|page| - 1] == chain[|out| - 1];
      SplitAfter(chain, |out|);
    }
  }

  // ---- the register's side ---------------------------------------------------------------------

  class Anchors {
    const H: Merkle.Hasher
    const link: Lineage.Link
    const key: nat

    var tree: Merkle.Tree
    var ledger: Lineage.Ledger
    /** The backend's checkpoint keyspace, in key order. */
    var chain: seq<Signed>
    var lastCkpt: Option<Signed>
    ghost var history: seq<Lineage.Ledger>

    /** What is on disk; a restart starts from here, with no checkpoint in memory. */
    ghost predicate Stored()
      reads `tree, `ledger, `chain, `history
    {
      StateOk() && ChainOk(key, history, chain)
    }

    ghost predicate StateOk()
      reads `tree, `ledger, `history
    {
      && Merkle.WellFormed(tree, [])
      && ledger.root == Merkle.TreeRoot(H, tree)
      && Current(link, history, ledger)
    }

    ghost predicate Valid()
      reads this
    {
      Stored() && lastCkpt == Newest(chain)
    }

    constructor (H: Merkle.Hasher, link: Lineage.Link, key: nat, head: Lineage.Hash)
      ensures Valid() && chain == [] && ledger.version == 0 && tree == Merkle.Empty
    {
      this.H, this.link, this.key := H, link, key;
      tree := Merkle.Empty;
      ledger := Lineage.Ledger(0, Merkle.TreeRoot(H, Merkle.Empty), head);
      chain, lastCkpt := [], None;
      history := [Lineage.Ledger(0, Merkle.TreeRoot(H, Merkle.Empty), head)];
    }

    /** One governance action: one ledger commit, one link. */
    method Commit(next: Merkle.Tree)
      requires Valid() && Merkle.WellFormed(next, [])
      modifies `tree, `ledger, `history
      ensures Valid()
      ensures tree == next && ledger == Lineage.Commit(link, old(ledger), Merkle.TreeRoot(H, next))
      ensures chain == old(chain) && lastCkpt == old(lastCkpt) && history == old(history) + [ledger]
    {
      CommitKeeps(link, key, history, ledger, chain, Merkle.TreeRoot(H, next));
      tree := next;
      ledger := Lineage.Commit(link, ledger, Merkle.TreeRoot(H, next));
      history := history + [ledger];
    }

    /** `issueCheckpoint`: nothing new when the state has not moved. */
    method IssueCheckpoint(reason: string, at: int, txSeq: nat) returns (signed: Option<Signed>)
      requires Valid()
      modifies `chain, `lastCkpt
      ensures Valid() && tree == old(tree) && ledger == old(ledger) && history == old(history)
      ensures signed.None? <==> old(lastCkpt).Some? && old(lastCkpt).value.checkpoint.version == ledger.version
      ensures signed.None? ==> chain == old(chain)
      ensures signed.Some? ==>
        && signed.value == Sign(key, Attest(ledger, old(lastCkpt), reason, at, txSeq))
        && VerifyCheckpoint(key, signed.value) && signed.value.checkpoint.issuedAt == at
        && signed.value.checkpoint.reason == reason && signed.value.checkpoint.txSeq == txSeq
        && (if old(chain) == [] then signed.value.checkpoint.previous == None
            else
              var last := old(chain)[|old(chain)| - 1].checkpoint;
              signed.value.checkpoint.previous == Some(CheckpointRef(last.version, last.root)))
        && chain == old(chain) + [signed.value]
      ensures lastCkpt.Some? && Attests(lastCkpt.value.checkpoint, ledger)
    {
      var previous := lastCkpt;
      if previous.Some? && previous.value.checkpoint.version == ledger.version {
        NewestIsPast(link, key, history, ledger, chain);
        return None;
      }
      var sc := Sign(key, Attest(ledger, previous, reason, at, txSeq));
      ChainExtends(link, key, history, ledger, chain, sc, reason, at, txSeq);
      chain := chain + [sc];
      lastCkpt := Some(sc);
      return Some(sc);
    }

    /** `anchorCurrentState` */
    method AnchorCurrentState(at: int, txSeq: nat) returns (anchor: Signed)
      requires Valid()
      modifies `chain, `lastCkpt
      ensures Valid() && tree == old(tree) && ledger == old(ledger) && history == old(history)
      ensures VerifyCheckpoint(key, anchor) && Attests(anchor.checkpoint, ledger)
      ensures anchor in chain
    {
      var signed := IssueCheckpoint("event", at, txSeq);
      NewestIsPast(link, key, history, ledger, chain);
      if signed.Some? {
        return signed.value;
      }
      return lastCkpt.value;
    }

    /**
     `Evidence`: whatever position is asked about, the bundle passes every check an outsider makes,
     and says what the register's state says about that position.
     */
    method Evidence(path: Merkle.Digest, statement: string, at: int, txSeq: nat) returns (b: Bundle)
      requires Valid()
      modifies `chain, `lastCkpt
      ensures Valid() && tree == old(tree) && ledger == old(ledger) && history == old(history)
      ensures VerifyProof(H, b.claim) == Ok(())
      ensures VerifyAgainst(b.claim, b.claim.checkpoint.checkpoint) == Ok(())
      ensures VerifyCheckpoint(key, b.claim.checkpoint) && VerifySignature(key, b)
      ensures b.claim.checkpoint in chain
      ensures b.claim.present <==> Merkle.Holds(tree, path)
      ensures b.claim.statement == statement && b.claim.path == Lineage.Hex(path) && b.claim.version == ledger.version
    {
      var anchor := AnchorCurrentState(at, txSeq);
      var row := Find(tree, path, 0);
      var proof := Merkle.ProofFor(H, tree, path, 0);
      FindMeans(tree, [], path);
      ProofTravels(H, tree, path);
      var claim := Claim(
        statement, row.Some?, Lineage.Hex(path), Lineage.Hex(Merkle.Encode(proof)), Lineage.Hex(ledger.root),
        ledger.version, anchor);
      ClaimHolds(H, tree, path, claim);
      b := Bundle(claim, SealedBy(key, claim));
    }

    /** `readCheckpoints`: the chain in the order and up to the limit asked for. */
    method ReadCheckpoints(limit: nat, newestFirst: bool) returns (out: seq<Signed>)
      requires Stored()
      ensures
        var all := if newestFirst then Reversed(chain) else chain;
        out == if limit > 0 && |all| > limit then all[..limit] else all
    {
      out := ReadAll(chain);
      if newestFirst {
        out := ReverseOf(out);
      }
      if limit > 0 && |out| > limit {
        out := out[..limit];
      }
    }

    /** `loadLastCheckpoint`: a restart finds the checkpoint the last run issued last. */
    method LoadLastCheckpoint()
      requires Stored() && lastCkpt.None?
      modifies this`lastCkpt
      ensures Valid()
    {
      var list := ReadCheckpoints(1, true);
      if list != [] {
        lastCkpt := Some(list[0]);
      }
    }
  }

  function Reversed<T>(list: seq<T>): (r: seq<T>)
    ensures |r| == |list|
    ensures forall i :: 0 <= i < |list| ==> r[i] == list[|list| - 1 - i]
  {
    if list == [] then [] else Reversed(list[1..]) + [list[0]]
  }

  method ReverseOf(list: seq<Signed>) returns (out: seq<Signed>)
    ensures out == Reversed(list)
  {
    out := list;
    var i, j := 0, |list| - 1;
    while i < j
      invariant |out| == |list| && i + j == |list| - 1 && 0 <= i <= j + 1
      invariant forall k :: 0 <= k < i ==> out[k] == list[|list| - 1 - k]
      invariant forall k :: j < k < |list| ==> out[k] == list[|list| - 1 - k]
      invariant forall k :: i <= k <= j ==> out[k] == list[k]
    {
      var x, y := out[i], out[j];
      out := out[i := y][j := x];
      i, j := i + 1, j - 1;
    }
  }

  /** A proof read off a tree fits the wire and holds. */
  lemma ProofTravels(H: Merkle.Hasher, tree: Merkle.Tree, path: Merkle.Digest)
    requires Merkle.WellFormed(tree, [])
    ensures
      var proof := Merkle.ProofFor(H, tree, path, 0);
      && |proof.siblings| < 0x1_0000
      && Lineage.DecodeHex(Lineage.Hex(Merkle.Encode(proof))) == Some(Merkle.Encode(proof))
      && Merkle.Decode(Merkle.Encode(proof)) == Ok(proof)
  {
    var proof := Merkle.ProofFor(H, tree, path, 0);
    Merkle.Completeness(H, tree, path);
    Merkle.DecodeEncode(proof);
    Lineage.HexReads(Merkle.Encode(proof));
  }

  lemma ClaimHolds(H: Merkle.Hasher, tree: Merkle.Tree, path: Merkle.Digest, c: Claim)
    requires Merkle.WellFormed(tree, [])
    requires |Merkle.ProofFor(H, tree, path, 0).siblings| < 0x1_0000
    requires c.proof == Lineage.Hex(Merkle.Encode(Merkle.ProofFor(H, tree, path, 0)))
    requires c.root == Lineage.Hex(Merkle.TreeRoot(H, tree)) && c.path == Lineage.Hex(path)
    requires c.present <==> Merkle.Holds(tree, path)
    ensures VerifyProof(H, c) == Ok(())
  {
    ProofTravels(H, tree, path);
    Lineage.HashReads(Merkle.TreeRoot(H, tree));
    Lineage.HashReads(path);
    Merkle.Completeness(H, tree, path);
  }

  /**
   An outsider's conclusion. Whoever made the bundle, if its proof verifies and it names the state
   of a checkpoint that attests this tree, it tells the truth about the position or exhibits a
   collision of the hash.
   */
  lemma BundleTruth(H: Merkle.Hasher, tree: Merkle.Tree, s: Lineage.Ledger, cp: Checkpoint, c: Claim)
    requires Merkle.Separated(H) && Merkle.WellFormed(tree, []) && s.root == Merkle.TreeRoot(H, tree)
    requires Attests(cp, s)
    requires VerifyProof(H, c) == Ok(()) && VerifyAgainst(c, cp) == Ok(())
    ensures c.version == s.version
    ensures
      var path := Lineage.ParseHash(c.path).value;
      var proof := Merkle.Decode(Lineage.DecodeHex(c.proof).value).value;
      || (c.present <==> Merkle.Holds(tree, path))
      || Merkle.Collides(H, Merkle.TreeInputs(H, tree) + Merkle.Inputs(H, path, proof))
  {
    Lineage.HashReads(s.root);
    var path := Lineage.ParseHash(c.path).value;
    var proof := Merkle.Decode(Lineage.DecodeHex(c.proof).value).value;
    Merkle.Soundness(H, tree, path, proof);
  }
}
