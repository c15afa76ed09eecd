/**
 The browser-side verifier of a sparse Merkle proof (`ui/src/lib/verify.js`).

 The hash is a parameter `H`, an arbitrary function from byte strings to 32 bytes: nothing below
 assumes that it has no collisions, which no function to 32 bytes could satisfy. A theorem says
 instead that a wrong answer hands over a collision, between two inputs that the runs in question
 really hashed (`Inputs`, `TreeInputs`). Domain separation is a consequence of the tags, not an
 assumption.
 */
module Merkle {
  import opened Bits
  import opened Outcomes

  type Bytes = seq<Byte>
  type Digest = d: Bytes | |d| == 32 witness seq(32, _ => ZERO)
  type HashFn = Bytes -> Digest

  /** The bytes of a text whose characters are single bytes, as the three tags are. */
  function Ascii(text: string): Bytes {
    seq(|text|, i requires 0 <= i < |text| => ByteOf(text[i] as int % 256))
  }

  /** A hash function with the tags its three kinds of input begin with. */
  datatype Hasher = Hasher(sha: HashFn, leafTag: Bytes, nodeTag: Bytes, placeholderTag: Bytes)

  function RegisterHasher(sha: HashFn): Hasher {
    Hasher(
      sha,
      Ascii("enclave-os-merkle:leaf:v1"),
      Ascii("enclave-os-merkle:node:v1"),
      Ascii("ENCLAVE_OS_MERKLE_PLACEHOLDER"))
  }

  /** No input of one kind can be an input of another kind. */
  predicate Separated(H: Hasher) {
    && |H.leafTag| == |H.nodeTag| && H.leafTag != H.nodeTag
    && |H.placeholderTag| < |H.leafTag| + 64
  }

  /** The tags in the source are apart: two of 25 characters that differ in the nineteenth, one of 29. */
  lemma RegisterTagsSeparated(sha: HashFn)
    ensures Separated(RegisterHasher(sha))
  {
    AsciiApart("enclave-os-merkle:leaf:v1", "enclave-os-merkle:node:v1", 18);
  }

  lemma AsciiApart(a: string, b: string, i: nat)
    requires i < |a| && i < |b| && a[i] as int % 256 != b[i] as int % 256
    ensures Ascii(a) != Ascii(b)
  {
    ByteValue(a[i] as int % 256);
    ByteValue(b[i] as int % 256);
    assert Ascii(a)[i] != Ascii(b)[i];
  }

  function LeafInput(H: Hasher, path: Digest, vh: Digest): Bytes {
    H.leafTag + path + vh
  }

  function NodeInput(H: Hasher, left: Digest, right: Digest): Bytes {
    H.nodeTag + left + right
  }

  datatype ProofLeaf = ProofLeaf(path: Digest, vh: Digest)

  datatype Proof = Proof(leaf: Option<ProofLeaf>, siblings: seq<Digest>)

  datatype Verdict = Verdict(present: bool, vh: Option<Digest>)

  datatype ProofError =
    | EmptyProof
    | TruncatedLeaf
    | UnknownFlags
    | TruncatedProof
    | LengthMismatch
    | LeafDoesNotCover
    | RootMismatch

  // ---- bits ---------------------------------------------------------------

  /** A byte past the end reads as zero: in JavaScript `undefined & m` and `undefined ^ 0` are 0. */
  function ByteAt(path: Bytes, i: nat): Byte {
    if i < |path| then path[i] else ZERO
  }

  predicate BitAt(path: Bytes, i: nat) {
    Bit(ByteAt(path, i / 8), i % 8)
  }

  ghost predicate AgreeOn(a: Bytes, b: Bytes, n: nat) {
    forall k: nat :: k < n ==> BitAt(a, k) == BitAt(b, k)
  }

  /** The first of 256 bit positions, from `k` on, where two paths differ; 256 when there is none. */
  function PrefixFrom(a: Bytes, b: Bytes, k: nat): (n: nat)
    requires k <= 256
    ensures k <= n <= 256
    ensures forall j: nat :: k <= j < n ==> BitAt(a, j) == BitAt(b, j)
    ensures n < 256 ==> BitAt(a, n) != BitAt(b, n)
    decreases 256 - k
  {
    if k == 256 || BitAt(a, k) != BitAt(b, k) then k else PrefixFrom(a, b, k + 1)
  }

  function CommonPrefix(a: Bytes, b: Bytes): nat {
    PrefixFrom(a, b, 0)
  }

  /** "At least n common prefix bits" is exactly "the first n bits agree", up to the 256 compared. */
  lemma CommonPrefixMeaning(a: Bytes, b: Bytes, n: nat)
    ensures CommonPrefix(a, b) >= n <==> n <= 256 && AgreeOn(a, b, n)
  {
    var p := CommonPrefix(a, b);
    assert p == 256 || BitAt(a, p) != BitAt(b, p);
  }

  lemma CommonPrefixIs(a: Bytes, b: Bytes, n: nat)
    requires n <= 256 && AgreeOn(a, b, n)
    requires n < 256 ==> BitAt(a, n) != BitAt(b, n)
    ensures CommonPrefix(a, b) == n
  {
    var p := CommonPrefix(a, b);
    assert p == 256 || BitAt(a, p) != BitAt(b, p);
  }

  method CommonPrefixBits(a: Digest, b: Bytes) returns (n: nat)
    ensures n == CommonPrefix(a, b)
  {
    for i := 0 to 32
      invariant AgreeOn(a, b, i * 8)
    {
      var x := Xor(a[i], ByteAt(b, i));
      ByteBits(a, b, i);
      if x != ZERO {
        var m := LeadingZeros(x);
        n := i * 8 + m;
        assert forall j: nat :: i * 8 <= j < n ==> BitAt(a, j) == BitAt(b, j);
        CommonPrefixIs(a, b, n);
        return;
      }
      assert forall k: nat :: k < 8 ==> !Bit(x, k);
      assert forall j: nat :: i * 8 <= j < i * 8 + 8 ==> BitAt(a, j) == BitAt(b, j);
    }
    CommonPrefixIs(a, b, 256);
    return 256;
  }

  lemma ByteBits(a: Digest, b: Bytes, i: nat)
    requires i < 32
    ensures forall j: nat :: i * 8 <= j < i * 8 + 8 ==>
      (Bit(Xor(a[i], ByteAt(b, i)), j - i * 8) <==> BitAt(a, j) != BitAt(b, j))
  {
    forall j: nat | i * 8 <= j < i * 8 + 8
      ensures Bit(Xor(a[i], ByteAt(b, i)), j - i * 8) <==> BitAt(a, j) != BitAt(b, j)
    {
      assert j / 8 == i && j % 8 == j - i * 8;
    }
  }

  // ---- folding a proof to a root --------------------------------------------

  function BaseInput(H: Hasher, leaf: Option<ProofLeaf>): Bytes {
    if leaf.Some? then LeafInput(H, leaf.value.path, leaf.value.vh) else H.placeholderTag
  }

  function StepInput(H: Hasher, bit: bool, acc: Digest, sibling: Digest): Bytes {
    if bit then NodeInput(H, sibling, acc) else NodeInput(H, acc, sibling)
  }

  /** The digest a proof gives to the position at `depth`: the last sibling is the topmost one. */
  function Fold(H: Hasher, path: Bytes, leaf: Option<ProofLeaf>, siblings: seq<Digest>, depth: nat): Digest
    decreases |siblings|
  {
    if siblings == [] then
      H.sha(BaseInput(H, leaf))
    else
      var top := |siblings| - 1;
      H.sha(StepInput(H, BitAt(path, depth), Fold(H, path, leaf, siblings[..top], depth + 1), siblings[top]))
  }

  function Verify(H: Hasher, root: Bytes, path: Bytes, proof: Proof): Result<Verdict, ProofError> {
    var n := |proof.siblings|;
    var present := proof.leaf.Some? && proof.leaf.value.path == path;
    if proof.leaf.Some? && !present && CommonPrefix(proof.leaf.value.path, path) < n then
      Err(LeafDoesNotCover)
    else if Fold(H, path, proof.leaf, proof.siblings, 0) != root then
      Err(RootMismatch)
    else
      Ok(Verdict(present, if proof.leaf.Some? then Some(proof.leaf.value.vh) else None))
  }

  lemma FoldExtend(H: Hasher, path: Bytes, leaf: Option<ProofLeaf>, siblings: seq<Digest>, i: nat, depth: nat)
    requires i < |siblings|
    ensures Fold(H, path, leaf, siblings[..i + 1], depth)
         == H.sha(StepInput(H, BitAt(path, depth), Fold(H, path, leaf, siblings[..i], depth + 1), siblings[i]))
  {
    assert siblings[..i + 1][..i] == siblings[..i];
  }

  method VerifyProof(H: Hasher, root: Bytes, path: Bytes, proof: Proof)
    returns (r: Result<Verdict, ProofError>)
    ensures r == Verify(H, root, path, proof)
  {
    var n := |proof.siblings|;
    var acc: Digest;
    var present := false;
    if proof.leaf.Some? {
      if proof.leaf.value.path == path {
        present := true;
      } else {
        var common := CommonPrefixBits(proof.leaf.value.path, path);
        if common < n {
          return Err(LeafDoesNotCover);
        }
      }
      acc := H.sha(LeafInput(H, proof.leaf.value.path, proof.leaf.value.vh));
    } else {
      acc := H.sha(H.placeholderTag);
    }
    for i := 0 to n
      invariant acc == Fold(H, path, proof.leaf, proof.siblings[..i], n - i)
    {
      var depth := n - 1 - i;
      var sibling := proof.siblings[i];
      FoldExtend(H, path, proof.leaf, proof.siblings, i, depth);
      acc := if BitAt(path, depth) then H.sha(NodeInput(H, sibling, acc)) else H.sha(NodeInput(H, acc, sibling));
    }
    assert proof.siblings[..n] == proof.siblings;
    if acc != root {
      return Err(RootMismatch);
    }
    return Ok(Verdict(present, if proof.leaf.Some? then Some(proof.leaf.value.vh) else None));
  }

  // ---- the inputs a run hashes, and collisions among them --------------------

  ghost function FoldInputs(H: Hasher, path: Bytes, leaf: Option<ProofLeaf>, siblings: seq<Digest>, depth: nat): set<Bytes>
    decreases |siblings|
  {
    if siblings == [] then
      {BaseInput(H, leaf)}
    else
      var top := |siblings| - 1;
      {StepInput(H, BitAt(path, depth), Fold(H, path, leaf, siblings[..top], depth + 1), siblings[top])}
      + FoldInputs(H, path, leaf, siblings[..top], depth + 1)
  }

  /** Everything `verifyProof` feeds the hash while it checks `proof` at `path`. */
  ghost function Inputs(H: Hasher, path: Bytes, proof: Proof): set<Bytes> {
    FoldInputs(H, path, proof.leaf, proof.siblings, 0)
  }

  predicate Clash(H: Hasher, x: Bytes, y: Bytes) {
    x != y && H.sha(x) == H.sha(y)
  }

  ghost predicate Collides(H: Hasher, inputs: set<Bytes>) {
    exists x, y {:trigger Clash(H, x, y)} :: x in inputs && y in inputs && Clash(H, x, y)
  }

  /** The tags keep the three kinds of input apart, and a fixed width keeps their parts apart. */
  lemma InputsApart(H: Hasher, a: Digest, b: Digest, c: Digest, d: Digest)
    requires Separated(H)
    ensures LeafInput(H, a, b) != NodeInput(H, c, d)
    ensures LeafInput(H, a, b) != H.placeholderTag && NodeInput(H, a, b) != H.placeholderTag
    ensures LeafInput(H, a, b) == LeafInput(H, c, d) ==> a == c && b == d
    ensures NodeInput(H, a, b) == NodeInput(H, c, d) ==> a == c && b == d
  {
    var n := |H.leafTag|;
    assert LeafInput(H, a, b)[..n] == H.leafTag && NodeInput(H, c, d)[..n] == H.nodeTag;
    assert LeafInput(H, a, b)[n..n + 32] == a && LeafInput(H, a, b)[n + 32..] == b;
    assert LeafInput(H, c, d)[n..n + 32] == c && LeafInput(H, c, d)[n + 32..] == d;
    assert NodeInput(H, a, b)[n..n + 32] == a && NodeInput(H, a, b)[n + 32..] == b;
    assert NodeInput(H, c, d)[n..n + 32] == c && NodeInput(H, c, d)[n + 32..] == d;
  }

  lemma BaseInputApart(H: Hasher, leaf: Option<ProofLeaf>, other: Option<ProofLeaf>, a: Digest, b: Digest)
    requires Separated(H)
    ensures BaseInput(H, leaf) != NodeInput(H, a, b)
    ensures BaseInput(H, leaf) == BaseInput(H, other) ==> leaf == other
  {
    if leaf.Some? {
      InputsApart(H, leaf.value.path, leaf.value.vh, a, b);
      if other.Some? {
        InputsApart(H, leaf.value.path, leaf.value.vh, other.value.path, other.value.vh);
      }
    } else {
      InputsApart(H, a, b, a, b);
      if other.Some? {
        InputsApart(H, other.value.path, other.value.vh, a, b);
      }
    }
  }

  lemma StepInputSplits(H: Hasher, bit: bool, a: Digest, s: Digest, b: Digest, t: Digest)
    requires Separated(H)
    requires StepInput(H, bit, a, s) == StepInput(H, bit, b, t)
    ensures a == b && s == t
  {
    if bit {
      InputsApart(H, s, a, t, b);
    } else {
      InputsApart(H, a, s, b, t);
    }
  }

  // ---- agreement, with no tree assumed --------------------------------------

  lemma NoClash(H: Hasher, inputs: set<Bytes>, x: Bytes, y: Bytes)
    requires !Collides(H, inputs)
    requires x in inputs && y in inputs && H.sha(x) == H.sha(y)
    ensures x == y
  {
    assert !Clash(H, x, y);
  }

  /** One level of the fold, from the top. */
  lemma FoldStep(H: Hasher, path: Bytes, leaf: Option<ProofLeaf>, siblings: seq<Digest>, depth: nat)
    returns (below: seq<Digest>, acc: Digest, sibling: Digest, x: Bytes)
    requires siblings != []
    ensures siblings == below + [sibling]
    ensures acc == Fold(H, path, leaf, below, depth + 1)
    ensures x == StepInput(H, BitAt(path, depth), acc, sibling)
    ensures Fold(H, path, leaf, siblings, depth) == H.sha(x)
    ensures FoldInputs(H, path, leaf, siblings, depth) == {x} + FoldInputs(H, path, leaf, below, depth + 1)
  {
    var top := |siblings| - 1;
    below, sibling := siblings[..top], siblings[top];
    acc := Fold(H, path, leaf, below, depth + 1);
    x := StepInput(H, BitAt(path, depth), acc, sibling);
  }

  lemma BaseNotStep(H: Hasher, leaf: Option<ProofLeaf>, bit: bool, acc: Digest, sibling: Digest)
    requires Separated(H)
    ensures BaseInput(H, leaf) != StepInput(H, bit, acc, sibling)
  {
    BaseInputApart(H, leaf, leaf, acc, sibling);
    BaseInputApart(H, leaf, leaf, sibling, acc);
  }

  lemma {:induction false} FoldsAgree(
    H: Hasher, path: Bytes, depth: nat,
    p: Option<ProofLeaf>, ps: seq<Digest>, q: Option<ProofLeaf>, qs: seq<Digest>, all: set<Bytes>)
    requires Separated(H)
    requires Fold(H, path, p, ps, depth) == Fold(H, path, q, qs, depth)
    requires FoldInputs(H, path, p, ps, depth) <= all && FoldInputs(H, path, q, qs, depth) <= all
    requires !Collides(H, all)
    ensures p == q && ps == qs
    decreases |ps|
  {
    if ps == [] && qs == [] {
      NoClash(H, all, BaseInput(H, p), BaseInput(H, q));
      BaseInputApart(H, p, q, seq(32, _ => ZERO), seq(32, _ => ZERO));
    } else if ps == [] {
      var _, acc, s, x := FoldStep(H, path, q, qs, depth);
      BaseNotStep(H, p, BitAt(path, depth), acc, s);
      NoClash(H, all, BaseInput(H, p), x);
    } else if qs == [] {
      var _, acc, s, x := FoldStep(H, path, p, ps, depth);
      BaseNotStep(H, q, BitAt(path, depth), acc, s);
      NoClash(H, all, BaseInput(H, q), x);
    } else {
      var pb, a, s, x := FoldStep(H, path, p, ps, depth);
      var qb, b, t, y := FoldStep(H, path, q, qs, depth);
      NoClash(H, all, x, y);
      StepInputSplits(H, BitAt(path, depth), a, s, b, t);
      FoldsAgree(H, path, depth + 1, p, pb, q, qb, all);
    }
  }

  /** Two accepted proofs for one root and one position are the same proof, or a collision is at hand. */
  lemma ProofsAgree(H: Hasher, root: Bytes, path: Bytes, p: Proof, q: Proof)
    requires Separated(H)
    requires Verify(H, root, path, p).Ok? && Verify(H, root, path, q).Ok?
    ensures p == q || Collides(H, Inputs(H, path, p) + Inputs(H, path, q))
  {
    if !Collides(H, Inputs(H, path, p) + Inputs(H, path, q)) {
      FoldsAgree(H, path, 0, p.leaf, p.siblings, q.leaf, q.siblings, Inputs(H, path, p) + Inputs(H, path, q));
    }
  }

  // ---- compressed sparse trees ----------------------------------------------

  /** An empty subtree is a placeholder and a subtree with one entry may be its leaf, at any depth. */
  datatype Tree = Empty | Leaf(path: Digest, vh: Digest) | Node(left: Tree, right: Tree)

  ghost predicate OnPrefix(path: Bytes, prefix: seq<bool>) {
    forall k: nat :: k < |prefix| ==> BitAt(path, k) == prefix[k]
  }

  ghost predicate WellFormed(t: Tree, prefix: seq<bool>) {
    match t
    case Empty => true
    case Leaf(path, _) => |prefix| <= 256 && OnPrefix(path, prefix)
    case Node(left, right) =>
      |prefix| < 256 && WellFormed(left, prefix + [false]) && WellFormed(right, prefix + [true])
  }

  function TreeRoot(H: Hasher, t: Tree): Digest {
    match t
    case Empty => H.sha(H.placeholderTag)
    case Leaf(path, vh) => H.sha(LeafInput(H, path, vh))
    case Node(left, right) => H.sha(NodeInput(H, TreeRoot(H, left), TreeRoot(H, right)))
  }

  ghost function TreeInputs(H: Hasher, t: Tree): set<Bytes> {
    match t
    case Empty => {H.placeholderTag}
    case Leaf(path, vh) => {LeafInput(H, path, vh)}
    case Node(left, right) =>
      {NodeInput(H, TreeRoot(H, left), TreeRoot(H, right))} + TreeInputs(H, left) + TreeInputs(H, right)
  }

  /** The entries of the tree: which value commitment sits at which leaf position. */
  ghost function Entries(t: Tree): set<(Digest, Digest)> {
    match t
    case Empty => {}
    case Leaf(path, vh) => {(path, vh)}
    case Node(left, right) => Entries(left) + Entries(right)
  }

  ghost predicate Holds(t: Tree, path: Bytes) {
    exists e :: e in Entries(t) && e.0 == path
  }

  lemma {:induction false} EntriesOnPrefix(t: Tree, prefix: seq<bool>)
    requires WellFormed(t, prefix)
    ensures forall e :: e in Entries(t) ==> OnPrefix(e.0, prefix)
  {
    if t.Node? {
      EntriesOnPrefix(t.left, prefix + [false]);
      EntriesOnPrefix(t.right, prefix + [true]);
      forall e | e in Entries(t)
        ensures OnPrefix(e.0, prefix)
      {
        var longer := if e in Entries(t.left) then prefix + [false] else prefix + [true];
        assert OnPrefix(e.0, longer);
        assert forall k: nat :: k < |prefix| ==> longer[k] == prefix[k];
      }
    }
  }

  /** A path that is in a node's subtree is in the child its next bit points to. */
  lemma EntriesByBit(t: Tree, prefix: seq<bool>, path: Digest)
    requires t.Node? && WellFormed(t, prefix)
    ensures forall e: (Digest, Digest) :: e.0 == path ==>
      (e in Entries(t) <==> e in Entries(if BitAt(path, |prefix|) then t.right else t.left))
  {
    EntriesOnPrefix(t.left, prefix + [false]);
    EntriesOnPrefix(t.right, prefix + [true]);
    forall e: (Digest, Digest) | e.0 == path && e in Entries(t)
      ensures e in Entries(if BitAt(path, |prefix|) then t.right else t.left)
    {
      if e in Entries(t.left) {
        assert OnPrefix(e.0, prefix + [false]);
        assert BitAt(e.0, |prefix|) == (prefix + [false])[|prefix|];
      } else {
        assert OnPrefix(e.0, prefix + [true]);
        assert BitAt(e.0, |prefix|) == (prefix + [true])[|prefix|];
      }
    }
  }

  /** One position carries one commitment. */
  lemma {:induction false} EntriesUnique(t: Tree, prefix: seq<bool>, e: (Digest, Digest), f: (Digest, Digest))
    requires WellFormed(t, prefix)
    requires e in Entries(t) && f in Entries(t) && e.0 == f.0
    ensures e == f
    decreases t
  {
    if t.Node? {
      EntriesByBit(t, prefix, e.0);
      var bit := BitAt(e.0, |prefix|);
      EntriesUnique(if bit then t.right else t.left, prefix + [bit], e, f);
    }
  }

  ghost predicate Answers(t: Tree, path: Digest, leaf: Option<ProofLeaf>) {
    var present := leaf.Some? && leaf.value.path == path;
    && (present <==> Holds(t, path))
    && (present ==> (path, leaf.value.vh) in Entries(t))
  }

  /** The input whose hash is the digest of a subtree. */
  function TopInput(H: Hasher, t: Tree): Bytes {
    match t
    case Empty => BaseInput(H, None)
    case Leaf(path, vh) => BaseInput(H, Some(ProofLeaf(path, vh)))
    case Node(left, right) => NodeInput(H, TreeRoot(H, left), TreeRoot(H, right))
  }

  lemma TopInputHashed(H: Hasher, t: Tree)
    ensures TopInput(H, t) in TreeInputs(H, t) && H.sha(TopInput(H, t)) == TreeRoot(H, t)
  {
  }

  lemma BaseAnswers(H: Hasher, t: Tree, path: Digest, leaf: Option<ProofLeaf>)
    requires Separated(H)
    requires BaseInput(H, leaf) == TopInput(H, t)
    ensures Answers(t, path, leaf)
  {
    match t
    case Empty =>
      BaseInputApart(H, leaf, None, path, path);
    case Leaf(p, vh) =>
      BaseInputApart(H, leaf, Some(ProofLeaf(p, vh)), path, path);
      assert (p, vh) in Entries(t);
    case Node(left, right) =>
      BaseInputApart(H, leaf, leaf, TreeRoot(H, left), TreeRoot(H, right));
  }

  lemma {:induction false} FoldAnswers(
    H: Hasher, t: Tree, prefix: seq<bool>, path: Digest, leaf: Option<ProofLeaf>, siblings: seq<Digest>,
    all: set<Bytes>)
    requires Separated(H)
    requires WellFormed(t, prefix) && OnPrefix(path, prefix)
    requires Fold(H, path, leaf, siblings, |prefix|) == TreeRoot(H, t)
    requires TreeInputs(H, t) <= all && FoldInputs(H, path, leaf, siblings, |prefix|) <= all
    requires !Collides(H, all)
    ensures Answers(t, path, leaf)
    decreases |siblings|
  {
    TopInputHashed(H, t);
    if siblings == [] {
      NoClash(H, all, BaseInput(H, leaf), TopInput(H, t));
      BaseAnswers(H, t, path, leaf);
    } else {
      var below, acc, sibling, x := FoldStep(H, path, leaf, siblings, |prefix|);
      NoClash(H, all, x, TopInput(H, t));
      var child := TopIsStep(H, t, BitAt(path, |prefix|), acc, sibling);
      var longer := Onward(t, prefix, path);
      FoldAnswers(H, child, longer, path, leaf, below, all);
      ChildAnswers(t, prefix, path, leaf);
    }
  }

  lemma TopIsStep(H: Hasher, t: Tree, bit: bool, acc: Digest, sibling: Digest) returns (child: Tree)
    requires Separated(H)
    requires TopInput(H, t) == StepInput(H, bit, acc, sibling)
    ensures t.Node? && child == (if bit then t.right else t.left)
    ensures acc == TreeRoot(H, child) && TreeInputs(H, child) <= TreeInputs(H, t)
  {
    BaseNotStep(H, if t.Leaf? then Some(ProofLeaf(t.path, t.vh)) else None, bit, acc, sibling);
    child := if bit then t.right else t.left;
    StepInputSplits(H, bit, acc, sibling, TreeRoot(H, child), TreeRoot(H, if bit then t.left else t.right));
  }

  lemma Onward(t: Tree, prefix: seq<bool>, path: Digest) returns (longer: seq<bool>)
    requires t.Node? && WellFormed(t, prefix) && OnPrefix(path, prefix)
    ensures longer == prefix + [BitAt(path, |prefix|)]
    ensures OnPrefix(path, longer)
    ensures WellFormed(if BitAt(path, |prefix|) then t.right else t.left, longer)
  {
    longer := prefix + [BitAt(path, |prefix|)];
  }

  lemma ChildAnswers(t: Tree, prefix: seq<bool>, path: Digest, leaf: Option<ProofLeaf>)
    requires t.Node? && WellFormed(t, prefix)
    requires Answers(if BitAt(path, |prefix|) then t.right else t.left, path, leaf)
    ensures Answers(t, path, leaf)
  {
    EntriesByBit(t, prefix, path);
    var child := if BitAt(path, |prefix|) then t.right else t.left;
    if Holds(t, path) {
      var e :| e in Entries(t) && e.0 == path;
      assert e in Entries(child);
    }
    if Holds(child, path) {
      var e :| e in Entries(child) && e.0 == path;
      assert e in Entries(t);
    }
  }

  /**
   Soundness: against the root of a well-formed tree, an accepted proof says "present" exactly when
   the tree holds that position, and then with the commitment the tree holds; or the proof and the
   tree exhibit a collision.
   */
  lemma Soundness(H: Hasher, t: Tree, path: Digest, proof: Proof)
    requires Separated(H)
    requires WellFormed(t, [])
    requires Verify(H, TreeRoot(H, t), path, proof).Ok?
    ensures
      var v := Verify(H, TreeRoot(H, t), path, proof).value;
      || Collides(H, TreeInputs(H, t) + Inputs(H, path, proof))
      || ((v.present <==> Holds(t, path))
          && (v.present ==> v.vh.Some? && (path, v.vh.value) in Entries(t)))
  {
    if !Collides(H, TreeInputs(H, t) + Inputs(H, path, proof)) {
      FoldAnswers(H, t, [], path, proof.leaf, proof.siblings, TreeInputs(H, t) + Inputs(H, path, proof));
    }
  }

  /** The proof read off the tree along a path: siblings from the deepest up. */
  function ProofFor(H: Hasher, t: Tree, path: Bytes, depth: nat): Proof {
    match t
    case Empty => Proof(None, [])
    case Leaf(p, vh) => Proof(Some(ProofLeaf(p, vh)), [])
    case Node(left, right) =>
      var bit := BitAt(path, depth);
      var below := ProofFor(H, if bit then right else left, path, depth + 1);
      Proof(below.leaf, below.siblings + [TreeRoot(H, if bit then left else right)])
  }

  lemma {:induction false} ProofForFolds(H: Hasher, t: Tree, prefix: seq<bool>, path: Digest)
    requires WellFormed(t, prefix) && OnPrefix(path, prefix)
    ensures
      var proof := ProofFor(H, t, path, |prefix|);
      && Fold(H, path, proof.leaf, proof.siblings, |prefix|) == TreeRoot(H, t)
      && Answers(t, path, proof.leaf)
      && (proof.siblings != [] ==> |prefix| + |proof.siblings| <= 256)
      && (proof.leaf.Some? ==> AgreeOn(proof.leaf.value.path, path, |prefix| + |proof.siblings|))
    decreases t
  {
    match t
    case Empty =>
    case Leaf(p, vh) =>
      assert (p, vh) in Entries(t);
      assert forall k: nat :: k < |prefix| ==> BitAt(p, k) == prefix[k] == BitAt(path, k);
    case Node(left, right) =>
      var bit := BitAt(path, |prefix|);
      var child := if bit then right else left;
      ProofForFolds(H, child, prefix + [bit], path);
      var below := ProofFor(H, child, path, |prefix| + 1);
      var sibling := TreeRoot(H, if bit then left else right);
      assert (below.siblings + [sibling])[..|below.siblings|] == below.siblings;
      ChildAnswers(t, prefix, path, below.leaf);
  }

  /** Completeness: the proof read off the tree is accepted, and gives the tree's own answer. */
  lemma Completeness(H: Hasher, t: Tree, path: Digest)
    requires WellFormed(t, [])
    ensures
      var proof := ProofFor(H, t, path, 0);
      var r := Verify(H, TreeRoot(H, t), path, proof);
      && |proof.siblings| <= 256
      && r.Ok?
      && (r.value.present <==> Holds(t, path))
      && (r.value.present ==> r.value.vh.Some? && (path, r.value.vh.value) in Entries(t))
  {
    ProofForFolds(H, t, [], path);
    var proof := ProofFor(H, t, path, 0);
    if proof.leaf.Some? {
      CommonPrefixMeaning(proof.leaf.value.path, path, |proof.siblings|);
    }
  }

  // ---- the wire format --------------------------------------------------------

  function Flatten(siblings: seq<Digest>): (b: Bytes)
    ensures |b| == 32 * |siblings|
  {
    if siblings == [] then [] else siblings[0] + Flatten(siblings[1..])
  }

  function Chunks(data: Bytes, count: nat): (c: seq<Digest>)
    requires |data| == 32 * count
    ensures |c| == count
  {
    if count == 0 then [] else [data[..32]] + Chunks(data[32..], count - 1)
  }

  function EncodeLeaf(leaf: Option<ProofLeaf>): Bytes {
    if leaf.Some? then [ONE] + leaf.value.path + leaf.value.vh else [ZERO]
  }

  /** flags(1) [path(32) vh(32)] count(2, little endian) siblings(count * 32) */
  function Encode(p: Proof): Bytes
    requires |p.siblings| < 0x1_0000
  {
    var n := |p.siblings|;
    EncodeLeaf(p.leaf) + CountBytes(n) + Flatten(p.siblings)
  }

  function LeafIn(data: Bytes): Option<ProofLeaf>
    requires data != [] && (data[0] == ONE ==> |data| >= 65)
  {
    if data[0] == ONE then Some(ProofLeaf(data[1..33], data[33..65])) else None
  }

  function Decode(data: Bytes): Result<Proof, ProofError> {
    if |data| == 0 then Err(EmptyProof)
    else if data[0] == ONE && |data| < 65 then Err(TruncatedLeaf)
    else if data[0] != ZERO && data[0] != ONE then Err(UnknownFlags)
    else
      var off := if data[0] == ONE then 65 else 1;
      if |data| < off + 2 then Err(TruncatedProof)
      else
        var count := CountOf(data[off], data[off + 1]);
        if |data| != off + 2 + count * 32 then Err(LengthMismatch)
        else
          Ok(Proof(LeafIn(data), Chunks(data[off + 2..], count)))
  }

  lemma {:induction false} ChunkAt(data: Bytes, count: nat, i: nat)
    requires |data| == 32 * count && i < count
    ensures Chunks(data, count)[i] == data[i * 32..(i + 1) * 32]
  {
    if i > 0 {
      ChunkAt(data[32..], count - 1, i - 1);
      SliceShift(data, 32, (i - 1) * 32, i * 32);
      assert 32 + (i - 1) * 32 == i * 32 && 32 + i * 32 == (i + 1) * 32;
    }
  }

  lemma SliceShift(data: Bytes, off: nat, i: nat, j: nat)
    requires i <= j && off + j <= |data|
    ensures data[off..][i..j] == data[off + i..off + j]
  {
  }

  method ReadSiblings(data: Bytes, off: nat, count: nat) returns (siblings: seq<Digest>)
    requires |data| == off + count * 32
    ensures siblings == Chunks(data[off..], count)
  {
    siblings := [];
    ghost var rest := data[off..];
    for i := 0 to count
      invariant siblings == Chunks(rest, count)[..i]
    {
      ChunkAt(rest, count, i);
      SliceShift(data, off, i * 32, (i + 1) * 32);
      siblings := siblings + [data[off + i * 32..off + (i + 1) * 32]];
    }
  }

  method DecodeProof(data: Bytes) returns (r: Result<Proof, ProofError>)
    ensures r == Decode(data)
  {
    if |data| == 0 {
      return Err(EmptyProof);
    }
    var off := 1;
    var leaf: Option<ProofLeaf> := None;
    if data[0] == ONE {
      if |data| < 65 {
        return Err(TruncatedLeaf);
      }
      leaf := Some(ProofLeaf(data[1..33], data[33..65]));
      off := 65;
    } else if data[0] != ZERO {
      return Err(UnknownFlags);
    }
    if |data| < off + 2 {
      return Err(TruncatedProof);
    }
    var count := CountOf(data[off], data[off + 1]);
    off := off + 2;
    if |data| != off + count * 32 {
      return Err(LengthMismatch);
    }
    var siblings := ReadSiblings(data, off, count);
    return Ok(Proof(leaf, siblings));
  }

  lemma {:induction false} ChunksFlatten(siblings: seq<Digest>)
    ensures Chunks(Flatten(siblings), |siblings|) == siblings
  {
    if siblings != [] {
      var b := Flatten(siblings);
      assert b[..32] == siblings[0] && b[32..] == Flatten(siblings[1..]);
      ChunksFlatten(siblings[1..]);
    }
  }

  lemma {:induction false} FlattenChunks(data: Bytes, count: nat)
    requires |data| == 32 * count
    ensures Flatten(Chunks(data, count)) == data
  {
    if count != 0 {
      FlattenChunks(data[32..], count - 1);
      assert Chunks(data, count)[1..] == Chunks(data[32..], count - 1);
      assert data[..32] + data[32..] == data;
    }
  }

  lemma LeafSplits(leaf: Option<ProofLeaf>, rest: Bytes)
    ensures
      var data := EncodeLeaf(leaf) + rest;
      && |EncodeLeaf(leaf)| == (if leaf.Some? then 65 else 1)
      && data[0] == (if leaf.Some? then ONE else ZERO)
      && (leaf.Some? ==> ProofLeaf(data[1..33], data[33..65]) == leaf.value)
  {
    var data := EncodeLeaf(leaf) + rest;
    if leaf.Some? {
      assert data[1..33] == leaf.value.path && data[33..65] == leaf.value.vh;
    }
  }

  lemma DecodeParts(leaf: Option<ProofLeaf>, lo: Byte, hi: Byte, body: Bytes)
    requires |body| == 32 * CountOf(lo, hi)
    ensures Decode(EncodeLeaf(leaf) + [lo, hi] + body) == Ok(Proof(leaf, Chunks(body, CountOf(lo, hi))))
  {
    var tail: Bytes := [lo, hi] + body;
    var data := EncodeLeaf(leaf) + tail;
    assert data == EncodeLeaf(leaf) + [lo, hi] + body;
    LeafSplits(leaf, tail);
    var off := |EncodeLeaf(leaf)|;
    assert data[off] == tail[0] && data[off + 1] == tail[1];
    assert data[off + 2..] == body;
  }

  /** Every proof with a two-byte count survives the wire. */
  lemma DecodeEncode(p: Proof)
    requires |p.siblings| < 0x1_0000
    ensures Decode(Encode(p)) == Ok(p)
  {
    var n := |p.siblings|;
    CountSplits(n);
    DecodeParts(p.leaf, CountBytes(n)[0], CountBytes(n)[1], Flatten(p.siblings));
    ChunksFlatten(p.siblings);
  }

  lemma DecodedParts(data: Bytes, p: Proof) returns (lo: Byte, hi: Byte, body: Bytes)
    requires Decode(data) == Ok(p)
    ensures data == EncodeLeaf(p.leaf) + [lo, hi] + body
    ensures |body| == 32 * CountOf(lo, hi) && p.siblings == Chunks(body, CountOf(lo, hi))
  {
    var off := if data[0] == ONE then 65 else 1;
    lo, hi, body := data[off], data[off + 1], data[off + 2..];
    LeafRejoins(data);
    assert data == data[..off] + [lo, hi] + body;
  }

  /** What decodes is the one encoding of what it decodes to. */
  lemma EncodeDecode(data: Bytes, p: Proof)
    requires Decode(data) == Ok(p)
    ensures |p.siblings| < 0x1_0000 && Encode(p) == data
  {
    var lo, hi, body := DecodedParts(data, p);
    EncodeParts(p, lo, hi, body);
  }

  lemma EncodeParts(p: Proof, lo: Byte, hi: Byte, body: Bytes)
    requires |body| == 32 * CountOf(lo, hi) && p.siblings == Chunks(body, CountOf(lo, hi))
    ensures |p.siblings| < 0x1_0000
    ensures Encode(p) == EncodeLeaf(p.leaf) + [lo, hi] + body
  {
    assert |p.siblings| == CountOf(lo, hi);
    CountJoins(lo, hi);
    assert Flatten(p.siblings) == body by {
      FlattenChunks(body, CountOf(lo, hi));
    }
  }

  lemma LeafRejoins(data: Bytes)
    requires data != [] && (data[0] == ONE || data[0] == ZERO) && (data[0] == ONE ==> |data| >= 65)
    ensures EncodeLeaf(LeafIn(data)) == data[..if data[0] == ONE then 65 else 1]
  {
  }

  /** No accepted encoding is a proper prefix of another: truncating or extending one is refused. */
  lemma EncodingPrefixFree(data: Bytes, extra: Bytes)
    requires Decode(data).Ok? && Decode(data + extra).Ok?
    ensures extra == []
  {
    var longer := data + extra;
    assert longer[0] == data[0];
    var off := if data[0] == ONE then 65 else 1;
    assert longer[off] == data[off] && longer[off + 1] == data[off + 1];
  }

  /** At most one byte string is accepted for a root and a position, or a collision is at hand. */
  lemma WireAgree(H: Hasher, root: Bytes, path: Bytes, d: Bytes, e: Bytes)
    requires Separated(H)
    requires Decode(d).Ok? && Verify(H, root, path, Decode(d).value).Ok?
    requires Decode(e).Ok? && Verify(H, root, path, Decode(e).value).Ok?
    ensures d == e || Collides(H, Inputs(H, path, Decode(d).value) + Inputs(H, path, Decode(e).value))
  {
    ProofsAgree(H, root, path, Decode(d).value, Decode(e).value);
    EncodeDecode(d, Decode(d).value);
    EncodeDecode(e, Decode(e).value);
  }
}
