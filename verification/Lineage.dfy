/**
 The lineage check an auditor makes offline (`VerifyAnchors` in `internal/register/audit.go`): fold
 the recorded roots through the ledger's link function from one anchor to another.

 The link function is a parameter. Uniqueness is stated as for the Merkle proofs: two accepted
 lists are the same, or the two folds called the link function on different arguments with the same
 result.
 */
module Lineage {
  import opened Bits
  import opened Outcomes
  import Merkle

  type Hash = Merkle.Digest

  type Link = (Hash, Hash, nat) -> Hash

  // ---- hexadecimal ------------------------------------------------------------------

  function HexDigit(d: nat): char
    requires d < 16
  {
    if d < 10 then '0' + d as char else 'a' + (d - 10) as char
  }

  /** Go's decoder takes both cases. */
  function HexValue(c: char): (v: Option<nat>)
    ensures v.Some? ==> v.value < 16
  {
    var r := c as int;
    if '0' as int <= r <= '9' as int then Some(r - '0' as int)
    else if 'a' as int <= r <= 'f' as int then Some(10 + r - 'a' as int)
    else if 'A' as int <= r <= 'F' as int then Some(10 + r - 'A' as int)
    else None
  }

  lemma HexDigitReads(d: nat)
    requires d < 16
    ensures HexValue(HexDigit(d)) == Some(d)
  {
  }

  function Nibble(bits: seq<bool>): char
    requires |bits| == 4
  {
    assert Pow2(4) == 16;
    HexDigit(Value(bits))
  }

  function NibbleBits(c: char): (bits: Option<seq<bool>>)
    ensures bits.Some? ==> |bits.value| == 4
  {
    var v := HexValue(c);
    if v.None? then None else Some(Digits(v.value, 4))
  }

  lemma NibbleReads(bits: seq<bool>)
    requires |bits| == 4
    ensures NibbleBits(Nibble(bits)) == Some(bits)
  {
    assert Pow2(4) == 16;
    HexDigitReads(Value(bits));
    DigitsValue(bits);
  }

  function DecodeHex(s: string): Option<seq<Byte>> {
    if s == "" then Some([])
    else if |s| < 2 then None
    else
      var hi, lo, rest := NibbleBits(s[0]), NibbleBits(s[1]), DecodeHex(s[2..]);
      if hi.None? || lo.None? || rest.None? then None
      else Some([Byte(hi.value + lo.value)] + rest.value)
  }

  function ParseHash(s: string): Option<Hash> {
    var b := DecodeHex(s);
    if b.None? || |b.value| != 32 then None else Some(b.value)
  }

  function Hex(b: seq<Byte>): string {
    if b == [] then "" else [Nibble(b[0].bits[..4]), Nibble(b[0].bits[4..])] + Hex(b[1..])
  }

  lemma ByteReads(x: Byte, rest: string)
    ensures DecodeHex([Nibble(x.bits[..4]), Nibble(x.bits[4..])] + rest)
         == if DecodeHex(rest).None? then None else Some([x] + DecodeHex(rest).value)
  {
    NibbleReads(x.bits[..4]);
    NibbleReads(x.bits[4..]);
    assert x.bits[..4] + x.bits[4..] == x.bits;
    assert ([Nibble(x.bits[..4]), Nibble(x.bits[4..])] + rest)[2..] == rest;
  }

  lemma {:induction false} HexReads(b: seq<Byte>)
    ensures DecodeHex(Hex(b)) == Some(b)
  {
    if b != [] {
      ByteReads(b[0], Hex(b[1..]));
      HexReads(b[1..]);
      assert b == [b[0]] + b[1..];
    }
  }

  lemma HashReads(h: Hash)
    ensures ParseHash(Hex(h)) == Some(h) && Hex(h) != ""
  {
    HexReads(h);
  }

  function ParseAll(roots: seq<string>): (parsed: Option<seq<Hash>>)
    ensures parsed.Some? ==> |parsed.value| == |roots|
    decreases |roots|
  {
    if roots == [] then Some([])
    else
      var n := |roots| - 1;
      var init, last := ParseAll(roots[..n]), ParseHash(roots[n]);
      if init.None? || last.None? then None else Some(init.value + [last.value])
  }

  // ---- the fold -------------------------------------------------------------------------

  /** A position in a history: the version, the root, and the head that commits to every earlier root. */
  datatype Ledger = Ledger(version: nat, root: Hash, head: Hash)

  function Commit(link: Link, s: Ledger, root: Hash): Ledger {
    Ledger(s.version + 1, root, link(s.head, s.root, s.version + 1))
  }

  function Advance(link: Link, s: Ledger, roots: seq<Hash>): (t: Ledger)
    ensures t.version == s.version + |roots|
    decreases |roots|
  {
    if roots == [] then s else Commit(link, Advance(link, s, roots[..|roots| - 1]), roots[|roots| - 1])
  }

  datatype Anchor = Anchor(version: nat, root: string, head: string)

  datatype AuditError = NoHead | Backwards | WrongCount | BadHash | HeadMismatch | RootMismatch

  function Parsed(a: Anchor): Option<Ledger> {
    var head, root := ParseHash(a.head), ParseHash(a.root);
    if head.None? || root.None? then None else Some(Ledger(a.version, root.value, head.value))
  }

  function Verify(link: Link, from: Anchor, to: Anchor, roots: seq<string>): Result<(), AuditError> {
    if from.head == "" || to.head == "" then Err(NoHead)
    else if to.version < from.version then Err(Backwards)
    else if |roots| != to.version - from.version then Err(WrongCount)
    else if Parsed(from).None? || ParseAll(roots).None? then Err(BadHash)
    else
      var reached := Advance(link, Parsed(from).value, ParseAll(roots).value);
      var head, root := ParseHash(to.head), ParseHash(to.root);
      if head.None? then Err(BadHash)
      else if reached.head != head.value then Err(HeadMismatch)
      else if root.None? then Err(BadHash)
      else if roots != [] && reached.root != root.value then Err(RootMismatch)
      else Ok(())
  }

  /** What acceptance says of the decoded values. */
  predicate Accepts(link: Link, s: Ledger, t: Ledger, roots: seq<Hash>) {
    && t.version == s.version + |roots|
    && Advance(link, s, roots).head == t.head
    && (roots != [] ==> Advance(link, s, roots).root == t.root)
  }

  lemma VerifyMeans(link: Link, from: Anchor, to: Anchor, roots: seq<string>)
    ensures Verify(link, from, to, roots).Ok? <==>
      && from.head != "" && to.head != ""
      && Parsed(from).Some? && Parsed(to).Some? && ParseAll(roots).Some?
      && Accepts(link, Parsed(from).value, Parsed(to).value, ParseAll(roots).value)
  {
  }

  lemma ParseLast(roots: seq<string>, last: string)
    ensures ParseAll(roots + [last])
         == if ParseAll(roots).None? || ParseHash(last).None? then None
            else Some(ParseAll(roots).value + [ParseHash(last).value])
  {
    assert (roots + [last])[..|roots|] == roots;
  }

  lemma AdvanceLast(link: Link, s: Ledger, roots: seq<Hash>, last: Hash)
    ensures Advance(link, s, roots + [last]) == Commit(link, Advance(link, s, roots), last)
  {
    assert (roots + [last])[..|roots|] == roots;
  }

  lemma FoldStep(link: Link, start: Ledger, roots: seq<string>, i: nat, done: seq<Hash>)
    requires i < |roots| && ParseAll(roots[..i]) == Some(done)
    ensures
      var parsed := ParseHash(roots[i]);
      if parsed.None? then ParseAll(roots).None?
      else
        && ParseAll(roots[..i + 1]) == Some(done + [parsed.value])
        && Advance(link, start, done + [parsed.value]) == Commit(link, Advance(link, start, done), parsed.value)
  {
    var parsed := ParseHash(roots[i]);
    ParseLast(roots[..i], roots[i]);
    assert roots[..i] + [roots[i]] == roots[..i + 1];
    if parsed.None? {
      BadPrefix(roots, i + 1);
    } else {
      AdvanceLast(link, start, done, parsed.value);
    }
  }

  /** The loop: `head` and `prevRoot` move one version at a time. */
  method FoldRoots(link: Link, start: Ledger, roots: seq<string>) returns (r: Option<Ledger>)
    ensures r == if ParseAll(roots).None? then None else Some(Advance(link, start, ParseAll(roots).value))
  {
    var head, prevRoot, version := start.head, start.root, start.version;
    ghost var done: seq<Hash> := [];
    for i := 0 to |roots|
      invariant ParseAll(roots[..i]) == Some(done)
      invariant Ledger(version, prevRoot, head) == Advance(link, start, done)
    {
      var parsed := ParseHash(roots[i]);
      FoldStep(link, start, roots, i, done);
      if parsed.None? {
        return None;
      }
      version := version + 1;
      head := link(head, prevRoot, version);
      prevRoot := parsed.value;
      done := done + [parsed.value];
    }
    assert roots[..|roots|] == roots;
    return Some(Ledger(version, prevRoot, head));
  }

  method VerifyAnchors(link: Link, from: Anchor, to: Anchor, roots: seq<string>)
    returns (r: Result<(), AuditError>)
    ensures r == Verify(link, from, to, roots)
  {
    if from.head == "" || to.head == "" {
      return Err(NoHead);
    }
    if to.version < from.version {
      return Err(Backwards);
    }
    if |roots| != to.version - from.version {
      return Err(WrongCount);
    }
    var parsedHead := ParseHash(from.head);
    if parsedHead.None? {
      return Err(BadHash);
    }
    var parsedRoot := ParseHash(from.root);
    if parsedRoot.None? {
      return Err(BadHash);
    }
    var folded := FoldRoots(link, Ledger(from.version, parsedRoot.value, parsedHead.value), roots);
    if folded.None? {
      return Err(BadHash);
    }
    var head, prevRoot := folded.value.head, folded.value.root;
    var want := ParseHash(to.head);
    if want.None? {
      return Err(BadHash);
    }
    if head != want.value {
      return Err(HeadMismatch);
    }
    var last := ParseHash(to.root);
    if last.None? {
      return Err(BadHash);
    }
    if |roots| > 0 && prevRoot != last.value {
      return Err(RootMismatch);
    }
    return Ok(());
  }

  lemma {:induction false} BadPrefix(roots: seq<string>, n: nat)
    requires n <= |roots| && ParseAll(roots[..n]).None?
    ensures ParseAll(roots).None?
    decreases |roots| - n
  {
    if n == |roots| {
      assert roots[..n] == roots;
    } else {
      assert roots[..n + 1][..n] == roots[..n];
      BadPrefix(roots, n + 1);
    }
  }

  // ---- uniqueness -------------------------------------------------------------------------

  /** The arguments an audit of `roots` from `s` calls the link function on. */
  ghost function Calls(link: Link, s: Ledger, roots: seq<Hash>): set<(Hash, Hash, nat)>
    decreases |roots|
  {
    if roots == [] then {}
    else
      var before := Advance(link, s, roots[..|roots| - 1]);
      Calls(link, s, roots[..|roots| - 1]) + {(before.head, before.root, before.version + 1)}
  }

  predicate Clash(link: Link, x: (Hash, Hash, nat), y: (Hash, Hash, nat)) {
    x != y && link(x.0, x.1, x.2) == link(y.0, y.1, y.2)
  }

  ghost predicate Collides(link: Link, calls: set<(Hash, Hash, nat)>) {
    exists x, y {:trigger Clash(link, x, y)} :: x in calls && y in calls && Clash(link, x, y)
  }

  /** Equal heads after equally many links mean equal roots, all but the last. */
  lemma {:induction false} HeadsCommit(
    link: Link, s: Ledger, xs: seq<Hash>, ys: seq<Hash>, calls: set<(Hash, Hash, nat)>)
    requires |xs| == |ys| > 0
    requires Advance(link, s, xs).head == Advance(link, s, ys).head
    requires Calls(link, s, xs) <= calls && Calls(link, s, ys) <= calls && !Collides(link, calls)
    ensures xs[..|xs| - 1] == ys[..|xs| - 1]
    decreases |xs|
  {
    var n := |xs| - 1;
    var x, y := Advance(link, s, xs[..n]), Advance(link, s, ys[..n]);
    assert !Clash(link, (x.head, x.root, x.version + 1), (y.head, y.root, y.version + 1));
    assert x == y;
    if n > 0 {
      HeadsCommit(link, s, xs[..n], ys[..n], calls);
      assert x.root == xs[n - 1] && y.root == ys[n - 1];
      assert xs[..n] == xs[..n][..n - 1] + [xs[n - 1]] && ys[..n] == ys[..n][..n - 1] + [ys[n - 1]];
    }
  }

  lemma AcceptedUnique(link: Link, s: Ledger, t: Ledger, a: seq<Hash>, b: seq<Hash>)
    requires Accepts(link, s, t, a) && Accepts(link, s, t, b)
    ensures a == b || Collides(link, Calls(link, s, a) + Calls(link, s, b))
  {
    var calls := Calls(link, s, a) + Calls(link, s, b);
    if a != [] && !Collides(link, calls) {
      var n := |a| - 1;
      HeadsCommit(link, s, a, b, calls);
      assert a == a[..n] + [a[n]] && b == b[..n] + [b[n]];
    }
  }

  /** Between two anchors at most one list of roots is accepted, or the link function collided. */
  lemma LineageUnique(link: Link, from: Anchor, to: Anchor, xs: seq<string>, ys: seq<string>)
    requires Verify(link, from, to, xs).Ok? && Verify(link, from, to, ys).Ok?
    ensures
      && Parsed(from).Some? && ParseAll(xs).Some? && ParseAll(ys).Some?
      && (ParseAll(xs) == ParseAll(ys)
          || Collides(link, Calls(link, Parsed(from).value, ParseAll(xs).value)
                            + Calls(link, Parsed(from).value, ParseAll(ys).value)))
  {
    VerifyMeans(link, from, to, xs);
    VerifyMeans(link, from, to, ys);
    AcceptedUnique(link, Parsed(from).value, Parsed(to).value, ParseAll(xs).value, ParseAll(ys).value);
  }

  // ---- the genuine list ---------------------------------------------------------------------

  function AnchorOf(s: Ledger): Anchor {
    Anchor(s.version, Hex(s.root), Hex(s.head))
  }

  lemma AnchorReads(s: Ledger)
    ensures Parsed(AnchorOf(s)) == Some(s) && AnchorOf(s).head != ""
    ensures ParseHash(AnchorOf(s).head) == Some(s.head) && ParseHash(AnchorOf(s).root) == Some(s.root)
  {
    HashReads(s.root);
    HashReads(s.head);
  }

  function HexAll(roots: seq<Hash>): (r: seq<string>)
    ensures |r| == |roots|
    decreases |roots|
  {
    if roots == [] then [] else HexAll(roots[..|roots| - 1]) + [Hex(roots[|roots| - 1])]
  }

  lemma {:induction false} HexAllReads(roots: seq<Hash>)
    ensures ParseAll(HexAll(roots)) == Some(roots)
    decreases |roots|
  {
    if roots != [] {
      var n := |roots| - 1;
      HexAllReads(roots[..n]);
      HashReads(roots[n]);
      ParseLast(HexAll(roots[..n]), Hex(roots[n]));
      assert roots == roots[..n] + [roots[n]];
    }
  }

  /** The roots a history really recorded lead from any anchor of it to any later one. */
  lemma GenuineAccepted(link: Link, s: Ledger, roots: seq<Hash>)
    ensures Verify(link, AnchorOf(s), AnchorOf(Advance(link, s, roots)), HexAll(roots)) == Ok(())
  {
    AnchorReads(s);
    AnchorReads(Advance(link, s, roots));
    HexAllReads(roots);
    VerifyMeans(link, AnchorOf(s), AnchorOf(Advance(link, s, roots)), HexAll(roots));
  }

  // ---- composition ----------------------------------------------------------------------------

  lemma {:induction false} AdvanceAppend(link: Link, s: Ledger, xs: seq<Hash>, ys: seq<Hash>)
    ensures Advance(link, s, xs + ys) == Advance(link, Advance(link, s, xs), ys)
    decreases |ys|
  {
    if ys == [] {
      assert xs + ys == xs;
    } else {
      var n := |ys| - 1;
      assert (xs + ys)[..|xs + ys| - 1] == xs + ys[..n];
      AdvanceAppend(link, s, xs, ys[..n]);
    }
  }

  lemma {:induction false} ParseAllAppend(xs: seq<string>, ys: seq<string>)
    requires ParseAll(xs).Some? && ParseAll(ys).Some?
    ensures ParseAll(xs + ys) == Some(ParseAll(xs).value + ParseAll(ys).value)
    decreases |ys|
  {
    if ys == [] {
      assert xs + ys == xs && ParseAll(xs).value + [] == ParseAll(xs).value;
    } else {
      var n := |ys| - 1;
      assert (xs + ys)[..|xs + ys| - 1] == xs + ys[..n] && (xs + ys)[|xs + ys| - 1] == ys[n];
      ParseAllAppend(xs, ys[..n]);
      var a, b, last := ParseAll(xs).value, ParseAll(ys[..n]).value, [ParseHash(ys[n]).value];
      assert a + b + last == a + (b + last);
    }
  }

  /** The two anchors name one root: what an accepted empty range does not check. */
  predicate SameRoot(a: Anchor, b: Anchor) {
    ParseHash(a.root) == ParseHash(b.root)
  }

  lemma AcceptedCompose(link: Link, s: Ledger, t: Ledger, u: Ledger, xs: seq<Hash>, ys: seq<Hash>)
    requires Accepts(link, s, t, xs) && Accepts(link, t, u, ys)
    requires xs != []
    ensures Accepts(link, s, u, xs + ys) <==> ys != [] || t.root == u.root
  {
    AdvanceAppend(link, s, xs, ys);
  }

  /**
   Accepted ranges compose, except that an empty range compares heads and not roots. With an empty
   second range the whole is accepted exactly when the two later anchors name one root.
   */
  lemma RangesCompose(link: Link, a: Anchor, b: Anchor, c: Anchor, xs: seq<string>, ys: seq<string>)
    requires Verify(link, a, b, xs).Ok? && Verify(link, b, c, ys).Ok?
    requires xs != []
    ensures Verify(link, a, c, xs + ys).Ok? <==> ys != [] || SameRoot(b, c)
  {
    VerifyMeans(link, a, b, xs);
    VerifyMeans(link, b, c, ys);
    ParseAllAppend(xs, ys);
    VerifyMeans(link, a, c, xs + ys);
    AcceptedCompose(link, Parsed(a).value, Parsed(b).value, Parsed(c).value, ParseAll(xs).value, ParseAll(ys).value);
  }

  lemma AcceptedAfterEmpty(link: Link, s: Ledger, t: Ledger, u: Ledger, ys: seq<Hash>)
    requires Accepts(link, s, t, []) && Accepts(link, t, u, ys)
    ensures ys == [] || s.root == t.root ==> Accepts(link, s, u, ys)
    ensures Accepts(link, s, u, ys) ==>
      ys == [] || s.root == t.root || Collides(link, Calls(link, s, ys) + Calls(link, t, ys))
  {
    if Accepts(link, s, u, ys) && ys != [] && !Collides(link, Calls(link, s, ys) + Calls(link, t, ys)) {
      StartsAgree(link, s, t, ys, Calls(link, s, ys) + Calls(link, t, ys));
    }
  }

  /**
   With an empty first range the whole is accepted when the two earlier anchors name one root, and
   otherwise only if the two folds exhibit a collision of the link function.
   */
  lemma EmptyFirstRange(link: Link, a: Anchor, b: Anchor, c: Anchor, ys: seq<string>)
    requires Verify(link, a, b, []).Ok? && Verify(link, b, c, ys).Ok?
    ensures ys == [] || SameRoot(a, b) ==> Verify(link, a, c, ys).Ok?
    ensures Parsed(a).Some? && Parsed(b).Some? && ParseAll(ys).Some?
    ensures
      var s, t, y := Parsed(a).value, Parsed(b).value, ParseAll(ys).value;
      Verify(link, a, c, ys).Ok? ==>
        ys == [] || SameRoot(a, b) || Collides(link, Calls(link, s, y) + Calls(link, t, y))
  {
    VerifyMeans(link, a, b, []);
    VerifyMeans(link, b, c, ys);
    VerifyMeans(link, a, c, ys);
    AcceptedAfterEmpty(link, Parsed(a).value, Parsed(b).value, Parsed(c).value, ParseAll(ys).value);
  }

  lemma {:induction false} StartsAgree(link: Link, s: Ledger, t: Ledger, roots: seq<Hash>, calls: set<(Hash, Hash, nat)>)
    requires roots != [] && s.version == t.version
    requires Advance(link, s, roots).head == Advance(link, t, roots).head
    requires Calls(link, s, roots) <= calls && Calls(link, t, roots) <= calls && !Collides(link, calls)
    ensures s == t
    decreases |roots|
  {
    var n := |roots| - 1;
    var x, y := Advance(link, s, roots[..n]), Advance(link, t, roots[..n]);
    assert !Clash(link, (x.head, x.root, x.version + 1), (y.head, y.root, y.version + 1));
    if n > 0 {
      StartsAgree(link, s, t, roots[..n], calls);
    }
  }

  /** The empty range really does not look at the roots. */
  lemma EmptyRangeIgnoresRoots(link: Link, s: Ledger, other: Hash)
    ensures Verify(link, AnchorOf(s), AnchorOf(s.(root := other)), []) == Ok(())
  {
    AnchorReads(s);
    AnchorReads(s.(root := other));
    VerifyMeans(link, AnchorOf(s), AnchorOf(s.(root := other)), []);
  }
}
