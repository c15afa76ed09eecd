/**
 What printed and encoded forms look like, character by character and byte by byte: canonical JSON
 (`internal/canon/canon.go`), the documents a transaction id covers (`internal/model/model.go`), hexadecimal and
 base64 text, the wire form of a proof, and what one entry of a write set does to a table column by column.
 */
module Forms {
  import opened Bits
  import Numbers = Bits
  import opened Outcomes
  import opened Canon
  import CanonRoundTrip
  import B64 = Base64
  import TxId
  import WS = WriteSet
  import Merkle
  import Lineage

  // ---- canonical JSON ---------------------------------------------------------------------------

  /** Texts with commas between them. */
  function Joined(texts: seq<string>): string {
    if texts == [] then ""
    else if |texts| == 1 then texts[0]
    else Joined(texts[..|texts| - 1]) + "," + texts[|texts| - 1]
  }

  /** Every text with a comma before it. */
  function Trailing(texts: seq<string>): string {
    if texts == [] then "" else "," + texts[0] + Trailing(texts[1..])
  }

  lemma {:induction false} JoinedTrails(texts: seq<string>)
    requires texts != []
    ensures Joined(texts) == texts[0] + Trailing(texts[1..])
    decreases |texts|
  {
    if |texts| > 1 {
      var n := |texts| - 1;
      var shorter := texts[..n];
      JoinedTrails(shorter);
      TrailingLast(texts[1..]);
      assert texts[1..][..n - 1] == shorter[1..];
    }
  }

  lemma {:induction false} TrailingLast(texts: seq<string>)
    requires texts != []
    ensures Trailing(texts) == Trailing(texts[..|texts| - 1]) + "," + texts[|texts| - 1]
    decreases |texts|
  {
    if |texts| > 1 {
      var n := |texts| - 1;
      TrailingLast(texts[1..]);
      assert texts[1..][..n - 1] == texts[..n][1..];
      assert Trailing(texts[..n]) == "," + texts[0] + Trailing(texts[..n][1..]);
    }
  }

  ghost function TextsOf(items: seq<Value>): (texts: seq<string>)
    ensures |texts| == |items| && forall i :: 0 <= i < |items| ==> texts[i] == Text(items[i])
  {
    seq(|items|, i requires 0 <= i < |items| => Text(items[i]))
  }

  lemma {:induction false} ItemsTrail(items: seq<Value>)
    ensures ItemsText(items, false) == Trailing(TextsOf(items))
    decreases |items|
  {
    if items != [] {
      ItemsTrail(items[1..]);
      assert TextsOf(items)[1..] == TextsOf(items[1..]);
    }
  }

  /** A list is its items' texts, in order, between brackets and with commas between them. */
  lemma ArrayForm(items: seq<Value>)
    ensures Text(Arr(items)) == "[" + Joined(TextsOf(items)) + "]"
  {
    ItemsJoin(items);
  }

  lemma ItemsJoin(items: seq<Value>)
    ensures ItemsText(items, true) == Joined(TextsOf(items))
  {
    if items != [] {
      FirstItem(items);
      ItemsTrail(items[1..]);
      JoinedTrails(TextsOf(items));
      assert TextsOf(items)[1..] == TextsOf(items[1..]);
    }
  }

  lemma FirstItem(items: seq<Value>)
    requires items != []
    ensures ItemsText(items, true) == TextsOf(items)[0] + ItemsText(items[1..], false)
  {
    assert Comma(true) + Text(items[0]) == Text(items[0]);
  }

  /** The members of an object as they are printed, in the order of these keys. */
  ghost function Entries(keys: seq<string>, members: map<string, Value>): (texts: seq<string>)
    requires forall k :: k in keys ==> k in members
    ensures |texts| == |keys|
    ensures forall i :: 0 <= i < |keys| ==> texts[i] == "\"" + Escaped(keys[i]) + "\":" + Text(members[keys[i]])
  {
    seq(|keys|, i requires 0 <= i < |keys| => "\"" + Escaped(keys[i]) + "\":" + Text(members[keys[i]]))
  }

  lemma EntryText(key: string, member: Value)
    ensures MemberText(key, member) == "\"" + Escaped(key) + "\":" + Text(member)
  {
    assert Quoted(key) + ":" == "\"" + Escaped(key) + "\":";
  }

  lemma {:induction false} MembersTrail(keys: seq<string>, members: map<string, Value>)
    requires forall k :: k in keys ==> k in members
    ensures MembersText(keys, Obj(members), false) == Trailing(Entries(keys, members))
    decreases |keys|
  {
    if keys != [] {
      EntryText(keys[0], members[keys[0]]);
      MembersTrail(keys[1..], members);
      assert Entries(keys, members)[1..] == Entries(keys[1..], members);
    }
  }

  /** An object is its members by ascending key, each its quoted key, a colon and its text, with commas between them. */
  lemma ObjectForm(members: map<string, Value>, keys: seq<string>)
    requires Ascending(keys) && Elements(keys) == members.Keys && forall k :: k in keys ==> k in members
    ensures Text(Obj(members)) == "{" + Joined(Entries(keys, members)) + "}"
  {
    AscendingUnique(keys, SortedKeys(members.Keys));
    MembersJoin(keys, members);
  }

  lemma MembersJoin(keys: seq<string>, members: map<string, Value>)
    requires forall k :: k in keys ==> k in members
    ensures MembersText(keys, Obj(members), true) == Joined(Entries(keys, members))
  {
    if keys != [] {
      FirstMember(keys, members);
      MembersTrail(keys[1..], members);
      JoinedTrails(Entries(keys, members));
      assert Entries(keys, members)[1..] == Entries(keys[1..], members);
    }
  }

  lemma FirstMember(keys: seq<string>, members: map<string, Value>)
    requires keys != [] && forall k :: k in keys ==> k in members
    ensures
      MembersText(keys, Obj(members), true) == Entries(keys, members)[0] + MembersText(keys[1..], Obj(members), false)
  {
    EntryText(keys[0], members[keys[0]]);
    assert Comma(true) + MemberText(keys[0], members[keys[0]]) == MemberText(keys[0], members[keys[0]]);
  }

  /** One key comes before another when it is a proper prefix of it, or smaller where they first differ. */
  ghost predicate Precedes(a: string, b: string) {
    exists n: nat :: FirstDifference(a, b, n)
  }

  predicate FirstDifference(a: string, b: string, n: nat) {
    n <= |a| && n < |b| && a[..n] == b[..n] && (n < |a| ==> a[n] < b[n])
  }

  lemma FirstStarts(a: string, b: string, n: nat)
    requires FirstDifference(a, b, n)
    ensures n > 0 ==> a != [] && b != [] && a[0] == b[0]
  {
    if n > 0 {
      assert a[..n][0] == b[..n][0];
    }
  }

  lemma FirstShifts(a: string, b: string, n: nat)
    requires a != [] && b != [] && a[0] == b[0] && FirstDifference(a, b, n)
    ensures n > 0 && FirstDifference(a[1..], b[1..], n - 1)
  {
    assert a[1..][..n - 1] == a[..n][1..] && b[1..][..n - 1] == b[..n][1..];
  }

  lemma {:induction false} BeforeMeans(a: string, b: string)
    ensures Before(a, b) <==> Precedes(a, b)
  {
    if a != [] && b != [] && a[0] == b[0] {
      BeforeMeans(a[1..], b[1..]);
      if n: nat :| FirstDifference(a[1..], b[1..], n) {
        assert a[..n + 1] == [a[0]] + a[1..][..n] && b[..n + 1] == [b[0]] + b[1..][..n];
        assert FirstDifference(a, b, n + 1);
      }
      if n: nat :| FirstDifference(a, b, n) {
        FirstShifts(a, b, n);
      }
    } else {
      assert b != [] && (a == [] || a[0] < b[0]) ==> FirstDifference(a, b, 0);
      forall n: nat | FirstDifference(a, b, n)
        ensures n == 0
      {
        FirstStarts(a, b, n);
      }
    }
  }

  /** A character that stands for itself in a string. */
  predicate Plain(c: char) {
    c >= ' ' && c != '"' && c != '\\' && c as int != 0xfffd
  }

  /** Plain characters stand for themselves; the others start with a backslash, in two characters or in six. */
  lemma CharForm(c: char)
    ensures Escape(c) == [c] <==> Plain(c)
    ensures !Plain(c) ==> Escape(c)[0] == '\\' && |Escape(c)| == if c in "\"\\\U{8}\U{c}\n\r\t" then 2 else 6
    ensures !Plain(c) && |Escape(c)| == 6 ==> Escape(c)[1] == 'u'
    ensures Escape('"') == "\\\"" && Escape('\\') == "\\\\" && Escape('\n') == "\\n" && Escape('\r') == "\\r" && Escape('\t') == "\\t"
    ensures Escape('\U{8}') == "\\b" && Escape('\U{c}') == "\\f" && Escape('\U{1f}') == "\\u001f" && Escape('\U{fffd}') == "\\ufffd"
  {
  }

  /** A string is its characters' texts, one after the other. */
  lemma {:induction false} StringForm(s: string, t: string)
    ensures Escaped(s + t) == Escaped(s) + Escaped(t)
    decreases |s|
  {
    if s == [] {
      assert s + t == t;
    } else {
      StringForm(s[1..], t);
      assert (s + t)[1..] == s[1..] + t;
      assert Escape(s[0]) + Escaped(s[1..]) + Escaped(t) == Escape(s[0]) + (Escaped(s[1..]) + Escaped(t));
    }
  }

  /** The number a row of digits says. */
  function Said(digits: string): nat
    requires forall i :: 0 <= i < |digits| ==> IsDigit(digits[i])
  {
    if digits == "" then 0
    else
      assert IsDigit(digits[|digits| - 1]);
      10 * Said(digits[..|digits| - 1]) + (digits[|digits| - 1] as int - '0' as int)
  }

  /** A number is its decimal digits without leading zeros, after a minus sign when it is negative. */
  lemma {:induction false} NumberForm(n: nat)
    ensures forall i :: 0 <= i < |Natural(n)| ==> IsDigit(Natural(n)[i])
    ensures Said(Natural(n)) == n && (Natural(n)[0] == '0' ==> Natural(n) == "0")
    ensures Decimal(n) == Natural(n) && (n > 0 ==> Decimal(-(n as int)) == "-" + Natural(n))
  {
    CanonRoundTrip.NaturalStarts(n);
    if n >= 10 {
      NumberForm(n / 10);
      assert Natural(n)[..|Natural(n)| - 1] == Natural(n / 10);
    }
  }

  // ---- the documents a transaction id covers -------------------------------------------------------

  /** A member that is always there. */
  predicate Says(v: Value, name: string, member: Value) {
    v.Obj? && name in v.members && v.members[name] == member
  }

  /** A member left out when it has nothing to say. */
  predicate MaySay(v: Value, name: string, member: Value, silent: bool) {
    v.Obj? && (if silent then name !in v.members else name in v.members && v.members[name] == member)
  }

  /** An envelope's JSON, member by member. */
  lemma EnvelopeForm(e: TxId.Envelope)
    ensures
      var v := TxId.EnvelopeValue(e);
      && Says(v, "kind", Str(e.kind)) && Says(v, "tenant", Str(e.tenant)) && Says(v, "message", Str(e.message))
      && Says(v, "timestamp", Num(e.timestamp)) && Says(v, "author", Obj(TxId.Members(TxId.AuthorFields(e.author))))
      && MaySay(v, "class", Str(e.cls), e.cls == "") && MaySay(v, "schema_id", Str(e.schemaId), e.schemaId == "")
      && MaySay(v, "object_ids", Arr(TxId.Strings(e.objectIds)), e.objectIds == [])
      && MaySay(v, "refs", Arr(TxId.Refs(e.refs)), e.refs == [])
      && v.members.Keys <= {"kind", "tenant", "class", "schema_id", "object_ids", "author", "timestamp", "message", "refs"}
  {
    var fields := TxId.EnvelopeFields(e);
    TxId.EnvelopeNames(e);
    forall i: nat | i < |fields|
      ensures
        fields[i].value == if fields[i].name in TxId.Members(fields) then Some(TxId.Members(fields)[fields[i].name]) else None
    {
      TxId.MemberAt(fields, i);
    }
    TxId.MembersNamed(fields);
    assert fields[0].name == "kind" && fields[1].name == "tenant" && fields[2].name == "class" && fields[3].name == "schema_id";
    assert fields[4].name == "object_ids" && fields[5].name == "author" && fields[6].name == "timestamp";
    assert fields[7].name == "message" && fields[8].name == "refs";
  }

  // ---- hexadecimal and base64 ---------------------------------------------------------------------

  /** What four bits come to. */
  function Four(a: bool, b: bool, c: bool, d: bool): (n: nat)
    ensures n < 16
  {
    (if a then 8 else 0) + (if b then 4 else 0) + (if c then 2 else 0) + (if d then 1 else 0)
  }

  const HEX := "0123456789abcdef"

  lemma FourBits(bits: seq<bool>)
    requires |bits| == 4
    ensures Numbers.Value(bits) == Four(bits[0], bits[1], bits[2], bits[3])
  {
    assert bits[..3][..2] == bits[..2] && bits[..2][..1] == bits[..1] && bits[..1][..0] == [];
    assert Numbers.Value(bits) == 2 * Numbers.Value(bits[..3]) + if bits[3] then 1 else 0;
    assert Numbers.Value(bits[..3]) == 2 * Numbers.Value(bits[..2]) + if bits[2] then 1 else 0;
    assert Numbers.Value(bits[..2]) == 2 * Numbers.Value(bits[..1]) + if bits[1] then 1 else 0;
    assert Numbers.Value(bits[..1]) == 2 * Numbers.Value(bits[..0]) + if bits[0] then 1 else 0;
  }

  lemma HexLetter(d: nat)
    requires d < 16
    ensures Lineage.HexDigit(d) == HEX[d]
  {
  }

  /** Hexadecimal text: two lower-case digits a byte, the high one first. */
  lemma {:induction false} HexForm(b: seq<Byte>, i: nat)
    requires i < |b|
    ensures |Lineage.Hex(b)| == 2 * |b|
    ensures
      var x := b[i].bits;
      && Lineage.Hex(b)[2 * i] == HEX[Four(x[0], x[1], x[2], x[3])]
      && Lineage.Hex(b)[2 * i + 1] == HEX[Four(x[4], x[5], x[6], x[7])]
    decreases |b|
  {
    FourBits(b[0].bits[..4]);
    FourBits(b[0].bits[4..]);
    HexLetter(Numbers.Value(b[0].bits[..4]));
    HexLetter(Numbers.Value(b[0].bits[4..]));
    if |b| > 1 {
      HexForm(b[1..], if i == 0 then 0 else i - 1);
    }
  }

  const LOWER_F := Byte([false, true, true, false, false, true, true, false])
  const LOWER_O := Byte([false, true, true, false, true, true, true, true])
  const X_FB := Byte([true, true, true, true, true, false, true, true])
  const X_FF := Byte([true, true, true, true, true, true, true, true])

  /** Test vectors of section 10 of RFC 4648, and one that ends in the last two letters of the alphabet. */
  lemma Base64Vectors()
    ensures B64.Encode([LOWER_F]) == "Zg==" && B64.Encode([LOWER_F, LOWER_O]) == "Zm8="
    ensures B64.Encode([LOWER_F, LOWER_O, LOWER_O]) == "Zm9v"
    ensures B64.Encode([X_FB, X_FF]) == "+/8="
  {
    var f, o, x, y := LOWER_F.bits, LOWER_O.bits, X_FB.bits, X_FF.bits;
    var none := [false, false, false, false];
    Letters(f[..6], 25);
    Letters(f[6..] + none, 32);
    Letters(f[6..] + o[..4], 38);
    Letters(o[4..] + none[..2], 60);
    Letters(o[4..] + o[..2], 61);
    Letters(o[2..], 47);
    Letters(x[..6], 62);
    Letters(x[6..] + y[..4], 63);
    Letters(y[4..] + none[..2], 60);
    assert [false, false] == none[..2];
    Encoded1(LOWER_F);
    Encoded2(LOWER_F, LOWER_O);
    Encoded2(X_FB, X_FF);
    Encoded3(LOWER_F, LOWER_O, LOWER_O);
  }

  lemma Letters(bits: seq<bool>, n: nat)
    requires |bits| == 6 && n < 64
    requires n == 4 * Four(bits[0], bits[1], bits[2], bits[3]) + (if bits[4] then 2 else 0) + if bits[5] then 1 else 0
    ensures B64.Sextet(bits) == B64.Letter(n)
  {
    FourBits(bits[..4]);
    assert bits[..5][..4] == bits[..4];
    ValueLast(bits[..5]);
    ValueLast(bits);
    assert bits[..|bits| - 1] == bits[..5];
    B64.SixRange();
  }

  lemma FourChars(a: B64.Symbol, b: B64.Symbol, c: B64.Symbol, d: B64.Symbol)
    ensures B64.Chars([a, b, c, d]) == [B64.SymbolChar(a), B64.SymbolChar(b), B64.SymbolChar(c), B64.SymbolChar(d)]
  {
    var s := [a, b, c, d];
    assert s[1..] == [b, c, d] && s[1..][1..] == [c, d] && s[1..][1..][1..] == [d] && s[1..][1..][1..][1..] == [];
    assert B64.Chars([d]) == [B64.SymbolChar(d)];
    assert B64.Chars([c, d]) == [B64.SymbolChar(c)] + B64.Chars([d]);
    assert B64.Chars([b, c, d]) == [B64.SymbolChar(b)] + B64.Chars([c, d]);
  }

  lemma Encoded1(a: Byte)
    ensures B64.Encode([a]) == [B64.Sextet(a.bits[..6]), B64.Sextet(a.bits[6..] + [false, false, false, false]), '=', '=']
  {
    var s := B64.Symbols([a]);
    FourChars(s[0], s[1], s[2], s[3]);
    assert s == [s[0], s[1], s[2], s[3]];
  }

  lemma Encoded2(a: Byte, b: Byte)
    ensures B64.Encode([a, b]) ==
      [B64.Sextet(a.bits[..6]), B64.Sextet(a.bits[6..] + b.bits[..4]), B64.Sextet(b.bits[4..] + [false, false]), '=']
  {
    var s := B64.Symbols([a, b]);
    FourChars(s[0], s[1], s[2], s[3]);
    assert s == [s[0], s[1], s[2], s[3]];
  }

  lemma Encoded3(a: Byte, b: Byte, c: Byte)
    ensures B64.Encode([a, b, c]) ==
      [B64.Sextet(a.bits[..6]), B64.Sextet(a.bits[6..] + b.bits[..4]), B64.Sextet(b.bits[4..] + c.bits[..2]), B64.Sextet(c.bits[2..])]
  {
    assert [a, b, c][3..] == [] && B64.Symbols([]) == [];
    var s := B64.Symbols([a, b, c]);
    FourChars(s[0], s[1], s[2], s[3]);
    assert s == [s[0], s[1], s[2], s[3]];
  }

  // ---- the wire form of a proof ---------------------------------------------------------------------

  lemma {:induction false} ValueAppend(a: seq<bool>, b: seq<bool>)
    ensures Numbers.Value(a + b) == Numbers.Value(a) * Pow2(|b|) + Numbers.Value(b)
    decreases |b|
  {
    if b == [] {
      assert a + b == a;
    } else {
      var n := |b| - 1;
      ValueAppend(a, b[..n]);
      ValueLast(b);
      ValueLast(a + b);
      assert (a + b)[..|a + b| - 1] == a + b[..n];
      Doubled(Numbers.Value(a), Pow2(n));
      AppendStep(Numbers.Value(a), Pow2(n), Numbers.Value(b[..n]), Numbers.Value(a + b[..n]), b[n]);
    }
  }

  lemma ValueLast(bits: seq<bool>)
    requires bits != []
    ensures Numbers.Value(bits) == 2 * Numbers.Value(bits[..|bits| - 1]) + if bits[|bits| - 1] then 1 else 0
  {
  }

  lemma AppendStep(x: nat, y: nat, low: nat, sum: nat, bit: bool)
    requires sum == x * y + low
    ensures 2 * sum + (if bit then 1 else 0) == 2 * (x * y) + (2 * low + if bit then 1 else 0)
  {
  }

  lemma Doubled(x: nat, y: nat)
    ensures 2 * (x * y) == x * (2 * y)
  {
  }

  /** The low byte first. */
  lemma CountForm(n: nat)
    requires n < 0x1_0000
    ensures ValueOf(CountBytes(n)[0]) + 256 * ValueOf(CountBytes(n)[1]) == n
  {
    CountSplits(n);
    CountMeans(CountBytes(n)[0], CountBytes(n)[1]);
  }

  lemma CountMeans(lo: Byte, hi: Byte)
    ensures CountOf(lo, hi) == ValueOf(lo) + 256 * ValueOf(hi)
  {
    ByteRange();
    ValueAppend(hi.bits, lo.bits);
    assert Pow2(|lo.bits|) == 256;
  }

  lemma {:induction false} SiblingAt(siblings: seq<Merkle.Digest>, i: nat)
    requires i < |siblings|
    ensures Merkle.Flatten(siblings)[32 * i..32 * (i + 1)] == siblings[i]
    decreases |siblings|
  {
    var rest := Merkle.Flatten(siblings[1..]);
    if i > 0 {
      SiblingAt(siblings[1..], i - 1);
      assert Merkle.Flatten(siblings)[32 * i..32 * (i + 1)] == rest[32 * (i - 1)..32 * i];
    }
  }

  /**
   A proof on the wire: one flag byte, the leaf's path and value hash if there is a leaf, the number of siblings in
   two bytes with the low one first, and the siblings in order.
   */
  lemma WireForm(p: Merkle.Proof, i: nat)
    requires |p.siblings| < 0x1_0000 && i < |p.siblings|
    ensures
      var data, off := Merkle.Encode(p), if p.leaf.Some? then 65 else 1;
      && |data| == off + 2 + 32 * |p.siblings|
      && data[0] == (if p.leaf.Some? then ONE else ZERO)
      && (p.leaf.Some? ==> data[1..33] == p.leaf.value.path && data[33..65] == p.leaf.value.vh)
      && ValueOf(data[off]) + 256 * ValueOf(data[off + 1]) == |p.siblings|
      && data[off + 2 + 32 * i..off + 2 + 32 * (i + 1)] == p.siblings[i]
  {
    WireHead(p);
    WireBody(p, i);
  }

  lemma WireHead(p: Merkle.Proof)
    requires |p.siblings| < 0x1_0000
    ensures
      var data, off := Merkle.Encode(p), if p.leaf.Some? then 65 else 1;
      && |data| == off + 2 + 32 * |p.siblings|
      && data[0] == (if p.leaf.Some? then ONE else ZERO)
      && (p.leaf.Some? ==> data[1..33] == p.leaf.value.path && data[33..65] == p.leaf.value.vh)
      && ValueOf(data[off]) + 256 * ValueOf(data[off + 1]) == |p.siblings|
  {
    CountForm(|p.siblings|);
    var data, head := Merkle.Encode(p), Merkle.EncodeLeaf(p.leaf);
    assert data[..|head|] == head;
    if p.leaf.Some? {
      assert head[1..33] == p.leaf.value.path && head[33..65] == p.leaf.value.vh;
      assert data[1..33] == head[1..33] && data[33..65] == head[33..65];
    }
  }

  lemma WireBody(p: Merkle.Proof, i: nat)
    requires |p.siblings| < 0x1_0000 && i < |p.siblings|
    ensures
      var off := if p.leaf.Some? then 65 else 1;
      && |Merkle.Encode(p)| == off + 2 + 32 * |p.siblings|
      && Merkle.Encode(p)[off + 2 + 32 * i..off + 2 + 32 * (i + 1)] == p.siblings[i]
  {
    var off, body := if p.leaf.Some? then 65 else 1, Merkle.Flatten(p.siblings);
    SiblingAt(p.siblings, i);
    assert Merkle.Encode(p)[off + 2..] == body;
    assert Merkle.Encode(p)[off + 2 + 32 * i..off + 2 + 32 * (i + 1)] == body[32 * i..32 * (i + 1)];
  }

  // ---- one entry of a write set -----------------------------------------------------------------------

  /** Another row of the table has the very values the entry gives under a unique index. */
  ghost predicate Taken(sc: WS.Schema, s: WS.State, op: WS.Op) {
    exists u, q :: TakenBy(sc, s, op, u, q)
  }

  ghost predicate TakenBy(sc: WS.Schema, s: WS.State, op: WS.Op, u: set<string>, q: WS.Place) {
    && !op.delete && op.table in sc.unique && u in sc.unique[op.table] && u <= op.values.Keys
    && q in s && q.table == op.table && q.key != op.key
    && forall col :: col in u ==> col in s[q] && s[q][col] == op.values[col]
  }

  /** The entry leaves a column without a value where there is no row yet. */
  predicate Wanting(sc: WS.Schema, s: WS.State, op: WS.Op)
    requires op.table in sc.columns
  {
    !op.delete && WS.Place(op.table, op.key) !in s && exists col :: col in sc.columns[op.table] && col !in op.key && col !in op.values
  }

  lemma PartIs(row: WS.Row, u: set<string>, given: WS.Row)
    requires u <= given.Keys
    ensures WS.Part(row, u) == WS.Part(given, u) <==> forall col :: col in u ==> col in row && row[col] == given[col]
  {
    var a, b := WS.Part(row, u), WS.Part(given, u);
    assert b.Keys == u && forall col :: col in u ==> b[col] == given[col];
    assert forall col :: col in u && col in row ==> col in a && a[col] == row[col];
    if forall col :: col in u ==> col in row && row[col] == given[col] {
      assert a.Keys == u;
      assert forall col :: col in u ==> a[col] == b[col];
    }
  }

  lemma CollidesMeans(sc: WS.Schema, s: WS.State, op: WS.Op)
    ensures WS.Collides(sc, s, op) <==> Taken(sc, s, op)
  {
    if WS.Collides(sc, s, op) {
      var u :| u in sc.unique[op.table] && WS.CollidesOn(sc, s, op, u);
      var q :| q in s && q.table == op.table && q != WS.At(op) && WS.Holds(s, q, u, WS.Part(op.values, u));
      PartIs(s[q], u, op.values);
      assert TakenBy(sc, s, op, u, q);
    }
    if Taken(sc, s, op) {
      var u, q :| TakenBy(sc, s, op, u, q);
      PartIs(s[q], u, op.values);
      assert WS.Holds(s, q, u, WS.Part(op.values, u));
      assert WS.CollidesOn(sc, s, op, u);
    }
  }

  /** The row an entry leaves at its place. */
  predicate Left(sc: WS.Schema, s: WS.State, now: WS.State, op: WS.Op)
    requires op.table in sc.columns
  {
    var at := WS.Place(op.table, op.key);
    if op.delete then at !in now
    else
      && at in now
      && now[at].Keys == (if at in s then s[at].Keys + op.values.Keys else sc.columns[op.table])
      && (forall col :: col in op.values ==> col in now[at] && now[at][col] == op.values[col])
      && (at in s ==> forall col :: col in s[at] && col !in op.values ==> now[at][col] == s[at][col])
      && (at !in s ==> forall col :: col in op.key ==> col in now[at] && now[at][col] == op.key[col])
  }

  /**
   An entry lands unless it leaves a new row wanting a column or another row has its values under a unique index. A
   delete takes the row away; an upsert sets the columns given and leaves the others of the row; no other row changes.
   */
  lemma EntryLands(sc: WS.Schema, s: WS.State, op: WS.Op)
    requires WS.WellShaped(sc, op)
    ensures WS.Step(sc, s, op).None? <==> Wanting(sc, s, op) || Taken(sc, s, op)
    ensures
      var now := WS.Step(sc, s, op);
      now.Some? ==>
        && Left(sc, s, now.value, op)
        && forall q :: q != WS.Place(op.table, op.key) ==>
             (q in now.value <==> q in s) && (q in s ==> now.value[q] == s[q])
  {
    CollidesMeans(sc, s, op);
    assert WS.Partial(sc, op) <==>
      !op.delete && exists col :: col in sc.columns[op.table] && col !in op.key && col !in op.values;
  }

  /** As an entry lands, the placeholder gives way to the transaction's id in keys and values, and nothing else changes. */
  lemma PlaceholderFilled(txid: string, op: WS.Op, col: string)
    ensures
      var r := WS.Substituted(txid, op);
      && r.table == op.table && r.delete == op.delete && r.key.Keys == op.key.Keys && r.values.Keys == op.values.Keys
      && (col in op.key ==> r.key[col] == if op.key[col] == WS.Text("$txid") then WS.Text(txid) else op.key[col])
      && (col in op.values ==> r.values[col] == if op.values[col] == WS.Text("$txid") then WS.Text(txid) else op.values[col])
  {
  }
}
