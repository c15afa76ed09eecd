/** Standard base64 with padding: how a byte column travels inside a JSON write set. */
module Base64 {
  import opened Bits
  import opened Outcomes

  function Letter(n: nat): char
    requires n < 64
  {
    if n < 26 then 'A' + n as char
    else if n < 52 then 'a' + (n - 26) as char
    else if n < 62 then '0' + (n - 52) as char
    else if n == 62 then '+' else '/'
  }

  function LetterValue(c: char): Option<nat> {
    var r := c as int;
    if 'A' as int <= r <= 'Z' as int then Some(r - 'A' as int)
    else if 'a' as int <= r <= 'z' as int then Some(26 + r - 'a' as int)
    else if '0' as int <= r <= '9' as int then Some(52 + r - '0' as int)
    else if c == '+' then Some(62)
    else if c == '/' then Some(63)
    else None
  }

  lemma LetterReads(n: nat)
    requires n < 64
    ensures LetterValue(Letter(n)) == Some(n) && Letter(n) != '='
  {
  }

  lemma SixRange()
    ensures Pow2(6) == 64
  {
    assert Pow2(3) == 8;
  }

  /** Six bits as a letter. */
  function Sextet(bits: seq<bool>): char
    requires |bits| == 6
  {
    SixRange();
    Letter(Value(bits))
  }

  function SextetBits(c: char): (bits: Option<seq<bool>>)
    ensures bits.Some? ==> |bits.value| == 6
  {
    var n := LetterValue(c);
    if n.None? then None else Some(Digits(n.value, 6))
  }

  lemma SextetReads(bits: seq<bool>)
    requires |bits| == 6
    ensures SextetBits(Sextet(bits)) == Some(bits) && Sextet(bits) != '='
  {
    SixRange();
    LetterReads(Value(bits));
    DigitsValue(bits);
  }

  // ---- groups of six bits -----------------------------------------------------------

  type Six = bits: seq<bool> | |bits| == 6 witness [false, false, false, false, false, false]

  datatype Symbol = Pad | Sym(bits: Six)

  function Byte1(p: Six, q: Six): Byte {
    Byte(p + q[..2])
  }

  function Byte2(q: Six, r: Six): Byte {
    Byte(q[2..] + r[..4])
  }

  function Byte3(r: Six, t: Six): Byte {
    Byte(r[4..] + t)
  }

  function Symbols(b: seq<Byte>): seq<Symbol> {
    if |b| == 0 then []
    else if |b| == 1 then
      [Sym(b[0].bits[..6]), Sym(b[0].bits[6..] + [false, false, false, false]), Pad, Pad]
    else if |b| == 2 then
      [Sym(b[0].bits[..6]), Sym(b[0].bits[6..] + b[1].bits[..4]), Sym(b[1].bits[4..] + [false, false]), Pad]
    else
      [Sym(b[0].bits[..6]), Sym(b[0].bits[6..] + b[1].bits[..4]), Sym(b[1].bits[4..] + b[2].bits[..2]), Sym(b[2].bits[2..])]
      + Symbols(b[3..])
  }

  function BytesOf(s: seq<Symbol>): Option<seq<Byte>> {
    if s == [] then Some([])
    else if |s| < 4 || s[0].Pad? || s[1].Pad? then None
    else if s[2].Pad? then
      if |s| == 4 && s[3].Pad? then Some([Byte1(s[0].bits, s[1].bits)]) else None
    else if s[3].Pad? then
      if |s| == 4 then Some([Byte1(s[0].bits, s[1].bits), Byte2(s[1].bits, s[2].bits)]) else None
    else
      var rest := BytesOf(s[4..]);
      if rest.None? then None
      else Some([Byte1(s[0].bits, s[1].bits), Byte2(s[1].bits, s[2].bits), Byte3(s[2].bits, s[3].bits)] + rest.value)
  }

  lemma ByteSplits(b: Byte)
    ensures Byte(b.bits[..6] + b.bits[6..]) == b
    ensures Byte(b.bits[..4] + b.bits[4..]) == b
    ensures Byte(b.bits[..2] + b.bits[2..]) == b
  {
    assert b.bits[..6] + b.bits[6..] == b.bits && b.bits[..4] + b.bits[4..] == b.bits && b.bits[..2] + b.bits[2..] == b.bits;
  }

  lemma Joins(x: Byte, tail: seq<bool>, y: Byte)
    requires |tail| == 4
    ensures Byte1(x.bits[..6], x.bits[6..] + tail) == x
    ensures Byte2(x.bits[6..] + y.bits[..4], y.bits[4..] + tail[..2]) == y
    ensures Byte3(x.bits[4..] + y.bits[..2], y.bits[2..]) == y
  {
    ByteSplits(x);
    ByteSplits(y);
    assert (x.bits[6..] + tail)[..2] == x.bits[6..];
    assert (x.bits[6..] + y.bits[..4])[2..] == y.bits[..4] && (y.bits[4..] + tail[..2])[..4] == y.bits[4..];
    assert (x.bits[4..] + y.bits[..2])[4..] == y.bits[..2];
  }

  lemma {:induction false} BytesOfSymbols(b: seq<Byte>)
    ensures BytesOf(Symbols(b)) == Some(b)
    decreases |b|
  {
    if |b| == 1 {
      Joins(b[0], [false, false, false, false], b[0]);
      assert b == [b[0]];
    } else if |b| == 2 {
      Joins(b[0], b[1].bits[..4], b[1]);
      Joins(b[0], [false, false, false, false], b[1]);
      assert b == [b[0], b[1]];
    } else if |b| >= 3 {
      BytesOfSymbols(b[3..]);
      Joins(b[0], b[1].bits[..4], b[1]);
      Joins(b[0], b[2].bits[..4], b[1]);
      Joins(b[1], b[2].bits[..4], b[2]);
      assert b[2].bits[..4][..2] == b[2].bits[..2];
      assert Symbols(b)[4..] == Symbols(b[3..]);
      assert b == [b[0], b[1], b[2]] + b[3..];
    }
  }

  // ---- groups as letters --------------------------------------------------------------

  function SymbolChar(s: Symbol): char {
    if s.Pad? then '=' else Sextet(s.bits)
  }

  function CharSymbol(c: char): Option<Symbol> {
    if c == '=' then Some(Pad)
    else
      var bits := SextetBits(c);
      if bits.None? then None else Some(Sym(bits.value))
  }

  lemma SymbolReads(s: Symbol)
    ensures CharSymbol(SymbolChar(s)) == Some(s)
  {
    if s.Sym? {
      SextetReads(s.bits);
    }
  }

  function Chars(s: seq<Symbol>): string {
    if s == [] then "" else [SymbolChar(s[0])] + Chars(s[1..])
  }

  function SymbolsIn(text: string): Option<seq<Symbol>> {
    if text == "" then Some([])
    else
      var first, rest := CharSymbol(text[0]), SymbolsIn(text[1..]);
      if first.None? || rest.None? then None else Some([first.value] + rest.value)
  }

  lemma {:induction false} CharsRead(s: seq<Symbol>)
    ensures SymbolsIn(Chars(s)) == Some(s)
  {
    if s != [] {
      SymbolReads(s[0]);
      CharsRead(s[1..]);
      assert Chars(s)[0] == SymbolChar(s[0]) && Chars(s)[1..] == Chars(s[1..]);
      assert s == [s[0]] + s[1..];
    }
  }

  function Encode(b: seq<Byte>): string {
    Chars(Symbols(b))
  }

  function Decode(text: string): Option<seq<Byte>> {
    var symbols := SymbolsIn(text);
    if symbols.None? then None else BytesOf(symbols.value)
  }

  lemma DecodeEncode(b: seq<Byte>)
    ensures Decode(Encode(b)) == Some(b)
  {
    CharsRead(Symbols(b));
    BytesOfSymbols(b);
  }
}
