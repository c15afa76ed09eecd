/** Rendering a template never changes the shape of the statement. */
module SqlShape {
  import opened Outcomes
  import opened SqlLiteral
  import Canon
  import CanonRoundTrip

  lemma CharsAppend(a: string, b: string)
    ensures Chars(a + b) == Chars(a) + Chars(b)
  {
  }

  // ---- quoted literals -----------------------------------------------------------

  lemma EscapeReads(c: char)
    ensures |QuoteChar(c)| == 1 ==> QuoteChar(c) == [c] && c != '\\' && c != '\''
    ensures |QuoteChar(c)| != 1 ==> |QuoteChar(c)| == 2 && QuoteChar(c)[0] == '\\' && Unescape(QuoteChar(c)[1]) == [c]
  {
  }

  lemma PlainReads(c: char, tail: seq<Item>)
    requires c != '\\' && c != '\''
    ensures
      var more := LexString(tail, '\'');
      LexString([Ch(c)] + tail, '\'') == if more.NoCut? then NoCut else Cut([c] + more.text, more.rest)
  {
    assert ([Ch(c)] + tail)[1..] == tail;
  }

  lemma EscapedReads(e: char, c: char, tail: seq<Item>)
    requires Unescape(e) == [c]
    ensures
      var more := LexString(tail, '\'');
      LexString([Ch('\\'), Ch(e)] + tail, '\'') == if more.NoCut? then NoCut else Cut([c] + more.text, more.rest)
  {
    var items := [Ch('\\'), Ch(e)] + tail;
    assert items[1..][1..] == tail;
  }

  lemma QuotedCharReads(c: char, tail: seq<Item>)
    ensures
      var more := LexString(tail, '\'');
      LexString(Chars(QuoteChar(c)) + tail, '\'') == if more.NoCut? then NoCut else Cut([c] + more.text, more.rest)
  {
    EscapeReads(c);
    var q := QuoteChar(c);
    if |q| == 1 {
      assert Chars(q) == [Ch(c)];
      PlainReads(c, tail);
    } else {
      assert Chars(q) == [Ch(q[0]), Ch(q[1])];
      EscapedReads(q[1], c, tail);
    }
  }

  /**
   A quoted literal reads back as the string, and the lexer stops right after it, whatever follows
   except another quote.
   */
  lemma {:induction false} QuoteReads(s: string, tail: seq<Item>)
    requires !StartsWith(tail, '\'') && !StartsHole(tail)
    ensures LexString(Chars(QuoteBody(s)) + [Ch('\'')] + tail, '\'') == Cut(s, tail)
  {
    var items := Chars(QuoteBody(s)) + [Ch('\'')] + tail;
    if s == "" {
      assert items == [Ch('\'')] + tail && items[1..] == tail;
    } else {
      var rest := Chars(QuoteBody(s[1..])) + [Ch('\'')] + tail;
      CharsAppend(QuoteChar(s[0]), QuoteBody(s[1..]));
      assert items == Chars(QuoteChar(s[0])) + rest;
      QuoteReads(s[1..], tail);
      QuotedCharReads(s[0], rest);
      assert s == [s[0]] + s[1..];
    }
  }

  // ---- words and numbers ------------------------------------------------------------

  predicate AllWord(s: string) {
    forall i :: 0 <= i < |s| ==> IsWordChar(s[i])
  }

  lemma {:induction false} WordReads(w: string, tail: seq<Item>)
    requires AllWord(w) && !StartsWord(tail)
    ensures LexWord(Chars(w) + tail) == Cut(w, tail)
  {
    var items := Chars(w) + tail;
    if w == "" {
      assert items == tail;
    } else {
      assert items[0] == Ch(w[0]) && items[1..] == Chars(w[1..]) + tail;
      forall i | 0 <= i < |w[1..]|
        ensures IsWordChar(w[1..][i])
      {
        assert w[1..][i] == w[i + 1];
      }
      WordReads(w[1..], tail);
      assert StartsWord(items) && [w[0]] + w[1..] == w;
    }
  }

  lemma {:induction false} NaturalIsWord(n: nat)
    ensures AllWord(Canon.Natural(n))
  {
    CanonRoundTrip.DigitReads(n % 10);
    if n >= 10 {
      NaturalIsWord(n / 10);
    }
  }

  lemma WordLexes(w: string, tail: seq<Item>)
    requires w != "" && AllWord(w) && !StartsWord(tail) && !StartsHole(tail)
    ensures Lex(Chars(w) + tail) == Then([Word(w)], Lex(tail))
  {
    var items := Chars(w) + tail;
    WordReads(w, tail);
    assert items[0] == Ch(w[0]);
    WordCharOnly(w[0]);
  }

  lemma WordCharOnly(c: char)
    requires IsWordChar(c)
    ensures !IsSpace(c) && c != '\'' && c != '"' && c != '`'
  {
  }

  lemma NumberLexes(n: Canon.Int64, tail: seq<Item>)
    requires StandsAlone(tail)
    ensures Lex(Chars(Canon.Decimal(n)) + tail) == Then(LitTokens(Whole(n)), Lex(tail))
  {
    var m: nat := if n < 0 then 0 - (n as int) else n as int;
    NaturalIsWord(m);
    WordLexes(Canon.Natural(m), tail);
    if n < 0 {
      MinusLexes(Canon.Natural(m), tail);
    }
  }

  lemma StringLexes(s: string, tail: seq<Item>)
    requires StandsAlone(tail)
    ensures Lex(Chars("'" + QuoteBody(s) + "'") + tail) == Then([StringLit(s)], Lex(tail))
  {
    var body := Chars(QuoteBody(s)) + [Ch('\'')] + tail;
    var items := [Ch('\'')] + body;
    QuoteReads(s, tail);
    CharsAppend("'" + QuoteBody(s), "'");
    CharsAppend("'", QuoteBody(s));
    assert Chars("'") == [Ch('\'')];
    assert Chars("'" + QuoteBody(s) + "'") + tail == items;
    assert items[1..] == body;
  }

  /** One literal, standing alone, lexes as its own tokens. */
  lemma LiteralLexes(v: Param, tail: seq<Item>)
    requires StandsAlone(tail)
    ensures Lex(Chars(Lit(v)) + tail) == Then(LitTokens(v), Lex(tail))
  {
    match v
    case Absent =>
      WordLexes("NULL", tail);
    case Flag(b) =>
      WordLexes(if b then "TRUE" else "FALSE", tail);
    case Whole(n) =>
      NumberLexes(n, tail);
    case Words(s) =>
      StringLexes(s, tail);
  }

  lemma MinusLexes(w: string, tail: seq<Item>)
    requires w != "" && AllWord(w)
    ensures Lex(Chars("-" + w) + tail) == Then([Symbol('-')], Lex(Chars(w) + tail))
    ensures Then([Symbol('-')], Then([Word(w)], Lex(tail))) == Then([Symbol('-'), Word(w)], Lex(tail))
  {
    var items := Chars("-" + w) + tail;
    assert items[1..] == Chars(w) + tail;
    assert items[1..][0] == Ch(w[0]);
    WordCharOnly(w[0]);
    if Lex(tail).Some? {
      assert [Symbol('-')] + ([Word(w)] + Lex(tail).value) == [Symbol('-'), Word(w)] + Lex(tail).value;
    }
  }

  // ---- templates ---------------------------------------------------------------------

  function Text(items: seq<Item>, ctx: Context): seq<Item> {
    Chars(Render(items, ctx))
  }

  lemma TextStep(items: seq<Item>, ctx: Context)
    requires items != []
    ensures Text(items, ctx) == Chars(Piece(items[0], ctx)) + Text(items[1..], ctx)
    ensures items[0].Ch? ==> Text(items, ctx) == [items[0]] + Text(items[1..], ctx) && Text(items, ctx)[1..] == Text(items[1..], ctx)
  {
    CharsAppend(Piece(items[0], ctx), Render(items[1..], ctx));
  }

  /** Up to the next hole, the rendered text starts as the template does. */
  lemma SameStart(items: seq<Item>, ctx: Context)
    requires !StartsHole(items)
    ensures items == [] ==> Text(items, ctx) == []
    ensures items != [] ==> Text(items, ctx) != [] && Text(items, ctx)[0] == items[0]
  {
    if items != [] {
      TextStep(items, ctx);
    }
  }

  lemma {:induction false} StringRenders(items: seq<Item>, q: char, ctx: Context)
    requires LexString(items, q).Cut?
    ensures !StartsHole(LexString(items, q).rest)
    ensures LexString(Text(items, ctx), q) == Cut(LexString(items, q).text, Text(LexString(items, q).rest, ctx))
    decreases |items|
  {
    var c, rest := items[0].c, items[1..];
    TextStep(items, ctx);
    if c == '\\' {
      TextStep(rest, ctx);
      StringRenders(rest[1..], q, ctx);
    } else if c == q {
      SameStart(rest, ctx);
      if StartsWith(rest, q) {
        TextStep(rest, ctx);
        StringRenders(rest[1..], q, ctx);
      }
    } else {
      StringRenders(rest, q, ctx);
    }
  }

  lemma {:induction false} IdentRenders(items: seq<Item>, ctx: Context)
    requires LexIdent(items).Cut?
    ensures LexIdent(Text(items, ctx)) == Cut(LexIdent(items).text, Text(LexIdent(items).rest, ctx))
    decreases |items|
  {
    TextStep(items, ctx);
    if items[0].c != '`' {
      IdentRenders(items[1..], ctx);
    }
  }

  lemma {:induction false} WordRenders(items: seq<Item>, ctx: Context)
    requires !StartsHole(LexWord(items).rest)
    ensures LexWord(Text(items, ctx)) == Cut(LexWord(items).text, Text(LexWord(items).rest, ctx))
    decreases |items|
  {
    if StartsWord(items) {
      TextStep(items, ctx);
      WordRenders(items[1..], ctx);
    } else {
      SameStart(items, ctx);
    }
  }

  lemma FilledStep(first: Token, rest: seq<Token>, ctx: Context)
    ensures Filled([first] + rest, ctx)
         == (if first.Place? then LitTokens(ValueOf(ctx, first.key)) else [first]) + Filled(rest, ctx)
  {
    assert ([first] + rest)[1..] == rest;
  }

  /**
   Shape: when a template lexes with its holes standing on their own, the rendered statement lexes
   as the template with each hole replaced by one literal, for every choice of values.
   */
  lemma {:induction false} RenderKeepsShape(items: seq<Item>, ctx: Context)
    requires Lex(items).Some?
    ensures Lex(Text(items, ctx)) == Some(Filled(Lex(items).value, ctx))
    decreases |items|
  {
    if items == [] {
    } else if items[0].Hole? {
      HoleRenders(items, ctx);
    } else {
      var c, rest := items[0].c, items[1..];
      TextStep(items, ctx);
      if IsSpace(c) {
        RenderKeepsShape(rest, ctx);
      } else if c == '\'' || c == '"' {
        StringRenders(rest, c, ctx);
        var cut := LexString(rest, c);
        RenderKeepsShape(cut.rest, ctx);
        FilledStep(StringLit(cut.text), Lex(cut.rest).value, ctx);
      } else if c == '`' {
        IdentRenders(rest, ctx);
        var cut := LexIdent(rest);
        RenderKeepsShape(cut.rest, ctx);
        SameStart(cut.rest, ctx);
        FilledStep(Ident(cut.text), Lex(cut.rest).value, ctx);
      } else if IsWordChar(c) {
        WordRenders(items, ctx);
        var cut := LexWord(items);
        RenderKeepsShape(cut.rest, ctx);
        SameStart(cut.rest, ctx);
        FilledStep(Word(cut.text), Lex(cut.rest).value, ctx);
      } else {
        SymbolRenders(items, ctx);
      }
    }
  }

  lemma {:induction false} HoleRenders(items: seq<Item>, ctx: Context)
    requires items != [] && items[0].Hole? && Lex(items).Some?
    ensures Lex(Text(items, ctx)) == Some(Filled(Lex(items).value, ctx))
    decreases |items|, 0
  {
    var rest := items[1..];
    var v := ValueOf(ctx, items[0].key);
    TextStep(items, ctx);
    SameStart(rest, ctx);
    RenderKeepsShape(rest, ctx);
    LiteralLexes(v, Text(rest, ctx));
    FilledStep(Place(items[0].key), Lex(rest).value, ctx);
  }

  lemma {:induction false} SymbolRenders(items: seq<Item>, ctx: Context)
    requires items != [] && items[0].Ch? && Lex(items).Some?
    requires
      var c := items[0].c;
      !IsSpace(c) && c != '\'' && c != '"' && c != '`' && !IsWordChar(c)
    ensures Lex(Text(items, ctx)) == Some(Filled(Lex(items).value, ctx))
    decreases |items|, 0
  {
    var c, rest := items[0].c, items[1..];
    TextStep(items, ctx);
    RenderKeepsShape(rest, ctx);
    FilledStep(Symbol(c), Lex(rest).value, ctx);
    if StartsHole(rest) {
      var v := ValueOf(ctx, rest[0].key);
      TextStep(rest, ctx);
      LiteralStarts(v);
      assert Text(rest, ctx)[0] == Ch(Lit(v)[0]);
    } else {
      SameStart(rest, ctx);
    }
  }

  lemma LiteralStarts(v: Param)
    ensures Lit(v) != "" && Lit(v)[0] != '*' && (Lit(v)[0] == '-' ==> v.Whole?)
  {
    if v.Whole? && v.n >= 0 {
      CanonRoundTrip.NaturalStarts(v.n);
    }
  }
}
