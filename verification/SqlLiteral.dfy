/**
 Statement text (`internal/store/store.go`, `renderSQL` in `internal/register/workflow.go`): values
 become SQL literals, and a MySQL lexer reads the same tokens back whatever the values are.

 The lexer covers words and numbers, the three quoted forms and single-character symbols. It gives
 up on comment openers, which a condition has no use for. Doubles and byte strings are not among the
 values modelled.
 */
module SqlLiteral {
  import opened Outcomes
  import Canon

  // ---- quoting ------------------------------------------------------------------

  const NUL: char := 0 as char
  const SUB: char := 0x1a as char
  const LF: char := 10 as char
  const CR: char := 13 as char

  function QuoteChar(c: char): (text: string)
    ensures text != ""
  {
    if c == NUL then "\\0"
    else if c == '\'' then "\\'"
    else if c == '"' then "\\\""
    else if c == '\\' then "\\\\"
    else if c == LF then "\\n"
    else if c == CR then "\\r"
    else if c == SUB then "\\Z"
    else [c]
  }

  function QuoteBody(s: string): string {
    if s == "" then "" else QuoteChar(s[0]) + QuoteBody(s[1..])
  }

  method Quote(s: string) returns (b: string)
    ensures b == "'" + QuoteBody(s) + "'"
  {
    b := "'";
    for i := 0 to |s|
      invariant b + QuoteBody(s[i..]) == "'" + QuoteBody(s)
    {
      ghost var before := b;
      var c := s[i];
      if c == NUL {
        b := b + "\\0";
      } else if c == '\'' {
        b := b + "\\'";
      } else if c == '"' {
        b := b + "\\\"";
      } else if c == '\\' {
        b := b + "\\\\";
      } else if c == LF {
        b := b + "\\n";
      } else if c == CR {
        b := b + "\\r";
      } else if c == SUB {
        b := b + "\\Z";
      } else {
        b := b + [c];
      }
      assert b == before + QuoteChar(c);
      QuoteStep(before, s, i);
    }
    b := b + "'";
  }

  lemma QuoteStep(before: string, s: string, i: nat)
    requires i < |s|
    ensures before + QuoteChar(s[i]) + QuoteBody(s[i + 1..]) == before + QuoteBody(s[i..])
  {
    assert s[i..][0] == s[i] && s[i..][1..] == s[i + 1..];
  }

  /** The values a condition can be given: `sqlValue` of a proposal's fields and of the context. */
  datatype Param = Absent | Flag(b: bool) | Whole(n: Canon.Int64) | Words(s: string)

  function Lit(v: Param): string {
    match v
    case Absent => "NULL"
    case Flag(b) => if b then "TRUE" else "FALSE"
    case Whole(n) => Canon.Decimal(n)
    case Words(s) => "'" + QuoteBody(s) + "'"
  }

  // ---- templates -------------------------------------------------------------------

  /** A template is text with holes, `{{key}}`. */
  datatype Item = Ch(c: char) | Hole(key: string)

  predicate IsLetter(c: char) {
    'a' as int <= c as int <= 'z' as int || 'A' as int <= c as int <= 'Z' as int
  }

  predicate IsKeyChar(c: char) {
    IsLetter(c) || Canon.IsDigit(c) || c == '_' || c == '.'
  }

  function KeyRun(s: string): (n: nat)
    ensures n <= |s|
  {
    if s != "" && IsKeyChar(s[0]) then 1 + KeyRun(s[1..]) else 0
  }

  /** The key of the placeholder a text starts with, if it starts with one. */
  function Placeholder(s: string): (key: Option<string>)
    ensures key.Some? ==> |key.value| + 4 <= |s|
  {
    if |s| < 2 || s[0] != '{' || s[1] != '{' then None
    else
      var n := KeyRun(s[2..]);
      if n > 0 && n + 4 <= |s| && s[n + 2] == '}' && s[n + 3] == '}' then Some(s[2..n + 2]) else None
  }

  /** The first item of a text and how many characters it takes. */
  function Next(s: string): (r: (Item, nat))
    requires s != ""
    ensures 0 < r.1 <= |s|
  {
    var key := Placeholder(s);
    if key.Some? then (Hole(key.value), |key.value| + 4) else (Ch(s[0]), 1)
  }

  function Items(s: string): seq<Item>
    decreases |s|
  {
    if s == "" then [] else [Next(s).0] + Items(s[Next(s).1..])
  }

  type Context = map<string, Param>

  function ValueOf(ctx: Context, key: string): Param {
    if key in ctx then ctx[key] else Absent
  }

  function Piece(item: Item, ctx: Context): string {
    match item
    case Ch(c) => [c]
    case Hole(key) => Lit(ValueOf(ctx, key))
  }

  function Render(items: seq<Item>, ctx: Context): string {
    if items == [] then "" else Piece(items[0], ctx) + Render(items[1..], ctx)
  }

  method LitOf(v: Param) returns (text: string)
    ensures text == Lit(v)
  {
    match v
    case Absent => text := "NULL";
    case Flag(b) => text := if b then "TRUE" else "FALSE";
    case Whole(n) => text := Canon.Decimal(n);
    case Words(s) => text := Quote(s);
  }

  /** `ReplaceAllStringFunc` over the placeholder pattern. */
  method RenderSQL(tmpl: string, ctx: Context) returns (out: string)
    ensures out == Render(Items(tmpl), ctx)
  {
    out := "";
    var rest := tmpl;
    while rest != ""
      invariant out + Render(Items(rest), ctx) == Render(Items(tmpl), ctx)
      decreases |rest|
    {
      var (item, n) := Next(rest);
      RenderStep(out, item, Items(rest[n..]), ctx);
      var text := PieceOf(item, ctx);
      out := out + text;
      rest := rest[n..];
    }
  }

  method PieceOf(item: Item, ctx: Context) returns (text: string)
    ensures text == Piece(item, ctx)
  {
    match item
    case Ch(c) => text := [c];
    case Hole(key) => text := LitOf(ValueOf(ctx, key));
  }

  lemma RenderStep(before: string, item: Item, rest: seq<Item>, ctx: Context)
    ensures before + Piece(item, ctx) + Render(rest, ctx) == before + Render([item] + rest, ctx)
  {
    assert ([item] + rest)[1..] == rest;
  }

  // ---- the lexer ---------------------------------------------------------------------

  datatype Token = Word(s: string) | StringLit(s: string) | Ident(s: string) | Symbol(c: char) | Place(key: string)

  function Chars(s: string): (items: seq<Item>)
    ensures |items| == |s|
    ensures forall i :: 0 <= i < |s| ==> items[i] == Ch(s[i])
  {
    if s == "" then [] else [Ch(s[0])] + Chars(s[1..])
  }

  predicate StartsWith(items: seq<Item>, c: char) {
    items != [] && items[0] == Ch(c)
  }

  predicate StartsHole(items: seq<Item>) {
    items != [] && items[0].Hole?
  }

  predicate IsSpace(c: char) {
    c == ' ' || c == '\t' || c == '\n' || c == '\r'
  }

  predicate IsWordChar(c: char) {
    IsLetter(c) || Canon.IsDigit(c) || c == '_' || c == '.' || c == '$' || c as int >= 0x80
  }

  predicate StartsWord(items: seq<Item>) {
    items != [] && items[0].Ch? && IsWordChar(items[0].c)
  }

  /** What a backslash and the character after it stand for inside a string literal. */
  function Unescape(c: char): string {
    if c == '0' then [NUL]
    else if c == 'n' then [LF]
    else if c == 'r' then [CR]
    else if c == 't' then [9 as char]
    else if c == 'b' then [8 as char]
    else if c == 'Z' then [SUB]
    else if c == '%' || c == '_' then ['\\', c]
    else [c]
  }

  datatype Cut = NoCut | Cut(text: string, rest: seq<Item>)

  /** The rest of a string literal after its opening quote `q`; a doubled quote stands for itself. */
  function LexString(items: seq<Item>, q: char): (cut: Cut)
    ensures cut.Cut? ==> |cut.rest| < |items|
    decreases |items|
  {
    if items == [] || items[0].Hole? then NoCut
    else
      var c, rest := items[0].c, items[1..];
      if c == '\\' then
        if rest == [] || rest[0].Hole? then NoCut
        else
          var more := LexString(rest[1..], q);
          if more.NoCut? then NoCut else Cut(Unescape(rest[0].c) + more.text, more.rest)
      else if c == q then
        if StartsHole(rest) then NoCut
        else if StartsWith(rest, q) then
          var more := LexString(rest[1..], q);
          if more.NoCut? then NoCut else Cut([q] + more.text, more.rest)
        else Cut("", rest)
      else
        var more := LexString(rest, q);
        if more.NoCut? then NoCut else Cut([c] + more.text, more.rest)
  }

  /** The rest of a back-quoted identifier. */
  function LexIdent(items: seq<Item>): (cut: Cut)
    ensures cut.Cut? ==> |cut.rest| < |items|
  {
    if items == [] || items[0].Hole? then NoCut
    else if items[0].c == '`' then Cut("", items[1..])
    else
      var more := LexIdent(items[1..]);
      if more.NoCut? then NoCut else Cut([items[0].c] + more.text, more.rest)
  }

  /** The longest run of word characters. */
  function LexWord(items: seq<Item>): (cut: Cut)
    ensures cut.Cut? && |cut.rest| <= |items|
    ensures StartsWord(items) ==> |cut.rest| < |items|
    ensures !StartsWord(cut.rest)
  {
    if StartsWord(items) then
      var more := LexWord(items[1..]);
      Cut([items[0].c] + more.text, more.rest)
    else Cut("", items)
  }

  predicate OpensComment(c: char, rest: seq<Item>) {
    c == '#' || (c == '-' && (StartsWith(rest, '-') || StartsHole(rest))) || (c == '/' && StartsWith(rest, '*'))
  }

  /** A hole must stand on its own: not inside or against a quote, and not against a word. */
  predicate StandsAlone(rest: seq<Item>) {
    !StartsHole(rest) && !StartsWord(rest) && !StartsWith(rest, '\'') && !StartsWith(rest, '"')
  }

  function Then(first: seq<Token>, rest: Option<seq<Token>>): Option<seq<Token>> {
    if rest.None? then None else Some(first + rest.value)
  }

  function Lex(items: seq<Item>): Option<seq<Token>>
    decreases |items|
  {
    if items == [] then Some([])
    else if items[0].Hole? then
      if StandsAlone(items[1..]) then Then([Place(items[0].key)], Lex(items[1..])) else None
    else
      var c, rest := items[0].c, items[1..];
      if IsSpace(c) then Lex(rest)
      else if c == '\'' || c == '"' then
        var cut := LexString(rest, c);
        if cut.NoCut? then None else Then([StringLit(cut.text)], Lex(cut.rest))
      else if c == '`' then
        var cut := LexIdent(rest);
        if cut.NoCut? || StartsHole(cut.rest) then None else Then([Ident(cut.text)], Lex(cut.rest))
      else if IsWordChar(c) then
        var cut := LexWord(items);
        if StartsHole(cut.rest) then None else Then([Word(cut.text)], Lex(cut.rest))
      else if OpensComment(c, rest) then None
      else Then([Symbol(c)], Lex(rest))
  }

  function LitTokens(v: Param): seq<Token> {
    match v
    case Absent => [Word("NULL")]
    case Flag(b) => [Word(if b then "TRUE" else "FALSE")]
    case Whole(n) => if n < 0 then [Symbol('-'), Word(Canon.Natural(0 - (n as int)))] else [Word(Canon.Natural(n))]
    case Words(s) => [StringLit(s)]
  }

  /** A template's tokens with each placeholder replaced by the tokens of one literal. */
  function Filled(tokens: seq<Token>, ctx: Context): seq<Token> {
    if tokens == [] then []
    else (if tokens[0].Place? then LitTokens(ValueOf(ctx, tokens[0].key)) else [tokens[0]]) + Filled(tokens[1..], ctx)
  }
}
