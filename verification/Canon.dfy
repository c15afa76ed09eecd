/**
 Canonical JSON (`internal/canon/canon.go`): the printer whose output is hashed into every
 transaction id and signature, and a reader of the JSON grammar that undoes it.

 Text is a sequence of Unicode scalar values; its UTF-8 form is not part of this model. Sorting keys
 by scalar value is what Go's byte order on valid UTF-8 comes to. Numbers are the integers of 64
 bits that `writeNumber` prints verbatim.
 */
module Canon {
  import opened Outcomes

  type Int64 = n: int | -0x8000_0000_0000_0000 <= n < 0x8000_0000_0000_0000

  datatype Value =
    | Null
    | Bool(b: bool)
    | Num(n: Int64)
    | Str(s: string)
    | Arr(items: seq<Value>)
    | Obj(members: map<string, Value>)

  // ---- key order --------------------------------------------------------------

  predicate Before(a: string, b: string) {
    if a == [] then b != []
    else b != [] && (a[0] < b[0] || (a[0] == b[0] && Before(a[1..], b[1..])))
  }

  lemma {:induction false} BeforeTotal(a: string, b: string)
    ensures Before(a, b) || Before(b, a) || a == b
    ensures !(Before(a, b) && Before(b, a)) && !Before(a, a)
  {
    if a != [] {
      BeforeTotal(a[1..], a[1..]);
      if b != [] && a[0] == b[0] {
        BeforeTotal(a[1..], b[1..]);
        assert a == [a[0]] + a[1..] && b == [b[0]] + b[1..];
      }
    }
  }

  lemma {:induction false} BeforeTransitive(a: string, b: string, c: string)
    requires Before(a, b) && Before(b, c)
    ensures Before(a, c)
  {
    if a != [] && a[0] == b[0] && b[0] == c[0] {
      BeforeTransitive(a[1..], b[1..], c[1..]);
    }
  }

  ghost predicate Ascending(keys: seq<string>) {
    forall i, j :: 0 <= i < j < |keys| ==> Before(keys[i], keys[j])
  }

  ghost function Elements(keys: seq<string>): set<string> {
    set k | k in keys
  }

  /** Strictly ascending lists are determined by their elements: map iteration order cannot show. */
  lemma {:induction false} AscendingUnique(a: seq<string>, b: seq<string>)
    requires Ascending(a) && Ascending(b) && Elements(a) == Elements(b)
    ensures a == b
  {
    NoElements(a);
    NoElements(b);
    if a != [] && b != [] {
      assert a[0] in Elements(b) && b[0] in Elements(a);
      var i :| 0 <= i < |b| && b[i] == a[0];
      var j :| 0 <= j < |a| && a[j] == b[0];
      BeforeTotal(a[0], b[0]);
      assert i == 0;
      SameTail(a, b);
      SameTail(b, a);
      AscendingUnique(a[1..], b[1..]);
    }
  }

  lemma NoElements(keys: seq<string>)
    ensures Elements(keys) == {} <==> keys == []
  {
    assert keys != [] ==> keys[0] in Elements(keys);
  }

  lemma SameTail(a: seq<string>, b: seq<string>)
    requires a != [] && b != [] && a[0] == b[0] && Ascending(a) && Elements(a) == Elements(b)
    ensures Elements(a[1..]) <= Elements(b[1..])
  {
    forall k | k in Elements(a[1..])
      ensures k in Elements(b[1..])
    {
      BeforeTotal(a[0], a[0]);
      assert k in Elements(b);
    }
  }

  /** One step of a sort that keeps an ascending list ascending. */
  function Insert(k: string, keys: seq<string>): seq<string> {
    if keys == [] then [k]
    else if Before(k, keys[0]) then [k] + keys
    else [keys[0]] + Insert(k, keys[1..])
  }

  lemma {:induction false} InsertAscending(k: string, keys: seq<string>)
    requires Ascending(keys) && k !in keys
    ensures Ascending(Insert(k, keys)) && Elements(Insert(k, keys)) == Elements(keys) + {k}
  {
    if keys != [] {
      BeforeTotal(k, keys[0]);
      if Before(k, keys[0]) {
        forall j | 0 < j < |keys|
          ensures Before(k, keys[j])
        {
          BeforeTransitive(k, keys[0], keys[j]);
        }
      } else {
        InsertAscending(k, keys[1..]);
        PrependAscending(keys[0], k, keys[1..], Insert(k, keys[1..]));
        assert keys == [keys[0]] + keys[1..];
      }
    }
  }

  lemma PrependAscending(first: string, k: string, rest: seq<string>, tail: seq<string>)
    requires Ascending([first] + rest) && Before(first, k)
    requires Ascending(tail) && Elements(tail) == Elements(rest) + {k}
    ensures Ascending([first] + tail)
  {
    forall j | 0 <= j < |tail|
      ensures Before(first, tail[j])
    {
      assert tail[j] in Elements(tail);
      if tail[j] != k {
        assert tail[j] in Elements(rest);
        var i :| 0 <= i < |rest| && rest[i] == tail[j];
        assert ([first] + rest)[0] == first && ([first] + rest)[i + 1] == tail[j];
      }
    }
  }

  lemma {:induction false} SortedExists(keys: set<string>) returns (sorted: seq<string>)
    ensures Ascending(sorted) && Elements(sorted) == keys
  {
    if keys == {} {
      sorted := [];
    } else {
      var k :| k in keys;
      var rest := SortedExists(keys - {k});
      assert forall x :: x in rest ==> x in Elements(rest);
      sorted := Insert(k, rest);
      InsertAscending(k, rest);
    }
  }

  ghost function SortedKeys(keys: set<string>): (sorted: seq<string>)
    ensures Ascending(sorted) && Elements(sorted) == keys
  {
    assert exists s :: Ascending(s) && Elements(s) == keys by {
      var s := SortedExists(keys);
    }
    var s :| Ascending(s) && Elements(s) == keys;
    s
  }

  /** `sort.Strings` over the keys of a map, which come in no particular order. */
  method SortStrings(keys: set<string>) returns (sorted: seq<string>)
    ensures sorted == SortedKeys(keys)
  {
    sorted := [];
    var rest := keys;
    while rest != {}
      invariant Ascending(sorted) && Elements(sorted) == keys - rest && rest <= keys
      decreases rest
    {
      var k :| k in rest;
      assert forall x :: x in sorted ==> x in Elements(sorted);
      InsertAscending(k, sorted);
      sorted := Insert(k, sorted);
      rest := rest - {k};
    }
    AscendingUnique(sorted, SortedKeys(keys));
  }

  // ---- what the printer writes ---------------------------------------------------

  function DigitChar(d: nat): char
    requires d < 16
  {
    if d < 10 then '0' + d as char else 'a' + (d - 10) as char
  }

  function Natural(n: nat): (text: string)
    ensures text != ""
  {
    if n < 10 then [DigitChar(n)] else Natural(n / 10) + [DigitChar(n % 10)]
  }

  function Decimal(n: int): (text: string)
    ensures text != ""
  {
    if n < 0 then "-" + Natural(-n) else Natural(n)
  }

  function Escape(c: char): (text: string)
    ensures text != ""
  {
    var r := c as int;
    if c == '"' then "\\\""
    else if c == '\\' then "\\\\"
    else if r == 8 then "\\b"
    else if r == 12 then "\\f"
    else if r == 10 then "\\n"
    else if r == 13 then "\\r"
    else if r == 9 then "\\t"
    else if r < 0x20 then "\\u00" + [DigitChar(r / 16), DigitChar(r % 16)]
    else if r == 0xfffd then "\\ufffd"
    else [c]
  }

  function Escaped(s: string): string {
    if s == [] then "" else Escape(s[0]) + Escaped(s[1..])
  }

  function Quoted(s: string): string {
    "\"" + Escaped(s) + "\""
  }

  function Comma(first: bool): string {
    if first then "" else ","
  }

  ghost function Text(v: Value): string
    decreases v, 1, 0
  {
    match v
    case Null => "null"
    case Bool(b) => if b then "true" else "false"
    case Num(n) => Decimal(n)
    case Str(s) => Quoted(s)
    case Arr(items) => "[" + ItemsText(items, true) + "]"
    case Obj(members) => "{" + MembersText(SortedKeys(members.Keys), v, true) + "}"
  }

  ghost function ItemsText(items: seq<Value>, first: bool): string
    decreases items, 0, 0
  {
    if items == [] then "" else Comma(first) + Text(items[0]) + ItemsText(items[1..], false)
  }

  ghost function MembersText(keys: seq<string>, v: Value, first: bool): string
    requires v.Obj? && forall k :: k in keys ==> k in v.members
    decreases v, 0, |keys|
  {
    if keys == [] then ""
    else Comma(first) + MemberText(keys[0], v.members[keys[0]]) + MembersText(keys[1..], v, false)
  }

  ghost function MemberText(key: string, member: Value): string
    decreases member, 2, 0
  {
    Quoted(key) + ":" + Text(member)
  }

  // ---- the printer ------------------------------------------------------------------

  class Buffer {
    var data: string

    constructor ()
      ensures data == ""
    {
      data := "";
    }

    method WriteString(s: string)
      modifies this
      ensures data == old(data) + s
    {
      data := data + s;
    }
  }

  lemma Regroup(a: string, b: string, c: string, d: string)
    ensures a + b + c + d == a + (b + c + d)
  {
  }

  method WriteEscaped(buf: Buffer, c: char)
    modifies buf
    ensures buf.data == old(buf.data) + Escape(c)
  {
    var r := c as int;
    if c == '"' {
      buf.WriteString("\\\"");
    } else if c == '\\' {
      buf.WriteString("\\\\");
    } else if r == 8 {
      buf.WriteString("\\b");
    } else if r == 12 {
      buf.WriteString("\\f");
    } else if r == 10 {
      buf.WriteString("\\n");
    } else if r == 13 {
      buf.WriteString("\\r");
    } else if r == 9 {
      buf.WriteString("\\t");
    } else if r < 0x20 {
      buf.WriteString("\\u00");
      buf.WriteString([DigitChar(r / 16), DigitChar(r % 16)]);
    } else if r == 0xfffd {
      buf.WriteString("\\ufffd");
    } else {
      buf.WriteString([c]);
    }
  }

  method WriteRunes(buf: Buffer, s: string)
    modifies buf
    ensures buf.data == old(buf.data) + Escaped(s)
  {
    for i := 0 to |s|
      invariant buf.data + Escaped(s[i..]) == old(buf.data) + Escaped(s)
    {
      ghost var before := buf.data;
      WriteEscaped(buf, s[i]);
      EscapedStep(before, s[i..]);
      assert s[i..][1..] == s[i + 1..];
    }
  }

  lemma EscapedStep(before: string, s: string)
    requires s != []
    ensures before + Escape(s[0]) + Escaped(s[1..]) == before + Escaped(s)
  {
  }

  method WriteQuoted(buf: Buffer, s: string)
    modifies buf
    ensures buf.data == old(buf.data) + Quoted(s)
  {
    buf.WriteString("\"");
    WriteRunes(buf, s);
    buf.WriteString("\"");
  }

  method WriteItems(buf: Buffer, items: seq<Value>)
    modifies buf
    ensures buf.data == old(buf.data) + ItemsText(items, true)
    decreases items, 0
  {
    for i := 0 to |items|
      invariant buf.data + ItemsText(items[i..], i == 0) == old(buf.data) + ItemsText(items, true)
    {
      ghost var before := buf.data;
      if i > 0 {
        buf.WriteString(",");
      }
      Write(buf, items[i]);
      assert items[i..][0] == items[i] && items[i..][1..] == items[i + 1..];
      Regroup(before, Comma(i == 0), Text(items[i]), ItemsText(items[i + 1..], false));
    }
  }

  lemma MembersStep(before: string, keys: seq<string>, i: nat, v: Value)
    requires v.Obj? && i < |keys| && forall k :: k in keys ==> k in v.members
    ensures before + Comma(i == 0) + MemberText(keys[i], v.members[keys[i]]) + MembersText(keys[i + 1..], v, false)
         == before + MembersText(keys[i..], v, i == 0)
  {
    assert keys[i..][0] == keys[i] && keys[i..][1..] == keys[i + 1..];
    Regroup(before, Comma(i == 0), MemberText(keys[i], v.members[keys[i]]), MembersText(keys[i + 1..], v, false));
  }

  method WriteMember(buf: Buffer, first: bool, key: string, member: Value)
    modifies buf
    ensures buf.data == old(buf.data) + Comma(first) + MemberText(key, member)
    decreases member, 2
  {
    if !first {
      buf.WriteString(",");
    }
    ghost var before := buf.data;
    WriteQuoted(buf, key);
    buf.WriteString(":");
    Write(buf, member);
    Regroup(before, Quoted(key), ":", Text(member));
  }

  method WriteMembers(buf: Buffer, keys: seq<string>, v: Value)
    requires v.Obj? && forall k :: k in keys ==> k in v.members
    modifies buf
    ensures buf.data == old(buf.data) + MembersText(keys, v, true)
    decreases v, 0
  {
    for i := 0 to |keys|
      invariant buf.data + MembersText(keys[i..], v, i == 0) == old(buf.data) + MembersText(keys, v, true)
    {
      MembersStep(buf.data, keys, i, v);
      WriteMember(buf, i == 0, keys[i], v.members[keys[i]]);
    }
  }

  method WriteScalar(buf: Buffer, v: Value)
    requires !v.Arr? && !v.Obj?
    modifies buf
    ensures buf.data == old(buf.data) + Text(v)
  {
    match v
    case Null =>
      buf.WriteString("null");
    case Bool(b) =>
      if b {
        buf.WriteString("true");
      } else {
        buf.WriteString("false");
      }
    case Num(n) =>
      buf.WriteString(Decimal(n));
    case Str(s) =>
      WriteQuoted(buf, s);
  }

  method Write(buf: Buffer, v: Value)
    modifies buf
    ensures buf.data == old(buf.data) + Text(v)
    decreases v, 1
  {
    match v
    case Arr(items) =>
      buf.WriteString("[");
      WriteItems(buf, items);
      buf.WriteString("]");
      Regroup(old(buf.data), "[", ItemsText(items, true), "]");
    case Obj(members) =>
      var keys := SortStrings(members.Keys);
      assert forall k :: k in keys ==> k in Elements(keys);
      buf.WriteString("{");
      WriteMembers(buf, keys, v);
      buf.WriteString("}");
      Regroup(old(buf.data), "{", MembersText(keys, v, true), "}");
    case _ =>
      WriteScalar(buf, v);
  }

  method Marshal(v: Value) returns (text: string)
    ensures text == Text(v)
  {
    var buf := new Buffer();
    Write(buf, v);
    text := buf.data;
  }

  // ---- a reader of the JSON grammar ---------------------------------------------------

  datatype Read<T> = Fail | Got(value: T, rest: string)

  predicate IsSpace(c: char) {
    c == ' ' || c == '\t' || c == '\n' || c == '\r'
  }

  function SkipSpace(s: string): (t: string)
    ensures |t| <= |s|
  {
    if s != [] && IsSpace(s[0]) then SkipSpace(s[1..]) else s
  }

  predicate IsDigit(c: char) {
    '0' as int <= c as int <= '9' as int
  }

  function DigitValue(c: char): nat
    requires IsDigit(c)
  {
    c as int - '0' as int
  }

  /** Reads digits onto an accumulated value. */
  function ReadNatural(s: string, acc: nat): (nat, string) {
    if s != [] && IsDigit(s[0]) then ReadNatural(s[1..], 10 * acc + DigitValue(s[0])) else (acc, s)
  }

  function ReadNumber(s: string): Read<Value> {
    var negative := s != [] && s[0] == '-';
    var digits := if negative then s[1..] else s;
    if digits == [] || !IsDigit(digits[0]) then Fail
    else if digits[0] == '0' && |digits| > 1 && IsDigit(digits[1]) then Fail
    else
      var (n, rest) := ReadNatural(digits, 0);
      var m: int := if negative then 0 - (n as int) else n;
      if rest != [] && (rest[0] == '.' || rest[0] == 'e' || rest[0] == 'E') then Fail
      else if m < -0x8000_0000_0000_0000 || m >= 0x8000_0000_0000_0000 then Fail
      else Got(Num(m), rest)
  }

  function HexValue(c: char): Option<nat> {
    if '0' <= c <= '9' then Some(c as int - '0' as int)
    else if 'a' <= c <= 'f' then Some(10 + c as int - 'a' as int)
    else if 'A' <= c <= 'F' then Some(10 + c as int - 'A' as int)
    else None
  }

  /** The scalar value of four hexadecimal digits; surrogates stand for no character of their own. */
  function Hex4(s: string): Option<char>
    requires |s| >= 4
  {
    var a, b, c, d := HexValue(s[0]), HexValue(s[1]), HexValue(s[2]), HexValue(s[3]);
    if a.None? || b.None? || c.None? || d.None? then None
    else
      var code := 4096 * a.value + 256 * b.value + 16 * c.value + d.value;
      if code < 0xd800 || 0xe000 <= code < 0x1_0000 then Some(code as char) else None
  }

  /** One character of a string literal, after the escapes of section 7 of RFC 8259. */
  function ReadChar(s: string): (r: Read<char>)
    ensures r.Got? ==> |r.rest| < |s|
  {
    if s == [] then Fail
    else if s[0] == '"' || (s[0] as int) < 0x20 then Fail
    else if s[0] != '\\' then Got(s[0], s[1..])
    else if |s| < 2 then Fail
    else
      var c, rest := s[1], s[2..];
      if c == '"' || c == '\\' || c == '/' then Got(c, rest)
      else if c == 'b' then Got(8 as char, rest)
      else if c == 'f' then Got(12 as char, rest)
      else if c == 'n' then Got(10 as char, rest)
      else if c == 'r' then Got(13 as char, rest)
      else if c == 't' then Got(9 as char, rest)
      else if c == 'u' && |rest| >= 4 && Hex4(rest).Some? then Got(Hex4(rest).value, rest[4..])
      else Fail
  }

  /** The rest of a string literal, after its opening quote. */
  function ReadString(s: string): (r: Read<string>)
    ensures r.Got? ==> |r.rest| < |s|
    decreases |s|
  {
    if s != [] && s[0] == '"' then Got("", s[1..])
    else
      var c := ReadChar(s);
      if c.Fail? then Fail
      else
        var more := ReadString(c.rest);
        if more.Fail? then Fail else Got([c.value] + more.value, more.rest)
  }

  function Literal(s: string, word: string, v: Value): (r: Read<Value>)
    requires word != ""
    ensures r.Got? ==> |r.rest| < |s|
  {
    if word <= s then Got(v, s[|word|..]) else Fail
  }

  lemma {:induction false} ReadNaturalShrinks(s: string, acc: nat)
    ensures |ReadNatural(s, acc).1| <= |s|
    ensures s != [] && IsDigit(s[0]) ==> |ReadNatural(s, acc).1| < |s|
  {
    if s != [] && IsDigit(s[0]) {
      ReadNaturalShrinks(s[1..], 10 * acc + DigitValue(s[0]));
    }
  }

  function ReadValue(s: string): (r: Read<Value>)
    ensures r.Got? ==> |r.rest| < |s|
    decreases |s|, 1
  {
    var t := SkipSpace(s);
    if t == [] then Fail
    else if t[0] == 'n' then Literal(t, "null", Null)
    else if t[0] == 't' then Literal(t, "true", Bool(true))
    else if t[0] == 'f' then Literal(t, "false", Bool(false))
    else if t[0] == '"' then
      var r := ReadString(t[1..]);
      if r.Fail? then Fail else Got(Str(r.value), r.rest)
    else if t[0] == '[' then
      var u := SkipSpace(t[1..]);
      if u != [] && u[0] == ']' then Got(Arr([]), u[1..])
      else
        var r := ReadItems(t[1..]);
        if r.Fail? then Fail else Got(Arr(r.value), r.rest)
    else if t[0] == '{' then
      var u := SkipSpace(t[1..]);
      if u != [] && u[0] == '}' then Got(Obj(map[]), u[1..])
      else
        var r := ReadMembers(t[1..]);
        if r.Fail? then Fail else Got(Obj(r.value), r.rest)
    else
      ReadNaturalShrinks(t, 0);
      ReadNaturalShrinks(t[1..], 0);
      ReadNumber(t)
  }

  /** The rest of a non-empty array, up to and including its closing bracket. */
  function ReadItems(s: string): (r: Read<seq<Value>>)
    ensures r.Got? ==> |r.rest| < |s|
    decreases |s|, 2
  {
    var item := ReadValue(s);
    if item.Fail? then Fail
    else
      var t := SkipSpace(item.rest);
      if t != [] && t[0] == ']' then Got([item.value], t[1..])
      else if t != [] && t[0] == ',' then
        var more := ReadItems(t[1..]);
        if more.Fail? then Fail else Got([item.value] + more.value, more.rest)
      else Fail
  }

  /** The rest of a non-empty object; a later member of the same name takes the place of an earlier. */
  function ReadMembers(s: string): (r: Read<map<string, Value>>)
    ensures r.Got? ==> |r.rest| < |s|
    decreases |s|, 2
  {
    var t := SkipSpace(s);
    if t == [] || t[0] != '"' then Fail
    else
      var key := ReadString(t[1..]);
      if key.Fail? then Fail
      else
        var u := SkipSpace(key.rest);
        if u == [] || u[0] != ':' then Fail
        else
          var member := ReadValue(u[1..]);
          if member.Fail? then Fail
          else
            var w := SkipSpace(member.rest);
            if w != [] && w[0] == '}' then Got(map[key.value := member.value], w[1..])
            else if w != [] && w[0] == ',' then
              var more := ReadMembers(w[1..]);
              if more.Fail? then Fail else Got(map[key.value := member.value] + more.value, more.rest)
            else Fail
  }
}
