/** Reading undoes printing: canonical JSON loses nothing, so equal text means equal values. */
module CanonRoundTrip {
  import opened Outcomes
  import opened Canon

  lemma DigitReads(d: nat)
    requires d < 10
    ensures IsDigit(DigitChar(d)) && DigitValue(DigitChar(d)) == d
  {
  }

  lemma HexReads(d: nat)
    requires d < 16
    ensures HexValue(DigitChar(d)) == Some(d)
  {
  }

  lemma {:induction false} NaturalReads(n: nat, t: string)
    ensures ReadNatural(Natural(n) + t, 0) == ReadNatural(t, n)
  {
    DigitReads(n % 10);
    var last := [DigitChar(n % 10)] + t;
    assert last[1..] == t;
    if n < 10 {
      assert Natural(n) + t == last;
    } else {
      assert Natural(n) + t == Natural(n / 10) + last;
      NaturalReads(n / 10, last);
    }
  }

  lemma {:induction false} NaturalStarts(n: nat)
    ensures IsDigit(Natural(n)[0])
    ensures Natural(n)[0] == '0' ==> |Natural(n)| == 1
  {
    DigitReads(n % 10);
    if n >= 10 {
      NaturalStarts(n / 10);
      if n / 10 < 10 {
        DigitReads(n / 10);
      } else {
        NaturalLonger(n / 10);
      }
    }
  }

  lemma NaturalLonger(n: nat)
    requires n >= 10
    ensures |Natural(n)| > 1
  {
  }

  /** Where a number may end: JSON tells it from a longer one by what follows. */
  predicate EndsNumber(t: string) {
    t == "" || (!IsDigit(t[0]) && t[0] != '.' && t[0] != 'e' && t[0] != 'E')
  }

  lemma NumberReads(n: Int64, t: string)
    requires EndsNumber(t)
    ensures ReadNumber(Decimal(n) + t) == Got(Num(n), t)
  {
    var m: nat := if n < 0 then 0 - (n as int) else n as int;
    var s := Decimal(n) + t;
    var digits := Natural(m) + t;
    if n < 0 {
      assert s[1..] == digits;
    } else {
      assert s == digits;
      NaturalStarts(m);
    }
    NaturalStarts(m);
    NaturalReads(m, t);
    assert digits[0] == Natural(m)[0];
    assert |Natural(m)| == 1 && |digits| > 1 ==> digits[1] == t[0];
  }

  lemma CharReads(c: char, t: string)
    ensures ReadChar(Escape(c) + t) == Got(c, t)
    ensures (Escape(c) + t)[0] != '"'
  {
    var s := Escape(c) + t;
    var r := c as int;
    if |Escape(c)| == 1 {
      assert s[1..] == t;
    } else if |Escape(c)| == 2 {
      assert s[2..] == t;
    } else {
      assert s[2..] == Escape(c)[2..] + t;
      assert s[2..][4..] == t;
      Hex4Reads(c, s[2..]);
    }
  }

  lemma Hex4Reads(c: char, digits: string)
    requires |Escape(c)| > 2 && |digits| >= 4 && digits[..4] == Escape(c)[2..]
    ensures |Escape(c)| == 6 && Hex4(digits) == Some(c)
  {
    var r := c as int;
    assert digits[0] == Escape(c)[2] && digits[1] == Escape(c)[3] && digits[2] == Escape(c)[4] && digits[3] == Escape(c)[5];
    if r < 0x20 {
      HexReads(r / 16);
      HexReads(r % 16);
      assert r as char == c;
    } else {
      assert r == 0xfffd;
      assert r as char == c;
    }
  }

  lemma {:induction false} StringReads(s: string, t: string)
    ensures ReadString(Escaped(s) + "\"" + t) == Got(s, t)
  {
    var all := Escaped(s) + "\"" + t;
    if s == [] {
      assert all == "\"" + t;
    } else {
      var rest := Escaped(s[1..]) + "\"" + t;
      assert all == Escape(s[0]) + rest;
      CharReads(s[0], rest);
      StringReads(s[1..], t);
      assert s == [s[0]] + s[1..];
    }
  }

  lemma SkipNothing(s: string)
    requires s != "" && !IsSpace(s[0])
    ensures SkipSpace(s) == s
  {
  }

  /** A value's text starts with a character that no separator or closing bracket starts with. */
  predicate StartsValue(c: char) {
    c == 'n' || c == 't' || c == 'f' || c == '"' || c == '[' || c == '{' || c == '-' || IsDigit(c)
  }

  lemma TextStarts(v: Value)
    ensures Text(v) != "" && StartsValue(Text(v)[0])
  {
    match v
    case Num(n) =>
      if n >= 0 {
        NaturalStarts(n);
      }
    case Str(s) =>
      assert Quoted(s)[0] == '"';
    case Arr(items) =>
      assert Text(v)[0] == '[';
    case Obj(members) =>
      assert Text(v)[0] == '{';
    case _ =>
  }

  lemma ScalarReads(v: Value, t: string)
    requires !v.Arr? && !v.Obj? && (v.Num? ==> EndsNumber(t))
    ensures ReadValue(Text(v) + t) == Got(v, t)
  {
    var s := Text(v) + t;
    TextStarts(v);
    assert s[0] == Text(v)[0];
    SkipNothing(s);
    match v
    case Null =>
      assert "null" <= s && s[4..] == t;
    case Bool(b) =>
      if b {
        assert "true" <= s && s[4..] == t;
      } else {
        assert "false" <= s && s[5..] == t;
      }
    case Num(n) =>
      NumberReads(n, t);
      if n >= 0 {
        NaturalStarts(n);
      }
    case Str(x) =>
      assert s[0] == '"' && s[1..] == Escaped(x) + "\"" + t;
      StringReads(x, t);
  }

  lemma ValueSplit(items: seq<Value>, t: string)
    requires items != []
    ensures ItemsText(items, true) + "]" + t
         == Text(items[0]) + (ItemsText(items[1..], false) + "]" + t)
  {
    assert Comma(true) + Text(items[0]) == Text(items[0]);
  }

  lemma CommaSplit(items: seq<Value>, t: string)
    requires items != []
    ensures ItemsText(items, false) + "]" + t == "," + (ItemsText(items, true) + "]" + t)
  {
    assert Comma(false) + Text(items[0]) + ItemsText(items[1..], false)
        == "," + (Comma(true) + Text(items[0]) + ItemsText(items[1..], false));
  }

  lemma {:induction false} ItemsRead(items: seq<Value>, t: string)
    requires items != []
    ensures ReadItems(ItemsText(items, true) + "]" + t) == Got(items, t)
    decreases items, 0
  {
    var s := ItemsText(items, true) + "]" + t;
    var tail := ItemsText(items[1..], false) + "]" + t;
    ValueSplit(items, t);
    if items[1..] == [] {
      assert tail == "]" + t;
      ValueReads(items[0], tail);
      SkipNothing(tail);
      assert tail[1..] == t;
      assert items == [items[0]];
    } else {
      var more := ItemsText(items[1..], true) + "]" + t;
      CommaSplit(items[1..], t);
      assert tail[1..] == more;
      ValueReads(items[0], tail);
      SkipNothing(tail);
      ItemsRead(items[1..], t);
      assert items == [items[0]] + items[1..];
    }
  }

  ghost function Picked(keys: seq<string>, v: Value): map<string, Value>
    requires v.Obj? && forall k :: k in keys ==> k in v.members
  {
    v.members - (v.members.Keys - (set k | k in keys))
  }

  lemma PickedSplit(keys: seq<string>, v: Value)
    requires v.Obj? && keys != [] && forall k :: k in keys ==> k in v.members
    ensures Picked(keys, v) == map[keys[0] := v.members[keys[0]]] + Picked(keys[1..], v)
  {
    assert keys == [keys[0]] + keys[1..];
  }

  function MemberThen(name: string, text: string, tail: string): string {
    "\"" + (Escaped(name) + "\"" + (":" + (text + tail)))
  }

  lemma MemberSplit(keys: seq<string>, v: Value, t: string)
    requires v.Obj? && keys != [] && forall k :: k in keys ==> k in v.members
    ensures MembersText(keys, v, true) + "}" + t
         == MemberThen(keys[0], Text(v.members[keys[0]]), MembersText(keys[1..], v, false) + "}" + t)
  {
    var m := MembersText(keys[1..], v, false);
    MemberTextSplit(keys[0], v.members[keys[0]], m + "}" + t);
    FirstMember(keys, v);
    Rejoin(MemberText(keys[0], v.members[keys[0]]), m, "}", t);
  }

  lemma FirstMember(keys: seq<string>, v: Value)
    requires v.Obj? && keys != [] && forall k :: k in keys ==> k in v.members
    ensures MembersText(keys, v, true) == MemberText(keys[0], v.members[keys[0]]) + MembersText(keys[1..], v, false)
  {
    assert Comma(true) + MemberText(keys[0], v.members[keys[0]]) == MemberText(keys[0], v.members[keys[0]]);
  }

  lemma Rejoin(a: string, b: string, c: string, d: string)
    ensures a + b + c + d == a + (b + c + d)
  {
  }

  lemma MemberTextSplit(name: string, x: Value, tail: string)
    ensures MemberText(name, x) + tail == MemberThen(name, Text(x), tail)
  {
    var q, w := Escaped(name), Text(x);
    assert (("\"" + q + "\"") + ":" + w) + tail == "\"" + (q + "\"" + (":" + (w + tail)));
  }

  /** Reading one member, up to the separator that follows it. */
  lemma MemberReads(name: string, x: Value, tail: string)
    requires ReadValue(Text(x) + tail) == Got(x, tail)
    requires tail != "" && !IsSpace(tail[0])
    ensures
      var r := ReadMembers(MemberThen(name, Text(x), tail));
      && (tail[0] == '}' ==> r == Got(map[name := x], tail[1..]))
      && (tail[0] == ',' ==>
            var more := ReadMembers(tail[1..]);
            more.Got? ==> r == Got(map[name := x] + more.value, more.rest))
  {
    var member := ":" + (Text(x) + tail);
    var key := Escaped(name) + "\"" + member;
    var s := "\"" + key;
    assert s == MemberThen(name, Text(x), tail);
    SkipNothing(s);
    assert s[1..] == key;
    StringReads(name, member);
    SkipNothing(member);
    assert member[1..] == Text(x) + tail;
    SkipNothing(tail);
  }

  lemma MemberCommaSplit(keys: seq<string>, v: Value, t: string)
    requires v.Obj? && keys != [] && forall k :: k in keys ==> k in v.members
    ensures MembersText(keys, v, false) + "}" + t == "," + (MembersText(keys, v, true) + "}" + t)
  {
    var x, m := MemberText(keys[0], v.members[keys[0]]), MembersText(keys[1..], v, false);
    assert Comma(false) + x + m == "," + (Comma(true) + x + m);
  }

  lemma {:induction false} MembersRead(keys: seq<string>, v: Value, t: string)
    requires v.Obj? && keys != [] && forall k :: k in keys ==> k in v.members
    ensures ReadMembers(MembersText(keys, v, true) + "}" + t) == Got(Picked(keys, v), t)
    decreases v, 0, |keys|
  {
    var x := v.members[keys[0]];
    var tail := MembersText(keys[1..], v, false) + "}" + t;
    MemberSplit(keys, v, t);
    if keys[1..] == [] {
      assert tail == "}" + t && tail[1..] == t;
      assert keys == [keys[0]];
      assert Picked(keys, v) == map[keys[0] := x];
    } else {
      MemberCommaSplit(keys[1..], v, t);
      assert tail[1..] == MembersText(keys[1..], v, true) + "}" + t;
      MembersRead(keys[1..], v, t);
      PickedSplit(keys, v);
    }
    ValueReads(x, tail);
    MemberReads(keys[0], x, tail);
  }

  lemma ArrReads(items: seq<Value>, t: string)
    requires items != [] ==> ReadItems(ItemsText(items, true) + "]" + t) == Got(items, t)
    ensures ReadValue("[" + (ItemsText(items, true) + "]" + t)) == Got(Arr(items), t)
  {
    var inner := ItemsText(items, true) + "]" + t;
    var s := "[" + inner;
    SkipNothing(s);
    assert s[1..] == inner;
    if items == [] {
      assert inner == "]" + t && inner[1..] == t;
    } else {
      ValueSplit(items, t);
      TextStarts(items[0]);
    }
    SkipNothing(inner);
  }

  lemma ObjReads(keys: seq<string>, v: Value, t: string)
    requires v.Obj? && (forall k :: k in keys <==> k in v.members)
    requires keys != [] ==> ReadMembers(MembersText(keys, v, true) + "}" + t) == Got(Picked(keys, v), t)
    ensures ReadValue("{" + (MembersText(keys, v, true) + "}" + t)) == Got(v, t)
  {
    var inner := MembersText(keys, v, true) + "}" + t;
    if keys == [] {
      assert inner == "}" + t && inner[1..] == t;
      assert v.members == map[];
    } else {
      MemberSplit(keys, v, t);
      assert inner[0] == '"';
    }
    assert Picked(keys, v) == v.members;
    BracesRead(inner);
  }

  lemma BracesRead(inner: string)
    requires inner != "" && (inner[0] == '"' || inner[0] == '}')
    ensures
      var r := ReadMembers(inner);
      ReadValue("{" + inner) ==
        if inner[0] == '}' then Got(Obj(map[]), inner[1..])
        else if r.Got? then Got(Obj(r.value), r.rest) else Fail
  {
    var s := "{" + inner;
    SkipNothing(s);
    assert s[1..] == inner;
    SkipNothing(inner);
  }

  /**
   The round trip: a reader recovers the value and leaves the following text untouched, whatever
   that text is; only after a number must it not continue the number.
   */
  lemma {:induction false} ValueReads(v: Value, t: string)
    requires v.Num? ==> EndsNumber(t)
    ensures ReadValue(Text(v) + t) == Got(v, t)
    decreases v, 1, 0
  {
    match v
    case Arr(items) =>
      if items != [] {
        ItemsRead(items, t);
      }
      ArrReads(items, t);
      Rejoin("[", ItemsText(items, true), "]", t);
    case Obj(members) =>
      var keys := SortedKeys(members.Keys);
      assert forall k :: k in keys <==> k in Elements(keys);
      if keys != [] {
        MembersRead(keys, v, t);
      }
      ObjReads(keys, v, t);
      Rejoin("{", MembersText(keys, v, true), "}", t);
    case _ =>
      ScalarReads(v, t);
  }

  /** Distinct values print distinct text, and (printing being a function) equal ones equal text. */
  lemma TextInjective(v: Value, w: Value)
    ensures Text(v) == Text(w) <==> v == w
  {
    ValueReads(v, "");
    ValueReads(w, "");
    assert Text(v) + "" == Text(v) && Text(w) + "" == Text(w);
  }
}
