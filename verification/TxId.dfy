/**
 What a transaction id commits to (`transactionID`, `model.Envelope`, `model.WriteOp`,
 `model.Binary`): the canonical JSON of the envelope and the write set, and what a replay reads
 back from that JSON.
 */
module TxId {
  import opened Bits
  import opened Outcomes
  import opened Canon
  import B64 = Base64
  import CanonRoundTrip
  import WS = WriteSet

  // ---- objects with named, possibly omitted, members -----------------------------

  datatype Field = Field(name: string, value: Option<Value>)

  ghost predicate Distinct(names: seq<string>) {
    forall i, j :: 0 <= i < j < |names| ==> names[i] != names[j]
  }

  function Members(fields: seq<Field>): map<string, Value> {
    if fields == [] then map[]
    else
      var last := fields[|fields| - 1];
      var rest := Members(fields[..|fields| - 1]);
      if last.value.Some? then rest[last.name := last.value.value] else rest
  }

  ghost function Names(fields: seq<Field>): seq<string> {
    seq(|fields|, i requires 0 <= i < |fields| => fields[i].name)
  }

  lemma {:induction false} MemberAt(fields: seq<Field>, i: nat)
    requires Distinct(Names(fields)) && i < |fields|
    ensures fields[i].value == (if fields[i].name in Members(fields) then Some(Members(fields)[fields[i].name]) else None)
    ensures forall k :: k in Members(fields) ==> k in Names(fields)
    decreases |fields|
  {
    var n := |fields| - 1;
    var init := fields[..n];
    assert Names(init) == Names(fields)[..n];
    assert Names(fields)[n] == fields[n].name;
    MembersNamed(init);
    MembersNamed(fields);
    if i < n {
      MemberAt(init, i);
      assert Names(fields)[i] == fields[i].name;
    }
    assert forall j :: 0 <= j < n ==> Names(init)[j] == Names(fields)[j];
    assert fields[n].name !in Names(init);
  }

  lemma {:induction false} MembersNamed(fields: seq<Field>)
    ensures forall k :: k in Members(fields) ==> k in Names(fields)
    decreases |fields|
  {
    if fields != [] {
      var n := |fields| - 1;
      MembersNamed(fields[..n]);
      assert Names(fields) == Names(fields[..n]) + [fields[n].name];
    }
  }

  /** An object says exactly which of its possible members it has, and their values. */
  lemma FieldsInjective(a: seq<Field>, b: seq<Field>)
    requires Names(a) == Names(b) && Distinct(Names(a))
    requires Members(a) == Members(b)
    ensures a == b
  {
    assert |Names(a)| == |a| && |Names(b)| == |b|;
    forall i | 0 <= i < |a|
      ensures a[i] == b[i]
    {
      assert Names(a)[i] == a[i].name && Names(b)[i] == b[i].name;
      MemberAt(a, i);
      MemberAt(b, i);
    }
  }

  function Always(name: string, v: Value): Field {
    Field(name, Some(v))
  }

  /** `omitempty` on a string. */
  function Unless(name: string, s: string): Field {
    Field(name, if s == "" then None else Some(Str(s)))
  }

  // ---- the envelope -----------------------------------------------------------------

  datatype Author = Author(sub: string, display: string, role: string)

  datatype Ref = Ref(kind: string, target: string)

  datatype Envelope = Envelope(
    kind: string, tenant: string, cls: string, schemaId: string, objectIds: seq<string>,
    author: Author, timestamp: Int64, message: string, refs: seq<Ref>)

  function AuthorFields(a: Author): seq<Field> {
    [Always("sub", Str(a.sub)), Unless("display", a.display), Always("role", Str(a.role))]
  }

  function RefFields(r: Ref): seq<Field> {
    [Always("type", Str(r.kind)), Always("target", Str(r.target))]
  }

  function Strings(list: seq<string>): (items: seq<Value>)
    ensures |items| == |list|
  {
    seq(|list|, i requires 0 <= i < |list| => Str(list[i]))
  }

  function Refs(list: seq<Ref>): (items: seq<Value>)
    ensures |items| == |list|
  {
    seq(|list|, i requires 0 <= i < |list| => Obj(Members(RefFields(list[i]))))
  }

  function UnlessEmpty(name: string, items: seq<Value>): Field {
    Field(name, if items == [] then None else Some(Arr(items)))
  }

  function EnvelopeFields(e: Envelope): seq<Field> {
    [ Always("kind", Str(e.kind)),
      Always("tenant", Str(e.tenant)),
      Unless("class", e.cls),
      Unless("schema_id", e.schemaId),
      UnlessEmpty("object_ids", Strings(e.objectIds)),
      Always("author", Obj(Members(AuthorFields(e.author)))),
      Always("timestamp", Num(e.timestamp)),
      Always("message", Str(e.message)),
      UnlessEmpty("refs", Refs(e.refs)) ]
  }

  function EnvelopeValue(e: Envelope): Value {
    Obj(Members(EnvelopeFields(e)))
  }

  lemma AuthorInjective(a: Author, b: Author)
    requires Members(AuthorFields(a)) == Members(AuthorFields(b))
    ensures a == b
  {
    var x, y := AuthorFields(a), AuthorFields(b);
    var names := ["sub", "display", "role"];
    assert Names(x) == names && Names(y) == names;
    FieldsInjective(x, y);
    assert x[0] == y[0] && x[1] == y[1] && x[2] == y[2];
  }

  lemma RefInjective(a: Ref, b: Ref)
    requires Members(RefFields(a)) == Members(RefFields(b))
    ensures a == b
  {
    var x, y := RefFields(a), RefFields(b);
    var names := ["type", "target"];
    assert Names(x) == names && Names(y) == names;
    FieldsInjective(x, y);
    assert x[0] == y[0] && x[1] == y[1];
  }

  lemma StringsInjective(a: seq<string>, b: seq<string>)
    requires Strings(a) == Strings(b)
    ensures a == b
  {
    assert |Strings(a)| == |Strings(b)|;
    forall i | 0 <= i < |a|
      ensures a[i] == b[i]
    {
      assert Strings(a)[i] == Str(a[i]) && Strings(b)[i] == Str(b[i]);
    }
  }

  lemma RefsInjective(a: seq<Ref>, b: seq<Ref>)
    requires Refs(a) == Refs(b)
    ensures a == b
  {
    assert |Refs(a)| == |Refs(b)|;
    forall i | 0 <= i < |a|
      ensures a[i] == b[i]
    {
      assert Refs(a)[i] == Obj(Members(RefFields(a[i]))) && Refs(b)[i] == Obj(Members(RefFields(b[i])));
      RefInjective(a[i], b[i]);
    }
  }

  lemma EnvelopeNames(e: Envelope)
    ensures Names(EnvelopeFields(e)) == ["kind", "tenant", "class", "schema_id", "object_ids", "author", "timestamp", "message", "refs"]
    ensures Distinct(Names(EnvelopeFields(e)))
  {
    var names := ["kind", "tenant", "class", "schema_id", "object_ids", "author", "timestamp", "message", "refs"];
    assert Names(EnvelopeFields(e)) == names;
    assert names[0][0] == 'k' && names[8][0] == 'r' && names[1][0] == 't' && names[5][0] == 'a'
        && names[3][0] == 's' && names[6][0] == 't';
  }

  lemma EnvelopeInjective(a: Envelope, b: Envelope)
    requires EnvelopeValue(a) == EnvelopeValue(b)
    ensures a == b
  {
    var x, y := EnvelopeFields(a), EnvelopeFields(b);
    EnvelopeNames(a);
    EnvelopeNames(b);
    FieldsInjective(x, y);
    assert x[0] == y[0] && x[1] == y[1] && x[2] == y[2] && x[3] == y[3] && x[4] == y[4];
    assert x[5] == y[5] && x[6] == y[6] && x[7] == y[7] && x[8] == y[8];
    AuthorInjective(a.author, b.author);
    StringsInjective(a.objectIds, b.objectIds);
    RefsInjective(a.refs, b.refs);
  }

  // ---- the write set ------------------------------------------------------------------

  const BINARY_TAG := "$bytes"

  function CellValue(c: WS.Cell): Value {
    match c
    case Text(s) => Str(s)
    case Number(n) => Num(n)
    case Flag(b) => Bool(b)
    case Blob(bytes) => Obj(map[BINARY_TAG := Str(B64.Encode(bytes))])
  }

  /** `DecodeBinary` */
  function DecodeBinary(v: Value): Option<seq<Byte>> {
    if v.Obj? && |v.members| == 1 && BINARY_TAG in v.members && v.members[BINARY_TAG].Str?
    then B64.Decode(v.members[BINARY_TAG].s)
    else None
  }

  lemma BinaryReads(bytes: seq<Byte>)
    ensures DecodeBinary(CellValue(WS.Blob(bytes))) == Some(bytes)
  {
    B64.DecodeEncode(bytes);
  }

  lemma CellInjective(c: WS.Cell, d: WS.Cell)
    requires CellValue(c) == CellValue(d)
    ensures c == d
  {
    if c.Blob? && d.Blob? {
      BinaryReads(c.bytes);
      BinaryReads(d.bytes);
    }
  }

  function RowValue(row: WS.Row): map<string, Value> {
    map k | k in row :: CellValue(row[k])
  }

  lemma RowInjective(a: WS.Row, b: WS.Row)
    requires RowValue(a) == RowValue(b)
    ensures a == b
  {
    assert RowValue(a).Keys == a.Keys && RowValue(b).Keys == b.Keys;
    forall k | k in a
      ensures k in b && a[k] == b[k]
    {
      assert RowValue(a)[k] == RowValue(b)[k];
      CellInjective(a[k], b[k]);
    }
  }

  function OpFields(op: WS.Op): seq<Field> {
    [ Always("table", Str(op.table)),
      Always("key", Obj(RowValue(op.key))),
      Field("values", if op.values == map[] then None else Some(Obj(RowValue(op.values)))),
      Field("delete", if op.delete then Some(Bool(true)) else None) ]
  }

  lemma OpInjective(a: WS.Op, b: WS.Op)
    requires Members(OpFields(a)) == Members(OpFields(b))
    ensures a == b
  {
    var x, y := OpFields(a), OpFields(b);
    var names := ["table", "key", "values", "delete"];
    assert names[2][0] == 'v' && names[3][0] == 'd';
    assert Names(x) == names && Names(y) == names;
    FieldsInjective(x, y);
    assert x[0] == y[0] && x[1] == y[1] && x[2] == y[2] && x[3] == y[3];
    RowInjective(a.key, b.key);
    if a.values != map[] && b.values != map[] {
      RowInjective(a.values, b.values);
    }
  }

  function OpValues(ops: seq<WS.Op>): (items: seq<Value>)
    ensures |items| == |ops|
  {
    seq(|ops|, i requires 0 <= i < |ops| => Obj(Members(OpFields(ops[i]))))
  }

  /** A write set without entries is Go's nil slice, which prints as null. */
  function WriteSetValue(ops: seq<WS.Op>): Value {
    if ops == [] then Null else Arr(OpValues(ops))
  }

  lemma WriteSetInjective(a: seq<WS.Op>, b: seq<WS.Op>)
    requires WriteSetValue(a) == WriteSetValue(b)
    ensures a == b
  {
    if a != [] && b != [] {
      assert |OpValues(a)| == |OpValues(b)|;
      forall i | 0 <= i < |a|
        ensures a[i] == b[i]
      {
        assert OpValues(a)[i] == Obj(Members(OpFields(a[i]))) && OpValues(b)[i] == Obj(Members(OpFields(b[i])));
        OpInjective(a[i], b[i]);
      }
    }
  }

  // ---- reading a stored write set back ----------------------------------------------------

  /**
   A replay decodes the stored write set without `UseNumber`, so a number comes back as the nearest
   double; `nearest` says which integer that is.
   */
  function ReadCell(nearest: Int64 -> Int64, v: Value): Option<WS.Cell> {
    match v
    case Str(s) => Some(WS.Cell.Text(s))
    case Num(n) => Some(WS.Number(nearest(n)))
    case Bool(b) => Some(WS.Flag(b))
    case Obj(_) =>
      var bytes := DecodeBinary(v);
      if bytes.None? then None else Some(WS.Blob(bytes.value))
    case _ => None
  }

  function ReadRow(nearest: Int64 -> Int64, v: Option<Value>): Option<WS.Row> {
    if v.None? then Some(map[])
    else if !v.value.Obj? then None
    else
      var m := v.value.members;
      if forall k :: k in m ==> ReadCell(nearest, m[k]).Some?
      then Some(ReadCells(nearest, m))
      else None
  }

  function ReadCells(nearest: Int64 -> Int64, m: map<string, Value>): WS.Row
    requires forall k :: k in m ==> ReadCell(nearest, m[k]).Some?
  {
    map k | k in m :: ReadCell(nearest, m[k]).value
  }

  function Member(m: map<string, Value>, name: string): Option<Value> {
    if name in m then Some(m[name]) else None
  }

  function ReadOp(nearest: Int64 -> Int64, v: Value): Option<WS.Op> {
    if !v.Obj? then None
    else
      var table, delete := Member(v.members, "table"), Member(v.members, "delete");
      var key, values := ReadRow(nearest, Member(v.members, "key")), ReadRow(nearest, Member(v.members, "values"));
      if table.None? || !table.value.Str? || key.None? || values.None? then None
      else Some(WS.Op(table.value.s, key.value, values.value, delete == Some(Bool(true))))
  }

  function ReadOps(nearest: Int64 -> Int64, items: seq<Value>): Option<seq<WS.Op>> {
    if items == [] then Some([])
    else
      var first, rest := ReadOp(nearest, items[0]), ReadOps(nearest, items[1..]);
      if first.None? || rest.None? then None else Some([first.value] + rest.value)
  }

  /** The write set a replay finds in the stored text. */
  function ReadWriteSet(nearest: Int64 -> Int64, text: string): Option<seq<WS.Op>> {
    var v := ReadValue(text);
    if v.Fail? || v.rest != "" then None
    else if v.value.Null? then Some([])
    else if v.value.Arr? then ReadOps(nearest, v.value.items)
    else None
  }

  function NearestRow(nearest: Int64 -> Int64, row: WS.Row): WS.Row {
    map k | k in row :: if row[k].Number? then WS.Number(nearest(row[k].n)) else row[k]
  }

  function NearestOp(nearest: Int64 -> Int64, op: WS.Op): WS.Op {
    WS.Op(op.table, NearestRow(nearest, op.key), NearestRow(nearest, op.values), op.delete)
  }

  lemma RowReads(nearest: Int64 -> Int64, row: WS.Row)
    ensures ReadRow(nearest, Some(Obj(RowValue(row)))) == Some(NearestRow(nearest, row))
  {
    var m := RowValue(row);
    forall k | k in m
      ensures ReadCell(nearest, m[k]) == Some(NearestRow(nearest, row)[k])
    {
      if row[k].Blob? {
        BinaryReads(row[k].bytes);
      }
    }
    assert ReadCells(nearest, m) == NearestRow(nearest, row);
  }

  lemma OpReads(nearest: Int64 -> Int64, op: WS.Op)
    ensures ReadOp(nearest, Obj(Members(OpFields(op)))) == Some(NearestOp(nearest, op))
  {
    var fields := OpFields(op);
    var names := ["table", "key", "values", "delete"];
    assert names[2][0] == 'v' && names[3][0] == 'd';
    assert Names(fields) == names;
    MemberAt(fields, 0);
    MemberAt(fields, 1);
    MemberAt(fields, 2);
    MemberAt(fields, 3);
    RowReads(nearest, op.key);
    RowReads(nearest, op.values);
    assert NearestRow(nearest, map[]) == map[];
  }

  function NearestOps(nearest: Int64 -> Int64, ops: seq<WS.Op>): seq<WS.Op> {
    if ops == [] then [] else [NearestOp(nearest, ops[0])] + NearestOps(nearest, ops[1..])
  }

  lemma {:induction false} OpsRead(nearest: Int64 -> Int64, ops: seq<WS.Op>)
    ensures ReadOps(nearest, OpValues(ops)) == Some(NearestOps(nearest, ops))
  {
    if ops != [] {
      assert OpValues(ops)[0] == Obj(Members(OpFields(ops[0])));
      assert OpValues(ops)[1..] == OpValues(ops[1..]);
      OpReads(nearest, ops[0]);
      OpsRead(nearest, ops[1..]);
    }
  }

  ghost predicate ExactRow(nearest: Int64 -> Int64, row: WS.Row) {
    forall k :: k in row && row[k].Number? ==> nearest(row[k].n) == row[k].n
  }

  /** Every number of the write set is a double. */
  ghost predicate Exact(nearest: Int64 -> Int64, ops: seq<WS.Op>) {
    forall i :: 0 <= i < |ops| ==> ExactRow(nearest, ops[i].key) && ExactRow(nearest, ops[i].values)
  }

  lemma NearestRowExact(nearest: Int64 -> Int64, row: WS.Row)
    ensures NearestRow(nearest, row) == row <==> ExactRow(nearest, row)
  {
    if NearestRow(nearest, row) == row {
      forall k | k in row && row[k].Number?
        ensures nearest(row[k].n) == row[k].n
      {
        assert NearestRow(nearest, row)[k] == row[k];
      }
    }
  }

  lemma {:induction false} NearestExact(nearest: Int64 -> Int64, ops: seq<WS.Op>)
    ensures |NearestOps(nearest, ops)| == |ops|
    ensures NearestOps(nearest, ops) == ops <==> Exact(nearest, ops)
  {
    if ops != [] {
      var tail := ops[1..];
      NearestExact(nearest, tail);
      NearestRowExact(nearest, ops[0].key);
      NearestRowExact(nearest, ops[0].values);
      assert ops == [ops[0]] + tail;
      assert NearestOps(nearest, ops)[0] == NearestOp(nearest, ops[0]) && NearestOps(nearest, ops)[1..] == NearestOps(nearest, tail);
      assert Exact(nearest, ops) ==> Exact(nearest, tail);
      assert forall i :: 0 < i < |ops| ==> ops[i] == tail[i - 1];
    }
  }

  /**
   What a replay decodes is the write set that was stored exactly when every number in it is a
   double, as all integers up to 2^53 are.
   */
  lemma StoredWriteSetReads(nearest: Int64 -> Int64, ops: seq<WS.Op>)
    ensures ReadWriteSet(nearest, Text(WriteSetValue(ops))) == Some(ops) <==> Exact(nearest, ops)
  {
    var v := WriteSetValue(ops);
    CanonRoundTrip.ValueReads(v, "");
    assert Text(v) + "" == Text(v);
    if ops != [] {
      OpsRead(nearest, ops);
    }
    NearestExact(nearest, ops);
  }

  // ---- the transaction id ----------------------------------------------------------------

  function BodyFields(e: Envelope, ops: seq<WS.Op>): seq<Field> {
    [Always("envelope", EnvelopeValue(e)), Always("write_set", WriteSetValue(ops))]
  }

  /** The text a transaction id is the hash of. */
  ghost function Body(e: Envelope, ops: seq<WS.Op>): string {
    Text(Obj(Members(BodyFields(e, ops))))
  }

  /**
   Equal ids mean an equal envelope and an equal write set, or a collision of the hash on the two
   texts that were hashed.
   */
  lemma EqualIds(sha: string -> string, e: Envelope, ops: seq<WS.Op>, f: Envelope, ops': seq<WS.Op>)
    requires sha(Body(e, ops)) == sha(Body(f, ops'))
    ensures
      || (e == f && ops == ops')
      || (Body(e, ops) != Body(f, ops') && sha(Body(e, ops)) == sha(Body(f, ops')))
  {
    if Body(e, ops) == Body(f, ops') {
      BodyInjective(e, ops, f, ops');
    }
  }

  lemma BodyInjective(e: Envelope, ops: seq<WS.Op>, f: Envelope, ops': seq<WS.Op>)
    ensures Body(e, ops) == Body(f, ops') <==> e == f && ops == ops'
  {
    var x, y := BodyFields(e, ops), BodyFields(f, ops');
    CanonRoundTrip.TextInjective(Obj(Members(x)), Obj(Members(y)));
    if Body(e, ops) == Body(f, ops') {
      var names := ["envelope", "write_set"];
      assert Names(x) == names && Names(y) == names;
      FieldsInjective(x, y);
      assert x[0] == y[0] && x[1] == y[1];
      EnvelopeInjective(e, f);
      WriteSetInjective(ops, ops');
    }
  }
}
