/**
 Write sets (`internal/register/register.go`, `apply` and `applyOne`): ordered lists of keyed
 upserts and deletes. An upsert of a missing row is an INSERT, and the SQL layer has no column
 defaults, so an INSERT that does not name every column is refused; so is a row whose columns under a
 unique index another row of the table holds.
 */
module WriteSet {
  import opened Bits
  import opened Outcomes
  import Canon
  import Model = Tables

  /** A value a column holds. */
  datatype Cell = Text(s: string) | Number(n: Canon.Int64) | Flag(b: bool) | Blob(bytes: seq<Byte>)

  type Row = map<string, Cell>

  datatype Op = Op(table: string, key: Row, values: Row, delete: bool)

  /** Primary-key columns and all columns of each table, and the columns under each of its unique indexes. */
  datatype Schema = Schema(
    keys: map<string, set<string>>, columns: map<string, set<string>>, unique: map<string, set<set<string>>>)

  /** A row's place: its table and its primary key. */
  datatype Place = Place(table: string, key: Row)

  type State = map<Place, Row>

  function At(op: Op): Place {
    Place(op.table, op.key)
  }

  /** A unique index of a table, by its columns. */
  predicate Index(sc: Schema, table: string, u: set<string>) {
    table in sc.unique && u in sc.unique[table]
  }

  /**
   What every write set of the register looks like: whole keys, values of the other columns, and the
   columns under a unique index given together or not at all.
   */
  predicate WellShaped(sc: Schema, op: Op) {
    && op.table in sc.keys && op.table in sc.columns
    && op.key.Keys == sc.keys[op.table]
    && op.values.Keys !! op.key.Keys
    && op.key.Keys + op.values.Keys <= sc.columns[op.table]
    && (op.table in sc.unique ==> forall u :: u in sc.unique[op.table] ==>
          && u != {} && u <= sc.columns[op.table] - sc.keys[op.table]
          && (u <= op.values.Keys || u !! op.values.Keys))
  }

  ghost predicate AllWellShaped(sc: Schema, ops: seq<Op>) {
    forall i :: 0 <= i < |ops| ==> WellShaped(sc, ops[i])
  }

  /** An upsert that can only update: as an INSERT it would leave a column without a value. */
  predicate Partial(sc: Schema, op: Op)
    requires WellShaped(sc, op)
  {
    !op.delete && op.key.Keys + op.values.Keys != sc.columns[op.table]
  }

  // ---- one place ----------------------------------------------------------------

  /** The effect of an op on the row at its own place; None when the statement is refused. */
  function RowStep(sc: Schema, row: Option<Row>, op: Op): Option<Option<Row>>
    requires WellShaped(sc, op)
  {
    if op.delete then Some(None)
    else if row.Some? then Some(Some(row.value + op.values))
    else if Partial(sc, op) then None
    else Some(Some(op.key + op.values))
  }

  function RowRun(sc: Schema, row: Option<Row>, ops: seq<Op>, p: Place): Option<Option<Row>>
    requires AllWellShaped(sc, ops)
    decreases |ops|
  {
    if ops == [] then Some(row)
    else if At(ops[0]) != p then RowRun(sc, row, ops[1..], p)
    else
      var next := RowStep(sc, row, ops[0]);
      if next.None? then None else RowRun(sc, next.value, ops[1..], p)
  }

  // ---- the whole state ------------------------------------------------------------

  function Lookup(s: State, p: Place): Option<Row> {
    if p in s then Some(s[p]) else None
  }

  function Put(s: State, p: Place, row: Option<Row>): State {
    if row.Some? then s[p := row.value] else s - {p}
  }

  // ---- the unique index --------------------------------------------------------------

  /** The op gives its row a value under a unique index of the table. */
  predicate Gives(sc: Schema, op: Op, u: set<string>) {
    !op.delete && Index(sc, op.table, u) && u <= op.values.Keys
  }

  function Part(row: Row, columns: set<string>): Row {
    row - (row.Keys - columns)
  }

  predicate Holds(s: State, p: Place, u: set<string>, value: Row) {
    p in s && Part(s[p], u) == value
  }

  /** Another row of the table holds the value the op gives. */
  predicate CollidesOn(sc: Schema, s: State, op: Op, u: set<string>) {
    Gives(sc, op, u) && exists q :: q in s && q.table == op.table && q != At(op) && Holds(s, q, u, Part(op.values, u))
  }

  predicate Collides(sc: Schema, s: State, op: Op) {
    op.table in sc.unique && exists u :: u in sc.unique[op.table] && CollidesOn(sc, s, op, u)
  }

  function Step(sc: Schema, s: State, op: Op): Option<State>
    requires WellShaped(sc, op)
  {
    var row := RowStep(sc, Lookup(s, At(op)), op);
    if row.None? || Collides(sc, s, op) then None else Some(Put(s, At(op), row.value))
  }

  function Run(sc: Schema, s: State, ops: seq<Op>): Option<State>
    requires AllWellShaped(sc, ops)
    decreases |ops|
  {
    if ops == [] then Some(s)
    else
      var next := Step(sc, s, ops[0]);
      if next.None? then None else Run(sc, next.value, ops[1..])
  }

  // ---- the placeholder -----------------------------------------------------------------

  /** `substitute`: the text that stands for the transaction id becomes the id. */
  function SubstitutedCell(txid: string, c: Cell): Cell {
    if c == Text(Model.PLACEHOLDER) then Text(txid) else c
  }

  function SubstitutedRow(txid: string, row: Row): (r: Row)
    ensures r.Keys == row.Keys
  {
    map k | k in row :: SubstitutedCell(txid, row[k])
  }

  /** An entry as it lands. */
  function Substituted(txid: string, op: Op): (r: Op)
    ensures r.key.Keys == op.key.Keys && r.values.Keys == op.values.Keys && r.table == op.table && r.delete == op.delete
  {
    Op(op.table, SubstitutedRow(txid, op.key), SubstitutedRow(txid, op.values), op.delete)
  }

  /** A write set as it lands under one id, the same every time it is applied. */
  function SubstitutedAll(txid: string, ops: seq<Op>): (r: seq<Op>)
    ensures |r| == |ops| && forall i :: 0 <= i < |ops| ==> r[i] == Substituted(txid, ops[i])
  {
    seq(|ops|, i requires 0 <= i < |ops| => Substituted(txid, ops[i]))
  }

  lemma SubstitutedShape(sc: Schema, txid: string, op: Op)
    ensures WellShaped(sc, Substituted(txid, op)) <==> WellShaped(sc, op)
  {
  }

  lemma AllSubstitutedShape(sc: Schema, txid: string, ops: seq<Op>)
    ensures AllWellShaped(sc, SubstitutedAll(txid, ops)) <==> AllWellShaped(sc, ops)
  {
    forall i | 0 <= i < |ops|
      ensures WellShaped(sc, SubstitutedAll(txid, ops)[i]) <==> WellShaped(sc, ops[i])
    {
      SubstitutedShape(sc, txid, ops[i]);
    }
  }

  /** The tables a SQL transaction works on. */
  class Tables {
    const schema: Schema
    var rows: State

    constructor (schema: Schema, rows: State)
      ensures this.schema == schema && this.rows == rows
    {
      this.schema := schema;
      this.rows := rows;
    }

    /** What the engine looks for in one unique index before it writes a row. */
    method CollisionOn(op: Op, u: set<string>) returns (found: bool)
      ensures found == CollidesOn(schema, rows, op, u)
    {
      if !Gives(schema, op, u) {
        return false;
      }
      var todo := rows.Keys;
      while todo != {}
        invariant todo <= rows.Keys
        invariant forall q :: q in rows && q !in todo ==>
          !(q.table == op.table && q != At(op) && Holds(rows, q, u, Part(op.values, u)))
        decreases |todo|
      {
        var q :| q in todo;
        if q.table == op.table && q != At(op) && Holds(rows, q, u, Part(op.values, u)) {
          return true;
        }
        todo := todo - {q};
      }
      return false;
    }

    method Collision(op: Op) returns (found: bool)
      ensures found == Collides(schema, rows, op)
    {
      if op.table !in schema.unique {
        return false;
      }
      var todo := schema.unique[op.table];
      while todo != {}
        invariant todo <= schema.unique[op.table]
        invariant forall u :: u in schema.unique[op.table] && u !in todo ==> !CollidesOn(schema, rows, op, u)
        decreases |todo|
      {
        var u :| u in todo;
        found := CollisionOn(op, u);
        if found {
          return;
        }
        todo := todo - {u};
      }
      return false;
    }

    method ApplyOne(txid: string, given: Op) returns (ok: bool)
      requires WellShaped(schema, given)
      modifies this
      ensures WellShaped(schema, Substituted(txid, given))
      ensures
        var next := Step(schema, old(rows), Substituted(txid, given));
        ok == next.Some? && rows == if ok then next.value else old(rows)
    {
      var op := Substituted(txid, given);
      SubstitutedShape(schema, txid, given);
      var place := At(op);
      if op.delete {
        rows := rows - {place};
        return true;
      }
      if place in rows {
        if op.values == map[] {
          assert rows[place] + op.values == rows[place];
          return true;
        }
        var held := Collision(op);
        if held {
          return false;
        }
        rows := rows[place := rows[place] + op.values];
        return true;
      }
      var values := op.key + op.values;
      var taken := Collision(op);
      if values.Keys != schema.columns[op.table] || taken {
        return false;
      }
      rows := rows[place := values];
      return true;
    }

    /** `apply`, rolled back as a whole when a statement is refused. */
    method Apply(txid: string, ops: seq<Op>) returns (ok: bool)
      requires AllWellShaped(schema, ops)
      modifies this
      ensures AllWellShaped(schema, SubstitutedAll(txid, ops))
      ensures
        var next := Run(schema, old(rows), SubstitutedAll(txid, ops));
        ok == next.Some? && rows == if ok then next.value else old(rows)
    {
      var before := rows;
      ghost var landing := SubstitutedAll(txid, ops);
      AllSubstitutedShape(schema, txid, ops);
      for i := 0 to |ops|
        invariant Run(schema, rows, landing[i..]) == Run(schema, before, landing)
      {
        assert landing[i..][0] == landing[i] && landing[i..][1..] == landing[i + 1..];
        var applied := ApplyOne(txid, ops[i]);
        if !applied {
          rows := before;
          return false;
        }
      }
      assert landing[|ops|..] == [];
      return true;
    }
  }

  // ---- a run, place by place --------------------------------------------------------

  lemma {:induction false} RunByPlace(sc: Schema, s: State, ops: seq<Op>, p: Place)
    requires AllWellShaped(sc, ops)
    requires Run(sc, s, ops).Some?
    ensures RowRun(sc, Lookup(s, p), ops, p) == Some(Lookup(Run(sc, s, ops).value, p))
    decreases |ops|
  {
    if ops != [] {
      RunByPlace(sc, Step(sc, s, ops[0]).value, ops[1..], p);
    }
  }

  /** A refused run has a first op that is refused. */
  lemma {:induction false} RefusedAt(sc: Schema, s: State, ops: seq<Op>) returns (i: nat)
    requires AllWellShaped(sc, ops)
    requires Run(sc, s, ops).None?
    ensures i < |ops| && AllWellShaped(sc, ops[..i])
    ensures Run(sc, s, ops[..i]).Some? && Step(sc, Run(sc, s, ops[..i]).value, ops[i]).None?
    decreases |ops|
  {
    var next := Step(sc, s, ops[0]);
    if next.None? {
      i := 0;
    } else {
      i := RefusedAt(sc, next.value, ops[1..]);
      assert ops[..i + 1][1..] == ops[1..][..i];
      i := i + 1;
    }
  }

  lemma SameRows(s: State, t: State)
    requires forall p :: Lookup(s, p) == Lookup(t, p)
    ensures s == t
  {
    assert forall p :: p in s <==> Lookup(s, p).Some?;
    assert forall p :: p in t <==> Lookup(t, p).Some?;
    assert forall p :: p in s ==> Lookup(s, p) == Some(s[p]) && Lookup(t, p) == Some(t[p]);
  }

  // ---- replaying one place -------------------------------------------------------------

  predicate Deletes(ops: seq<Op>, p: Place) {
    exists i :: 0 <= i < |ops| && At(ops[i]) == p && ops[i].delete
  }

  /** The columns some upsert of the set gives a value at `p`. */
  function Touched(ops: seq<Op>, p: Place): set<string> {
    if ops == [] then {}
    else Touched(ops[1..], p) + if At(ops[0]) == p && !ops[0].delete then ops[0].values.Keys else {}
  }

  /** The first op at `p`, if there is one, is an upsert that can only update. */
  predicate StartsPartial(sc: Schema, ops: seq<Op>, p: Place)
    requires AllWellShaped(sc, ops)
  {
    ops != [] && if At(ops[0]) == p then Partial(sc, ops[0]) else StartsPartial(sc, ops[1..], p)
  }

  /** What a replay may still differ in: columns the rest of the set is going to write anyway. */
  ghost predicate Alike(a: Option<Row>, b: Option<Row>, columns: set<string>) {
    a.Some? && b.Some? && forall c :: c !in columns ==> (c in a.value <==> c in b.value) && (c in a.value ==> a.value[c] == b.value[c])
  }

  lemma AlikeEverywhere(a: Option<Row>, b: Option<Row>)
    ensures Alike(a, b, {}) ==> a == b
  {
    assert a.Some? && b.Some? && a.value.Keys == b.value.Keys && (forall c :: c in a.value ==> a.value[c] == b.value[c])
      ==> a.value == b.value;
  }

  lemma {:induction false} AlikeConverge(sc: Schema, a: Option<Row>, b: Option<Row>, ops: seq<Op>, p: Place)
    requires AllWellShaped(sc, ops)
    requires a == b || Alike(a, b, Touched(ops, p))
    ensures RowRun(sc, a, ops, p) == RowRun(sc, b, ops, p)
    decreases |ops|
  {
    if ops == [] {
      AlikeEverywhere(a, b);
    } else if At(ops[0]) != p {
      AlikeConverge(sc, a, b, ops[1..], p);
    } else {
      var x, y := RowStep(sc, a, ops[0]), RowStep(sc, b, ops[0]);
      if x.Some? && y.Some? {
        AlikeConverge(sc, x.value, y.value, ops[1..], p);
      }
    }
  }

  /** After a delete nothing of the earlier row is left, so two accepted runs end alike. */
  lemma {:induction false} DeleteConverges(sc: Schema, a: Option<Row>, b: Option<Row>, ops: seq<Op>, p: Place)
    requires AllWellShaped(sc, ops) && Deletes(ops, p)
    requires RowRun(sc, a, ops, p).Some? && RowRun(sc, b, ops, p).Some?
    ensures RowRun(sc, a, ops, p) == RowRun(sc, b, ops, p)
    decreases |ops|
  {
    var i :| 0 <= i < |ops| && At(ops[i]) == p && ops[i].delete;
    if i > 0 {
      assert ops[1..][i - 1] == ops[i];
      var x, y := RowStep(sc, a, ops[0]), RowStep(sc, b, ops[0]);
      if At(ops[0]) != p {
        DeleteConverges(sc, a, b, ops[1..], p);
      } else {
        DeleteConverges(sc, x.value, y.value, ops[1..], p);
      }
    }
  }

  /** Only the first op at a place can be refused or not depending on whether the row is there. */
  lemma {:induction false} RefusalByPresence(sc: Schema, a: Option<Row>, b: Option<Row>, ops: seq<Op>, p: Place)
    requires AllWellShaped(sc, ops)
    requires RowRun(sc, a, ops, p).Some?
    requires (a.Some? <==> b.Some?) || !StartsPartial(sc, ops, p)
    ensures RowRun(sc, b, ops, p).Some?
    decreases |ops|
  {
    if ops != [] {
      if At(ops[0]) != p {
        RefusalByPresence(sc, a, b, ops[1..], p);
      } else {
        var x, y := RowStep(sc, a, ops[0]), RowStep(sc, b, ops[0]);
        RefusalByPresence(sc, x.value, y.value, ops[1..], p);
      }
    }
  }

  lemma {:induction false} PartialRefused(sc: Schema, ops: seq<Op>, p: Place)
    requires AllWellShaped(sc, ops)
    requires StartsPartial(sc, ops, p)
    ensures RowRun(sc, None, ops, p).None?
    decreases |ops|
  {
    if At(ops[0]) != p {
      PartialRefused(sc, ops[1..], p);
    }
  }

  lemma {:induction false} RowRunAppend(sc: Schema, row: Option<Row>, xs: seq<Op>, ys: seq<Op>, p: Place)
    requires AllWellShaped(sc, xs + ys) && AllWellShaped(sc, xs) && AllWellShaped(sc, ys)
    ensures
      var mid := RowRun(sc, row, xs, p);
      RowRun(sc, row, xs + ys, p) == if mid.None? then None else RowRun(sc, mid.value, ys, p)
    decreases |xs|
  {
    if xs == [] {
      assert xs + ys == ys;
    } else {
      assert (xs + ys)[1..] == xs[1..] + ys;
      if At(xs[0]) != p {
        RowRunAppend(sc, row, xs[1..], ys, p);
      } else {
        var next := RowStep(sc, row, xs[0]);
        if next.Some? {
          RowRunAppend(sc, next.value, xs[1..], ys, p);
        }
      }
    }
  }

  /** Without deletes, a run leaves a row alike to the one it found, up to what it touched. */
  lemma {:induction false} UpsertsKeep(sc: Schema, row: Row, ops: seq<Op>, p: Place)
    requires AllWellShaped(sc, ops) && !Deletes(ops, p)
    ensures RowRun(sc, Some(row), ops, p).Some?
    ensures Alike(Some(row), RowRun(sc, Some(row), ops, p).value, Touched(ops, p))
    decreases |ops|
  {
    if ops != [] {
      NoDeleteIn(ops, p);
      if At(ops[0]) != p {
        UpsertsKeep(sc, row, ops[1..], p);
      } else {
        UpsertsKeep(sc, row + ops[0].values, ops[1..], p);
      }
    }
  }

  lemma NoDeleteIn(ops: seq<Op>, p: Place)
    requires ops != []
    ensures Deletes(ops, p) <==> (At(ops[0]) == p && ops[0].delete) || Deletes(ops[1..], p)
  {
    if Deletes(ops, p) {
      var i :| 0 <= i < |ops| && At(ops[i]) == p && ops[i].delete;
      assert i > 0 ==> ops[1..][i - 1] == ops[i];
    }
    if Deletes(ops[1..], p) {
      var i :| 0 <= i < |ops[1..]| && At(ops[1..][i]) == p && ops[1..][i].delete;
      assert ops[i + 1] == ops[1..][i];
    }
  }

  /** A row as an INSERT leaves it: every column has a value, and the key columns have their own. */
  ghost predicate Whole(sc: Schema, p: Place, row: Row) {
    && p.table in sc.columns && row.Keys == sc.columns[p.table]
    && forall c :: c in p.key ==> c in row && row[c] == p.key[c]
  }

  lemma {:induction false} RunKeepsWhole(sc: Schema, row: Option<Row>, ops: seq<Op>, p: Place)
    requires AllWellShaped(sc, ops)
    requires row.Some? ==> Whole(sc, p, row.value)
    ensures
      var after := RowRun(sc, row, ops, p);
      after.Some? && after.value.Some? ==> Whole(sc, p, after.value.value)
    decreases |ops|
  {
    if ops != [] {
      if At(ops[0]) != p {
        RunKeepsWhole(sc, row, ops[1..], p);
      } else {
        var next := RowStep(sc, row, ops[0]);
        if next.Some? {
          RunKeepsWhole(sc, next.value, ops[1..], p);
        }
      }
    }
  }

  /** An insert that names every column does not care what it finds. */
  lemma {:induction false} InsertConverges(sc: Schema, row: Row, ops: seq<Op>, p: Place)
    requires AllWellShaped(sc, ops)
    requires Whole(sc, p, row) && !StartsPartial(sc, ops, p)
    requires exists i :: 0 <= i < |ops| && At(ops[i]) == p
    ensures RowRun(sc, Some(row), ops, p) == RowRun(sc, None, ops, p)
    decreases |ops|
  {
    if At(ops[0]) == p {
      if !ops[0].delete {
        assert row + ops[0].values == ops[0].key + ops[0].values;
      }
    } else {
      var i :| 0 <= i < |ops| && At(ops[i]) == p;
      assert ops[1..][i - 1] == ops[i];
      InsertConverges(sc, row, ops[1..], p);
    }
  }

  lemma {:induction false} Unmentioned(sc: Schema, row: Option<Row>, ops: seq<Op>, p: Place)
    requires AllWellShaped(sc, ops)
    requires forall i :: 0 <= i < |ops| ==> At(ops[i]) != p
    ensures RowRun(sc, row, ops, p) == Some(row)
    decreases |ops|
  {
    if ops != [] {
      Unmentioned(sc, row, ops[1..], p);
    }
  }

  lemma {:induction false} TouchedPrefix(ops: seq<Op>, n: nat, p: Place)
    requires n <= |ops|
    ensures Touched(ops[..n], p) <= Touched(ops, p)
    decreases |ops|
  {
    if n > 0 {
      assert ops[..n][1..] == ops[1..][..n - 1];
      TouchedPrefix(ops[1..], n - 1, p);
    }
  }

  // ---- crash replay ------------------------------------------------------------------------

  /** Replay at one place: from wherever a prefix left the row, the whole set leads to the same row. */
  lemma PlaceReplays(sc: Schema, row: Option<Row>, ops: seq<Op>, n: nat, p: Place)
    requires AllWellShaped(sc, ops) && n <= |ops|
    requires RowRun(sc, row, ops, p).Some?
    requires !(StartsPartial(sc, ops, p) && Deletes(ops, p))
    ensures
      var mid := RowRun(sc, row, ops[..n], p);
      mid.Some? && RowRun(sc, mid.value, ops, p) == RowRun(sc, row, ops, p)
  {
    var before, after := ops[..n], ops[n..];
    assert ops == before + after;
    RowRunAppend(sc, row, before, after, p);
    var mid := RowRun(sc, row, before, p).value;
    if StartsPartial(sc, ops, p) && row.None? {
      PartialRefused(sc, ops, p);
    }
    if Deletes(ops, p) {
      RefusalByPresence(sc, row, mid, ops, p);
      DeleteConverges(sc, row, mid, ops, p);
    } else {
      assert forall i :: 0 <= i < n ==> before[i] == ops[i];
      assert !Deletes(before, p);
      if row.Some? {
        UpsertsKeep(sc, row.value, before, p);
        TouchedPrefix(ops, n, p);
        AlikeConverge(sc, row, mid, ops, p);
      } else if mid.Some? {
        RunKeepsWhole(sc, row, before, p);
        if forall i :: 0 <= i < |before| ==> At(before[i]) != p {
          Unmentioned(sc, row, before, p);
        } else {
          var i :| 0 <= i < |before| && At(before[i]) == p;
          assert At(ops[i]) == p;
          InsertConverges(sc, mid.value, ops, p);
        }
      }
    }
  }

  /** A crash after `n` ops, followed by a replay of the whole set, ends in the uninterrupted state. */
  ghost predicate ReplaysFrom(sc: Schema, s: State, ops: seq<Op>, n: nat)
    requires AllWellShaped(sc, ops) && n <= |ops|
  {
    var mid := Run(sc, s, ops[..n]);
    mid.Some? && Run(sc, mid.value, ops) == Run(sc, s, ops)
  }

  lemma {:induction false} RunAppend(sc: Schema, s: State, xs: seq<Op>, ys: seq<Op>)
    requires AllWellShaped(sc, xs + ys) && AllWellShaped(sc, xs) && AllWellShaped(sc, ys)
    ensures
      var mid := Run(sc, s, xs);
      Run(sc, s, xs + ys) == if mid.None? then None else Run(sc, mid.value, ys)
    decreases |xs|
  {
    if xs == [] {
      assert xs + ys == ys;
    } else {
      assert (xs + ys)[1..] == xs[1..] + ys;
      var next := Step(sc, s, xs[0]);
      if next.Some? {
        RunAppend(sc, next.value, xs[1..], ys);
      }
    }
  }

  // ---- the unique index over a run ---------------------------------------------------------

  /** The op sets, or clears away, what its row holds under a unique index. */
  predicate Settles(sc: Schema, op: Op, q: Place, u: set<string>) {
    At(op) == q && (op.delete || Gives(sc, op, u))
  }

  /** The value a row holds under a unique index. */
  function Held(row: Option<Row>, u: set<string>): Option<Row> {
    if row.Some? then Some(Part(row.value, u)) else None
  }

  /** What does not settle a row leaves what it holds, and leaves a missing row missing. */
  lemma {:induction false} Unsettled(sc: Schema, row: Option<Row>, ops: seq<Op>, q: Place, u: set<string>)
    requires AllWellShaped(sc, ops) && Index(sc, q.table, u)
    requires forall i :: 0 <= i < |ops| ==> !Settles(sc, ops[i], q, u)
    requires RowRun(sc, row, ops, q).Some?
    ensures Held(RowRun(sc, row, ops, q).value, u) == Held(row, u)
    decreases |ops|
  {
    if ops != [] {
      assert !Settles(sc, ops[0], q, u);
      forall i | 0 <= i < |ops[1..]|
        ensures !Settles(sc, ops[1..][i], q, u)
      {
        assert ops[1..][i] == ops[i + 1];
      }
      if At(ops[0]) != q {
        Unsettled(sc, row, ops[1..], q, u);
      } else {
        Unsettled(sc, RowStep(sc, row, ops[0]).value, ops[1..], q, u);
        UpdateKeepsHeld(sc, row, ops[0], q, u);
      }
    }
  }

  lemma UpdateKeepsHeld(sc: Schema, row: Option<Row>, op: Op, q: Place, u: set<string>)
    requires WellShaped(sc, op) && At(op) == q && !Settles(sc, op, q, u)
    requires Index(sc, q.table, u) && RowStep(sc, row, op).Some?
    ensures Held(RowStep(sc, row, op).value, u) == Held(row, u)
  {
    var c :| c in u;
    assert c in sc.columns[op.table] && (!op.delete ==> c !in op.key.Keys + op.values.Keys);
    if row.Some? {
      assert Part(row.value + op.values, u) == Part(row.value, u);
    }
  }

  lemma SettledHere(sc: Schema, row: Option<Row>, op: Op, q: Place, u: set<string>)
    requires WellShaped(sc, op) && Settles(sc, op, q, u) && Index(sc, q.table, u) && RowStep(sc, row, op).Some?
    ensures Held(RowStep(sc, row, op).value, u) == if op.delete then None else Some(Part(op.values, u))
  {
    if !op.delete {
      var base := if row.Some? then row.value else op.key;
      assert Part(base + op.values, u) == Part(op.values, u);
    }
  }

  /** What a row holds after the op that settled it last. */
  lemma {:induction false} LastSettled(sc: Schema, row: Option<Row>, ops: seq<Op>, q: Place, u: set<string>, k: nat)
    requires AllWellShaped(sc, ops) && k < |ops| && Settles(sc, ops[k], q, u)
    requires Index(sc, q.table, u)
    requires forall i :: k < i < |ops| ==> !Settles(sc, ops[i], q, u)
    requires RowRun(sc, row, ops, q).Some?
    ensures
      Held(RowRun(sc, row, ops, q).value, u) == if ops[k].delete then None else Some(Part(ops[k].values, u))
    decreases |ops|
  {
    var tail := ops[1..];
    forall i | k <= i < |tail|
      ensures !Settles(sc, tail[i], q, u)
    {
      assert tail[i] == ops[i + 1];
    }
    if k > 0 {
      assert tail[k - 1] == ops[k];
      LastSettled(sc, if At(ops[0]) == q then RowStep(sc, row, ops[0]).value else row, tail, q, u, k - 1);
    } else {
      SettledHere(sc, row, ops[0], q, u);
      Unsettled(sc, RowStep(sc, row, ops[0]).value, tail, q, u);
    }
  }

  /** The last op before `n` that settles a row. */
  lemma {:induction false} SettledLast(sc: Schema, ops: seq<Op>, n: nat, q: Place, u: set<string>) returns (k: Option<nat>)
    requires n <= |ops|
    ensures k.None? ==> forall i :: 0 <= i < n ==> !Settles(sc, ops[i], q, u)
    ensures k.Some? ==> k.value < n && Settles(sc, ops[k.value], q, u)
    ensures k.Some? ==> forall i :: k.value < i < n ==> !Settles(sc, ops[i], q, u)
    decreases n
  {
    if n == 0 {
      k := None;
    } else if Settles(sc, ops[n - 1], q, u) {
      k := Some(n - 1);
    } else {
      k := SettledLast(sc, ops, n - 1, q, u);
    }
  }

  /**
   A value passes from one row, at `i`, to another, at `k`, that nothing had settled before `i`: a
   replay after `k` finds it held when it comes to `i`.
   */
  predicate HandsOver(sc: Schema, ops: seq<Op>, i: nat, k: nat, u: set<string>) {
    && i < k < |ops|
    && Gives(sc, ops[i], u) && Gives(sc, ops[k], u) && ops[i].table == ops[k].table && At(ops[i]) != At(ops[k])
    && Part(ops[i].values, u) == Part(ops[k].values, u)
    && forall j :: 0 <= j < i ==> !Settles(sc, ops[j], At(ops[k]), u)
  }

  ghost predicate NoHandover(sc: Schema, ops: seq<Op>) {
    forall i: nat, k: nat, u :: !HandsOver(sc, ops, i, k, u)
  }

  /** No place is both first touched by an upsert that can only update, and deleted. */
  ghost predicate NoneUpdatedThenDeleted(sc: Schema, ops: seq<Op>)
    requires AllWellShaped(sc, ops)
  {
    forall p :: StartsPartial(sc, ops, p) ==> !Deletes(ops, p)
  }

  ghost predicate Replayable(sc: Schema, ops: seq<Op>)
    requires AllWellShaped(sc, ops)
  {
    NoneUpdatedThenDeleted(sc, ops) && NoHandover(sc, ops)
  }

  lemma PrefixRuns(sc: Schema, s: State, ops: seq<Op>, i: nat)
    requires AllWellShaped(sc, ops) && i < |ops| && Run(sc, s, ops).Some?
    ensures AllWellShaped(sc, ops[..i]) && Run(sc, s, ops[..i]).Some?
    ensures Step(sc, Run(sc, s, ops[..i]).value, ops[i]).Some?
  {
    Slices(sc, ops, i);
    RunAppend(sc, s, ops[..i], ops[i..]);
    assert ops[i..][0] == ops[i];
  }

  /** What a row holds after a prefix of the set, by the last op of the prefix that settled it. */
  lemma HeldAfter(sc: Schema, s: State, ops: seq<Op>, n: nat, q: Place, u: set<string>, k: Option<nat>)
    requires AllWellShaped(sc, ops) && n <= |ops| && AllWellShaped(sc, ops[..n])
    requires Index(sc, q.table, u) && Run(sc, s, ops[..n]).Some?
    requires k.None? ==> forall i :: 0 <= i < n ==> !Settles(sc, ops[i], q, u)
    requires k.Some? ==> k.value < n && Settles(sc, ops[k.value], q, u)
    requires k.Some? ==> forall i :: k.value < i < n ==> !Settles(sc, ops[i], q, u)
    ensures
      Held(Lookup(Run(sc, s, ops[..n]).value, q), u) ==
      if k.None? then Held(Lookup(s, q), u)
      else if ops[k.value].delete then None else Some(Part(ops[k.value].values, u))
  {
    RunByPlace(sc, s, ops[..n], q);
    if k.None? {
      Unsettled(sc, Lookup(s, q), ops[..n], q, u);
    } else {
      LastSettled(sc, Lookup(s, q), ops[..n], q, u, k.value);
    }
  }

  /** The step the uninterrupted run took is open to the replay as well: no row is in its way. */
  lemma NothingInTheWay(sc: Schema, s: State, ops: seq<Op>, n: nat, i: nat, q: Place, u: set<string>)
    requires AllWellShaped(sc, ops) && Run(sc, s, ops).Some? && NoHandover(sc, ops)
    requires n <= |ops| && i < |ops| && AllWellShaped(sc, ops[..n]) && AllWellShaped(sc, ops[..i])
    requires Run(sc, s, ops[..n]).Some? && Run(sc, Run(sc, s, ops[..n]).value, ops[..i]).Some?
    requires Gives(sc, ops[i], u) && q.table == ops[i].table && q != At(ops[i])
    ensures !Holds(Run(sc, Run(sc, s, ops[..n]).value, ops[..i]).value, q, u, Part(ops[i].values, u))
  {
    PrefixRuns(sc, s, ops, i);
    var mid := Run(sc, s, ops[..n]).value;
    var now, was := Run(sc, mid, ops[..i]).value, Run(sc, s, ops[..i]).value;
    assert !Holds(was, q, u, Part(ops[i].values, u));
    var k := SettledLast(sc, ops, i, q, u);
    HeldAfter(sc, s, ops, i, q, u, k);
    HeldAfter(sc, mid, ops, i, q, u, k);
    if k.None? {
      var later := SettledLast(sc, ops, n, q, u);
      HeldAfter(sc, s, ops, n, q, u, later);
      if later.Some? {
        assert !HandsOver(sc, ops, i, later.value, u);
      }
    }
  }

  lemma ReplayConverges(sc: Schema, s: State, ops: seq<Op>, n: nat)
    requires AllWellShaped(sc, ops) && n <= |ops|
    requires Run(sc, s, ops).Some? && Replayable(sc, ops)
    ensures ReplaysFrom(sc, s, ops, n)
  {
    Slices(sc, ops, n);
    RunAppend(sc, s, ops[..n], ops[n..]);
    var mid := Run(sc, s, ops[..n]).value;
    forall p
      ensures RowRun(sc, Lookup(mid, p), ops, p) == Some(Lookup(Run(sc, s, ops).value, p))
    {
      RunByPlace(sc, s, ops, p);
      RunByPlace(sc, s, ops[..n], p);
      PlaceReplays(sc, Lookup(s, p), ops, n, p);
    }
    if Run(sc, mid, ops).None? {
      ReplayNotRefused(sc, s, ops, n);
    } else {
      forall p
        ensures Lookup(Run(sc, mid, ops).value, p) == Lookup(Run(sc, s, ops).value, p)
      {
        RunByPlace(sc, mid, ops, p);
      }
      SameRows(Run(sc, mid, ops).value, Run(sc, s, ops).value);
    }
  }

  lemma ReplayNotRefused(sc: Schema, s: State, ops: seq<Op>, n: nat)
    requires AllWellShaped(sc, ops) && n <= |ops| && AllWellShaped(sc, ops[..n])
    requires Run(sc, s, ops).Some? && Run(sc, s, ops[..n]).Some? && NoHandover(sc, ops)
    requires forall p :: RowRun(sc, Lookup(Run(sc, s, ops[..n]).value, p), ops, p).Some?
    ensures Run(sc, Run(sc, s, ops[..n]).value, ops).Some?
  {
    var mid := Run(sc, s, ops[..n]).value;
    if Run(sc, mid, ops).None? {
      var i := RefusedAt(sc, mid, ops);
      var now, p := Run(sc, mid, ops[..i]).value, At(ops[i]);
      Slices(sc, ops, i);
      RunByPlace(sc, mid, ops[..i], p);
      RowRunAppend(sc, Lookup(mid, p), ops[..i], ops[i..], p);
      assert ops[i..][0] == ops[i];
      var u :| u in sc.unique[ops[i].table] && CollidesOn(sc, now, ops[i], u);
      var q :| q in now && q.table == ops[i].table && q != p && Holds(now, q, u, Part(ops[i].values, u));
      NothingInTheWay(sc, s, ops, n, i, q, u);
    }
  }

  /** A row that holds what a later op gives another one, with nothing in between to settle it. */
  lemma Blocked(sc: Schema, s: State, ops: seq<Op>, i: nat, q: Place, u: set<string>)
    requires AllWellShaped(sc, ops) && i < |ops| && Gives(sc, ops[i], u)
    requires q.table == ops[i].table && q != At(ops[i]) && Holds(s, q, u, Part(ops[i].values, u))
    requires forall j :: 0 <= j < i ==> !Settles(sc, ops[j], q, u)
    ensures Run(sc, s, ops).None?
  {
    Slices(sc, ops, i);
    RunAppend(sc, s, ops[..i], ops[i..]);
    var now := Run(sc, s, ops[..i]);
    if now.Some? {
      HeldAfter(sc, s, ops, i, q, u, None);
      assert Holds(now.value, q, u, Part(ops[i].values, u));
      assert CollidesOn(sc, now.value, ops[i], u);
      assert ops[i..][0] == ops[i];
    }
  }

  /** A value handed over: a crash right after it arrived cannot be replayed. */
  lemma HandoverFails(sc: Schema, s: State, ops: seq<Op>, i: nat, k: nat, u: set<string>)
    requires AllWellShaped(sc, ops) && Run(sc, s, ops).Some? && HandsOver(sc, ops, i, k, u)
    ensures !ReplaysFrom(sc, s, ops, k + 1)
  {
    var n, q := k + 1, At(ops[k]);
    Slices(sc, ops, n);
    RunAppend(sc, s, ops[..n], ops[n..]);
    HeldAfter(sc, s, ops, n, q, u, Some(k));
    Blocked(sc, Run(sc, s, ops[..n]).value, ops, i, q, u);
  }

  /** A place first updated and later deleted: a crash right after the delete cannot be replayed. */
  lemma ReplayFails(sc: Schema, s: State, ops: seq<Op>, p: Place) returns (n: nat)
    requires AllWellShaped(sc, ops) && Run(sc, s, ops).Some?
    requires StartsPartial(sc, ops, p) && Deletes(ops, p)
    ensures n <= |ops| && !ReplaysFrom(sc, s, ops, n)
  {
    var i :| 0 <= i < |ops| && At(ops[i]) == p && ops[i].delete;
    n := i + 1;
    Slices(sc, ops, n);
    RunAppend(sc, s, ops[..n], ops[n..]);
    var mid := Run(sc, s, ops[..n]).value;
    DeletedLast(sc, s, ops[..n], p);
    PartialRefused(sc, ops, p);
    if Run(sc, mid, ops).Some? {
      RunByPlace(sc, mid, ops, p);
    }
  }

  lemma Slices(sc: Schema, ops: seq<Op>, n: nat)
    requires AllWellShaped(sc, ops) && n <= |ops|
    ensures AllWellShaped(sc, ops[..n]) && AllWellShaped(sc, ops[n..]) && ops == ops[..n] + ops[n..]
  {
    assert forall k :: 0 <= k < n ==> ops[..n][k] == ops[k];
    assert forall k :: 0 <= k < |ops| - n ==> ops[n..][k] == ops[n + k];
  }

  lemma DeletedLast(sc: Schema, s: State, ops: seq<Op>, p: Place)
    requires AllWellShaped(sc, ops) && Run(sc, s, ops).Some?
    requires ops != [] && At(ops[|ops| - 1]) == p && ops[|ops| - 1].delete
    ensures p !in Run(sc, s, ops).value
  {
    var n := |ops| - 1;
    Slices(sc, ops, n);
    RunAppend(sc, s, ops[..n], ops[n..]);
    var mid := Run(sc, s, ops[..n]).value;
    assert ops[n..] == [ops[n]] && [ops[n]][1..] == [];
    assert Step(sc, mid, ops[n]) == Some(mid - {p});
  }

  /**
   Crash replay of a write set, as it lands under its id, converges from every prefix exactly when no row is first updated and later deleted and
   no value under a unique index passes from one row to another that nothing had settled before.
   */
  lemma ReplayExactly(sc: Schema, s: State, ops: seq<Op>)
    requires AllWellShaped(sc, ops) && Run(sc, s, ops).Some?
    ensures (forall n: nat :: n <= |ops| ==> ReplaysFrom(sc, s, ops, n)) <==> Replayable(sc, ops)
  {
    if Replayable(sc, ops) {
      forall n: nat | n <= |ops|
        ensures ReplaysFrom(sc, s, ops, n)
      {
        ReplayConverges(sc, s, ops, n);
      }
    } else if !NoneUpdatedThenDeleted(sc, ops) {
      var p :| StartsPartial(sc, ops, p) && Deletes(ops, p);
      var n := ReplayFails(sc, s, ops, p);
    } else {
      var i: nat, k: nat, u :| HandsOver(sc, ops, i, k, u);
      HandoverFails(sc, s, ops, i, k, u);
    }
  }

  // ---- where replay fails -------------------------------------------------------------------

  const OBJECT_KEY: set<string> := {"class", "natural_key"}

  /** The columns of `objects` that its key and its unique index are about. */
  function ObjectsSchema(): Schema {
    Schema(
      map["objects" := {"id"}], map["objects" := {"id", "class", "natural_key"}], map["objects" := {OBJECT_KEY}])
  }

  function ObjectAt(id: string): Place {
    Place("objects", map["id" := Text(id)])
  }

  function Keyed(k: string): Row {
    map["class" := Text("car"), "natural_key" := Text(k)]
  }

  /** What updating a record writes of its key. */
  function Rekey(id: string, k: string): Op {
    Op("objects", ObjectAt(id).key, Keyed(k), false)
  }

  /** Two objects, under one key each. */
  function TwoObjects(k: string, l: string): State {
    map[ObjectAt("A") := ObjectAt("A").key + Keyed(k), ObjectAt("B") := ObjectAt("B").key + Keyed(l)]
  }

  lemma PlacesApart()
    ensures ObjectAt("A") != ObjectAt("B")
  {
    assert "A"[0] != "B"[0];
    assert ObjectAt("A").key["id"] == Text("A") && ObjectAt("B").key["id"] == Text("B");
  }

  lemma KeyPart(id: string, k: string)
    ensures Part(ObjectAt(id).key + Keyed(k), OBJECT_KEY) == Keyed(k) == Part(Keyed(k), OBJECT_KEY)
    ensures Keyed(k)["natural_key"] == Text(k)
  {
    assert "id"[0] != "class"[0] && "id"[0] != "natural_key"[0];
    assert Part(ObjectAt(id).key + Keyed(k), OBJECT_KEY).Keys == Keyed(k).Keys;
    assert Part(Keyed(k), OBJECT_KEY).Keys == Keyed(k).Keys;
  }

  lemma RekeyShape(id: string, k: string)
    ensures WellShaped(ObjectsSchema(), Rekey(id, k)) && Gives(ObjectsSchema(), Rekey(id, k), OBJECT_KEY)
  {
    assert "id"[0] != "class"[0] && "id"[0] != "natural_key"[0];
    assert Rekey(id, k).key.Keys == {"id"};
    assert Rekey(id, k).values.Keys == OBJECT_KEY;
  }

  /** A row whose key no other row holds takes it. */
  lemma RekeyStep(s: State, id: string, k: string)
    requires ObjectAt(id) in s && forall q :: q in s && q != ObjectAt(id) ==> Part(s[q], OBJECT_KEY) != Keyed(k)
    ensures WellShaped(ObjectsSchema(), Rekey(id, k))
    ensures Step(ObjectsSchema(), s, Rekey(id, k)) == Some(s[ObjectAt(id) := s[ObjectAt(id)] + Keyed(k)])
  {
    RekeyShape(id, k);
    KeyPart(id, k);
    assert At(Rekey(id, k)) == ObjectAt(id);
    assert !CollidesOn(ObjectsSchema(), s, Rekey(id, k), OBJECT_KEY);
  }

  lemma RekeyFirst(k: string, l: string, m: string)
    requires m != l
    ensures WellShaped(ObjectsSchema(), Rekey("A", m))
    ensures Step(ObjectsSchema(), TwoObjects(k, l), Rekey("A", m)) == Some(TwoObjects(m, l))
  {
    PlacesApart();
    KeyPart("B", l);
    KeyPart("B", m);
    RekeyStep(TwoObjects(k, l), "A", m);
    assert ObjectAt("A").key + Keyed(k) + Keyed(m) == ObjectAt("A").key + Keyed(m);
    assert TwoObjects(k, l)[ObjectAt("A") := ObjectAt("A").key + Keyed(m)] == TwoObjects(m, l);
  }

  lemma RekeySecond(k: string, l: string, m: string)
    requires m != k
    ensures WellShaped(ObjectsSchema(), Rekey("B", m))
    ensures Step(ObjectsSchema(), TwoObjects(k, l), Rekey("B", m)) == Some(TwoObjects(k, m))
  {
    PlacesApart();
    KeyPart("A", k);
    KeyPart("A", m);
    RekeyStep(TwoObjects(k, l), "B", m);
    assert ObjectAt("B").key + Keyed(l) + Keyed(m) == ObjectAt("B").key + Keyed(m);
    assert TwoObjects(k, l)[ObjectAt("B") := ObjectAt("B").key + Keyed(m)] == TwoObjects(k, m);
  }

  /** Two changes to one object, and the key it passed through given to another one. */
  function PassedOn(k: string, l: string): seq<Op> {
    [Rekey("A", k), Rekey("A", l), Rekey("B", k)]
  }

  lemma ThreeSteps(sc: Schema, s: State, t: State, u: State, a: Op, b: Op, c: Op)
    requires WellShaped(sc, a) && WellShaped(sc, b) && WellShaped(sc, c)
    requires Step(sc, s, a) == Some(t) && Step(sc, t, b) == Some(u)
    ensures AllWellShaped(sc, [a, b, c]) && Run(sc, s, [a, b, c]) == Step(sc, u, c)
  {
    assert [a, b, c][1..] == [b, c] && [b, c][1..] == [c] && [c][1..] == [];
    assert Run(sc, u, [c]) == Step(sc, u, c) by {
      if Step(sc, u, c).Some? {
        assert Run(sc, Step(sc, u, c).value, []) == Step(sc, u, c);
      }
    }
    assert Run(sc, t, [b, c]) == Run(sc, u, [c]);
  }

  lemma PassedOnLands(x: string, y: string, k: string, l: string)
    requires k != y && l != y && k != l
    ensures AllWellShaped(ObjectsSchema(), PassedOn(k, l))
    ensures Run(ObjectsSchema(), TwoObjects(x, y), PassedOn(k, l)) == Some(TwoObjects(l, k))
  {
    RekeyFirst(x, y, k);
    RekeyFirst(k, y, l);
    RekeySecond(l, y, k);
    ThreeSteps(
      ObjectsSchema(), TwoObjects(x, y), TwoObjects(k, y), TwoObjects(l, y), Rekey("A", k), Rekey("A", l), Rekey("B", k));
  }

  lemma PassesOn(k: string, l: string)
    requires k != l
    ensures HandsOver(ObjectsSchema(), PassedOn(k, l), 0, 2, OBJECT_KEY)
  {
    PlacesApart();
    RekeyShape("A", k);
    RekeyShape("B", k);
  }

  /** It lands, it deletes nothing, and once it has landed it cannot be replayed. */
  lemma PassedOnCannotReplay(x: string, y: string, k: string, l: string)
    requires k != y && l != y && k != l
    ensures AllWellShaped(ObjectsSchema(), PassedOn(k, l)) && NoneUpdatedThenDeleted(ObjectsSchema(), PassedOn(k, l))
    ensures Run(ObjectsSchema(), TwoObjects(x, y), PassedOn(k, l)).Some?
    ensures !ReplaysFrom(ObjectsSchema(), TwoObjects(x, y), PassedOn(k, l), 3)
  {
    PassedOnLands(x, y, k, l);
    PassesOn(k, l);
    PassingFails(ObjectsSchema(), TwoObjects(x, y), PassedOn(k, l), OBJECT_KEY);
  }

  lemma PassingFails(sc: Schema, s: State, ops: seq<Op>, u: set<string>)
    requires |ops| == 3 && !ops[0].delete && !ops[1].delete && !ops[2].delete
    requires AllWellShaped(sc, ops) && Run(sc, s, ops).Some? && HandsOver(sc, ops, 0, 2, u)
    ensures NoneUpdatedThenDeleted(sc, ops) && !ReplaysFrom(sc, s, ops, 3)
  {
    HandoverFails(sc, s, ops, 0, 2, u);
  }
}
