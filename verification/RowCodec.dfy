/** Rows to bound values and back, for inserts, updates and reads. */
module RowCodec {
  import opened Options
  import opened Query
  import opened Sql
  import opened Plans

  /** The values an insert binds, in column order. */
  function RowParams(p: Plan, id: string, row: Json): seq<Cell> {
    seq(|p.columns|, i requires 0 <= i < |p.columns| => BindCell(p, id, row, p.columns[i]))
  }

  /** A row of an insert's column list and bound values. */
  function Inserted(columns: seq<Column>, params: seq<Cell>): DbRow
    requires |params| == |columns|
  {
    if columns == [] then map[]
    else
      var n := |columns| - 1;
      Inserted(columns[..n], params[..n])[columns[n].name := params[n]]
  }

  function NonKey(columns: seq<Column>, key: string): seq<Column> {
    if columns == [] then []
    else
      var n := |columns| - 1;
      NonKey(columns[..n], key) + if columns[n].name != key then [columns[n]] else []
  }

  function BindAll(p: Plan, id: string, row: Json, columns: seq<Column>): (cells: seq<Cell>)
    ensures |cells| == |columns|
  {
    seq(|columns|, i requires 0 <= i < |columns| => BindCell(p, id, row, columns[i]))
  }

  /** Every value an update binds: the columns it sets, the timestamp, the id it is for. */
  function UpdateParams(p: Plan, id: string, row: Json, ts: real): seq<Cell> {
    BindAll(p, id, row, NonKey(p.columns, p.key)) + [NumCell(ts), TextCell(id)]
  }

  /** The row an update leaves: the set columns over what was there, if its key is the one asked for. */
  function Updated(p: Plan, db: DbRow, params: seq<Cell>): DbRow
    requires |params| == |NonKey(p.columns, p.key)| + 2
  {
    var set_ := NonKey(p.columns, p.key);
    if ColumnOf(db, p.key) == params[|set_| + 1] then db + Inserted(set_, params[..|set_|]) else db
  }

  // ---- reading back ----

  /** A column's value as the row's field; `None` leaves the field out. */
  function DecodeCell(c: Column, v: Cell): Field {
    if c.kind == JsonKind then (if v.JsonCell? then Some(v.v) else None)
    else match v
      case NullCell => if c.nullable then Some(Leaf(Null)) else None
      case NumCell(n) => if c.kind == BoolKind then Some(Leaf(Bool(n == 1.0))) else Some(Leaf(Num(n)))
      case TextCell(s) => Some(Leaf(Text(s)))
      case JsonCell(j) => Some(j)
  }

  function WithField(fields: map<string, Json>, name: string, f: Field): map<string, Json> {
    if f.Some? then fields[name := f.value] else fields
  }

  function Fields(columns: seq<Column>, db: DbRow): map<string, Json> {
    if columns == [] then map[]
    else
      var c := columns[|columns| - 1];
      WithField(Fields(columns[..|columns| - 1], db), c.name, DecodeCell(c, ColumnOf(db, c.name)))
  }

  function FromRow(p: Plan, db: DbRow): Json {
    if p.degenerate then
      var data := ColumnOf(db, DATA_COLUMN);
      if data.JsonCell? then data.v else Leaf(Null)
    else Obj(Fields(p.columns, db))
  }

  /** The loop that reads a stored row, column by column. */
  method ReadRow(p: Plan, db: DbRow) returns (row: Json)
    ensures row == FromRow(p, db)
  {
    if p.degenerate {
      return FromRow(p, db);
    }
    var fields: map<string, Json> := map[];
    var i := 0;
    while i < |p.columns|
      invariant 0 <= i <= |p.columns|
      invariant fields == Fields(p.columns[..i], db)
    {
      var c := p.columns[i];
      var v := ColumnOf(db, c.name);
      assert p.columns[..i + 1][..i] == p.columns[..i];
      if c.kind == JsonKind {
        if v.JsonCell? {
          fields := fields[c.name := v.v];
        }
      } else if v.NullCell? {
        if c.nullable {
          fields := fields[c.name := Leaf(Null)];
        }
      } else if c.kind == BoolKind && v.NumCell? {
        fields := fields[c.name := Leaf(Bool(v.n == 1.0))];
      } else {
        fields := fields[c.name := DecodeCell(c, v).value];
      }
      i := i + 1;
    }
    assert p.columns[..i] == p.columns;
    return Obj(fields);
  }

  // ---- round trips ----

  lemma {:induction false} InsertedAt(columns: seq<Column>, params: seq<Cell>, i: nat)
    requires |params| == |columns| && DistinctNames(columns) && i < |columns|
    ensures columns[i].name in Inserted(columns, params) && Inserted(columns, params)[columns[i].name] == params[i]
  {
    var n := |columns| - 1;
    if i < n {
      InsertedAt(columns[..n], params[..n], i);
      assert columns[i].name != columns[n].name;
    }
  }

  lemma {:induction false} InsertedKeys(columns: seq<Column>, params: seq<Cell>)
    requires |params| == |columns|
    ensures forall name ::
              name in Inserted(columns, params) <==> exists i :: 0 <= i < |columns| && columns[i].name == name
  {
    if columns != [] {
      InsertedKeys(columns[..|columns| - 1], params[..|columns| - 1]);
    }
  }

  /** Where a name is among some distinct columns, the insert binds that column's value; elsewhere nothing. */
  lemma BoundUnder(p: Plan, id: string, row: Json, columns: seq<Column>, name: string)
    requires DistinctNames(columns)
    ensures var db := Inserted(columns, BindAll(p, id, row, columns)); var c := Find(columns, name);
            if c.Some? then name in db && db[name] == BindCell(p, id, row, c.value) else name !in db
  {
    InsertedKeys(columns, BindAll(p, id, row, columns));
    FindColumn(columns, name);
    if Find(columns, name).Some? {
      var i :| 0 <= i < |columns| && columns[i] == Find(columns, name).value;
      InsertedAt(columns, BindAll(p, id, row, columns), i);
    }
  }

  /** An insert stores every column under its name, whatever the order. */
  lemma InsertStores(p: Plan, id: string, row: Json)
    requires GoodPlan(p)
    ensures Inserted(p.columns, RowParams(p, id, row)) == StoredRow(p, id, row)
  {
    var a, b := Inserted(p.columns, RowParams(p, id, row)), StoredRow(p, id, row);
    assert RowParams(p, id, row) == BindAll(p, id, row, p.columns);
    forall name ensures (name in a <==> name in b) && (name in a ==> a[name] == b[name]) {
      BoundUnder(p, id, row, p.columns, name);
    }
  }

  /** One column keeps its field: absent, null and every value of its kind. */
  lemma CellRoundTrip(c: Column, f: Field)
    requires FitsColumn(c, f) && ScalarUnambiguous(c)
    ensures DecodeCell(c, EncodeCell(c, f)) == f
  {
  }

  lemma {:induction false} FieldsAre(p: Plan, id: string, row: Json, columns: seq<Column>, db: DbRow, name: string)
    requires DistinctNames(columns)
    requires forall i :: 0 <= i < |columns| ==>
              DecodeCell(columns[i], ColumnOf(db, columns[i].name)) == Own(row, columns[i].name)
    ensures var fields := Fields(columns, db);
            if exists i :: 0 <= i < |columns| && columns[i].name == name
            then Own(Obj(fields), name) == Own(row, name) else name !in fields
  {
    if columns != [] {
      var n := |columns| - 1;
      FieldsAre(p, id, row, columns[..n], db, name);
      if columns[n].name == name {
        assert forall i :: 0 <= i < n ==> columns[i].name != columns[n].name;
      } else if i :| 0 <= i < |columns| && columns[i].name == name {
        assert columns[..n][i].name == name;
      }
    }
  }

  /** Reading a stored row gives it back, with absent kept apart from null. */
  lemma RowRoundTrip(p: Plan, id: string, row: Json)
    requires GoodPlan(p) && ValidRow(p, row) && KeyedBy(p, id, row)
    ensures FromRow(p, StoredRow(p, id, row)) == row
  {
    var db := StoredRow(p, id, row);
    if p.degenerate {
      assert p.columns[1].name == DATA_COLUMN && p.columns[0].name != p.columns[1].name;
      FindAt(p.columns, 1);
    } else {
      forall i | 0 <= i < |p.columns|
        ensures DecodeCell(p.columns[i], ColumnOf(db, p.columns[i].name)) == Own(row, p.columns[i].name)
      {
        ColumnRoundTrip(p, id, row, i);
      }
      var fields := Fields(p.columns, db);
      forall name ensures Own(Obj(fields), name) == Own(row, name) {
        FieldsAre(p, id, row, p.columns, db, name);
        if name in row.fields {
          FindColumn(p.columns, name);
          var i :| 0 <= i < |p.columns| && p.columns[i] == Find(p.columns, name).value;
        }
      }
      OwnExtensional(fields, row.fields);
    }
  }

  lemma OwnExtensional(a: map<string, Json>, b: map<string, Json>)
    requires forall name :: Own(Obj(a), name) == Own(Obj(b), name)
    ensures a == b
  {
    forall name ensures name in a <==> name in b {
      assert Own(Obj(a), name) == Own(Obj(b), name);
    }
    forall name | name in a ensures a[name] == b[name] {
      assert Own(Obj(a), name) == Own(Obj(b), name);
    }
  }

  lemma ColumnRoundTrip(p: Plan, id: string, row: Json, i: nat)
    requires GoodPlan(p) && ValidRow(p, row) && KeyedBy(p, id, row) && !p.degenerate && i < |p.columns|
    ensures DecodeCell(p.columns[i], ColumnOf(StoredRow(p, id, row), p.columns[i].name)) == Own(row, p.columns[i].name)
  {
    var c := p.columns[i];
    FindAt(p.columns, i);
    assert FitsColumn(c, Own(row, c.name));
    if c.name == p.key {
      var k :| 0 <= k < |p.columns| && p.columns[k] == Column.Column(p.key, TextKind, false, false);
      FindAt(p.columns, k);
    } else {
      CellRoundTrip(c, Own(row, c.name));
    }
  }

  lemma {:induction false} FindConcat(a: seq<Column>, b: seq<Column>, name: string)
    ensures Find(a + b, name) == if Find(a, name).Some? then Find(a, name) else Find(b, name)
  {
    if a == [] {
      assert a + b == b;
    } else {
      assert (a + b)[1..] == a[1..] + b;
      FindConcat(a[1..], b, name);
    }
  }

  lemma {:induction false} NonKeyColumns(columns: seq<Column>, key: string, name: string)
    requires DistinctNames(columns)
    ensures DistinctNames(NonKey(columns, key))
    ensures Find(NonKey(columns, key), name) == if name == key then None else Find(columns, name)
    ensures forall c :: c in NonKey(columns, key) ==> c in columns
  {
    if columns != [] {
      var init, last := columns[..|columns| - 1], columns[|columns| - 1];
      NonKeyColumns(init, key, name);
      assert columns == init + [last];
      var rest := NonKey(init, key);
      FindConcat(init, [last], name);
      FindConcat(rest, [last], name);
      assert [last][1..] == [] && rest + [] == rest;
      forall i | 0 <= i < |rest| ensures rest[i].name != last.name {
        assert rest[i] in init;
      }
    }
  }

  /** An update of a stored row leaves what inserting the new row would have stored. */
  lemma UpdateStores(p: Plan, id: string, old_: Json, row: Json, ts: real)
    requires GoodPlan(p)
    ensures |UpdateParams(p, id, row, ts)| == |NonKey(p.columns, p.key)| + 2
    ensures Updated(p, StoredRow(p, id, old_), UpdateParams(p, id, row, ts)) == StoredRow(p, id, row)
  {
    var was, now := StoredRow(p, id, old_), StoredRow(p, id, row);
    var cols := NonKey(p.columns, p.key);
    var params := UpdateParams(p, id, row, ts);
    assert params[..|cols|] == BindAll(p, id, row, cols);
    KeyCell(p, id, old_);
    var merged := was + Inserted(cols, BindAll(p, id, row, cols));
    forall name ensures (name in merged <==> name in now) && (name in now ==> merged[name] == now[name]) {
      UpdatedUnder(p, id, old_, row, name);
    }
    assert merged == now;
  }

  lemma UpdatedUnder(p: Plan, id: string, old_: Json, row: Json, name: string)
    requires GoodPlan(p)
    ensures var cols := NonKey(p.columns, p.key); var now := StoredRow(p, id, row);
            var merged := StoredRow(p, id, old_) + Inserted(cols, BindAll(p, id, row, cols));
            (name in merged <==> name in now) && (name in now ==> merged[name] == now[name])
  {
    NonKeyColumns(p.columns, p.key, name);
    BoundUnder(p, id, row, NonKey(p.columns, p.key), name);
    KeyCell(p, id, old_);
    KeyCell(p, id, row);
  }

  lemma KeyCell(p: Plan, id: string, row: Json)
    requires GoodPlan(p)
    ensures p.key in StoredRow(p, id, row) && StoredRow(p, id, row)[p.key] == TextCell(id)
  {
    var k :| 0 <= k < |p.columns| && p.columns[k] == Column.Column(p.key, TextKind, false, false);
    FindAt(p.columns, k);
  }
}
