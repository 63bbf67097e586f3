/** Column plans: how a collection's rows are laid out in a typed table, and the cells a row is stored as. */
module Plans {
  import opened Options
  import opened Query
  import opened Sql

  datatype Kind = TextKind | RealKind | BoolKind | JsonKind

  datatype Column = Column(name: string, kind: Kind, optional: bool, nullable: bool)

  datatype Plan = Plan(key: string, degenerate: bool, columns: seq<Column>)

  /** The JSON column that holds the whole row when the schema cannot be read. */
  const DATA_COLUMN := "_sl_data"

  predicate IsLetter(c: char) {
    'a' <= c <= 'z' || 'A' <= c <= 'Z' || c == '_'
  }

  /** `[A-Za-z_][A-Za-z0-9_]*` */
  predicate IsIdent(s: string) {
    s != [] && IsLetter(s[0]) && forall i :: 0 <= i < |s| ==> IsLetter(s[i]) || '0' <= s[i] <= '9'
  }

  predicate ScalarUnambiguous(c: Column) {
    c.kind != JsonKind && c.nullable ==> !c.optional
  }

  ghost predicate DistinctNames(columns: seq<Column>) {
    forall i, j :: 0 <= i < j < |columns| ==> columns[i].name != columns[j].name
  }

  /** What planning guarantees of a layout. */
  ghost predicate GoodPlan(p: Plan) {
    && (forall i :: 0 <= i < |p.columns| ==> IsIdent(p.columns[i].name) && ScalarUnambiguous(p.columns[i]))
    && DistinctNames(p.columns)
    && Column(p.key, TextKind, false, false) in p.columns
    && (p.degenerate ==>
      p.columns == [Column(p.key, TextKind, false, false), Column(DATA_COLUMN, JsonKind, false, false)])
  }

  function Find(columns: seq<Column>, name: string): Option<Column> {
    if columns == [] then None
    else if columns[0].name == name then Some(columns[0])
    else Find(columns[1..], name)
  }

  lemma {:induction false} FindColumn(columns: seq<Column>, name: string)
    ensures match Find(columns, name)
            case Some(c) => c in columns && c.name == name
            case None => forall c :: c in columns ==> c.name != name
  {
    if columns != [] {
      FindColumn(columns[1..], name);
    }
  }

  lemma {:induction false} FindAt(columns: seq<Column>, i: nat)
    requires DistinctNames(columns) && i < |columns|
    ensures Find(columns, columns[i].name) == Some(columns[i])
  {
    if i > 0 {
      assert columns[0].name != columns[i].name;
      FindAt(columns[1..], i - 1);
    }
  }

  lemma FindIn(columns: seq<Column>, c: Column)
    requires DistinctNames(columns) && c in columns
    ensures Find(columns, c.name) == Some(c)
  {
    var i :| 0 <= i < |columns| && columns[i] == c;
    FindAt(columns, i);
  }

  // ---- rows ----

  predicate FitsKind(kind: Kind, v: Json) {
    match kind
    case JsonKind => true
    case TextKind => v.Leaf? && v.v.Text?
    case RealKind => v.Leaf? && v.v.Num?
    case BoolKind => v.Leaf? && v.v.Bool?
  }

  /** Whether a field, or its absence, is what the schema admits for a column. */
  predicate FitsColumn(c: Column, f: Field) {
    match f
    case None => c.optional
    case Some(v) => if c.kind != JsonKind && v == Leaf(Null) then c.nullable else FitsKind(c.kind, v)
  }

  /** A row as validation leaves it: an object with declared fields only, each of its column's kind. */
  ghost predicate ValidRow(p: Plan, row: Json) {
    && row.Obj?
    && (!p.degenerate ==>
          && (forall name :: name in row.fields ==> Find(p.columns, name).Some?)
          && (forall c :: c in p.columns ==> FitsColumn(c, Own(row, c.name))))
  }

  function Norm(v: Scalar): Cell {
    match v
    case Null => NullCell
    case Bool(b) => NumCell(if b then 1.0 else 0.0)
    case Num(n) => NumCell(n)
    case Text(s) => TextCell(s)
  }

  /** A field as its column stores it. Absent is SQL null; in a JSON column `null` is the JSON text of null. */
  function EncodeCell(c: Column, f: Field): Cell {
    if f.None? then NullCell
    else if c.kind == JsonKind then JsonCell(f.value)
    else if f.value.Leaf? then Norm(f.value.v)
    else NullCell
  }

  /** What an insert binds for one column. */
  function BindCell(p: Plan, id: string, row: Json, c: Column): Cell {
    if c.name == p.key then TextCell(id)
    else if p.degenerate then JsonCell(row)
    else EncodeCell(c, Own(row, c.name))
  }

  /** The stored row: every column with the value an insert binds for it. */
  function StoredRow(p: Plan, id: string, row: Json): DbRow {
    map name | name in Names(p.columns) :: BindCell(p, id, row, Find(p.columns, name).value)
  }

  function Names(columns: seq<Column>): (names: set<string>)
    ensures forall name :: name in names <==> Find(columns, name).Some?
  {
    if columns == [] then {} else {columns[0].name} + Names(columns[1..])
  }

  /** The id a row is stored under is the value of its key field. */
  predicate KeyedBy(p: Plan, id: string, row: Json) {
    Own(row, p.key) == Some(Leaf(Text(id)))
  }
}
