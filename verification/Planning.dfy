/** Column planning: a collection's row schema read into a table layout. */
module Planning {
  import opened Options
  import opened Query
  import opened Plans

  /**
   * The slice of a JSON Schema node the planner reads, by the first keyword that decides it: a union (`anyOf`, else
   * `oneOf`), `type` as a word or a list, `const`, `enum`; the last two hold the `typeof` words of their values, with
   * `null` its own. `Bare` is a node with none of them.
   */
  datatype Node =
    | AnyOf(nodes: seq<Node>)
    | Type(word: string)
    | Types(words: seq<string>)
    | Const(of: string)
    | Enum(ofs: seq<string>)
    | Bare

  /** A row schema: its properties in declaration order, and which are required. */
  datatype Schema = Schema(properties: seq<(string, Node)>, required: set<string>)

  datatype PlanError = Reserved(name: string) | Unusable(name: string) | KeyMissing | KeyNotText | KeyNotRequired
  datatype Planned = Planned(plan: Plan) | Unplannable(error: PlanError)

  // ---- what a schema admits ----

  predicate HasType(word: string, v: Json) {
    match v
    case Leaf(Null) => word == "null"
    case Leaf(Bool(_)) => word == "boolean"
    case Leaf(Num(n)) => word == "number" || (word == "integer" && n == n.Floor as real)
    case Leaf(Text(_)) => word == "string"
    case Arr(_) => word == "array"
    case Obj(_) => word == "object"
  }

  /** JavaScript's `typeof`, with `null` apart. */
  function TypeofWord(v: Json): string {
    match v
    case Leaf(Null) => "null"
    case Leaf(Bool(_)) => "boolean"
    case Leaf(Num(_)) => "number"
    case Leaf(Text(_)) => "string"
    case Arr(_) => "object"
    case Obj(_) => "object"
  }

  /** The values a node lets through, as far as their types go. */
  predicate Admits(node: Node, v: Json) {
    match node
    case AnyOf(nodes) => exists n :: n in nodes && Admits(n, v)
    case Type(word) => HasType(word, v)
    case Types(words) => exists w :: w in words && HasType(w, v)
    case Const(of) => TypeofWord(v) == of
    case Enum(ofs) => TypeofWord(v) in ofs
    case Bare => true
  }

  // ---- reading types off a node ----

  /** Nested unions flattened. */
  function Branches(node: Node): seq<Node>
    decreases node, 0
  {
    if node.AnyOf? then BranchesOf(node.nodes) else [node]
  }

  function BranchesOf(nodes: seq<Node>): seq<Node>
    decreases nodes, 1
  {
    if nodes == [] then [] else BranchesOf(nodes[..|nodes| - 1]) + Branches(nodes[|nodes| - 1])
  }

  function BranchWords(b: Node): set<string> {
    match b
    case AnyOf(_) => {}
    case Type(word) => {word}
    case Types(words) => set w | w in words
    case Const(of) => {of}
    case Enum(ofs) => set w | w in ofs
    case Bare => {}
  }

  function WordsIn(bs: seq<Node>): set<string> {
    if bs == [] then {} else WordsIn(bs[..|bs| - 1]) + BranchWords(bs[|bs| - 1])
  }

  /** Every type word a node's branches name. */
  function Words(node: Node): set<string> {
    WordsIn(Branches(node))
  }

  method TypesOf(node: Node) returns (out: set<string>)
    ensures out == Words(node)
  {
    out := {};
    var bs := Branches(node);
    for i := 0 to |bs|
      invariant out == WordsIn(bs[..i])
    {
      assert bs[..i + 1][..i] == bs[..i];
      match bs[i]
      case Type(word) => out := out + {word};
      case Types(words) => out := AddAll(out, words);
      case Const(of) => out := out + {of};
      case Enum(ofs) => out := AddAll(out, ofs);
      case _ =>
    }
    assert bs[..|bs|] == bs;
  }

  method AddAll(out: set<string>, words: seq<string>) returns (r: set<string>)
    ensures r == out + set w | w in words
  {
    r := out;
    for j := 0 to |words|
      invariant r == out + set w | w in words[..j]
    {
      r := r + {words[j]};
    }
    assert words[..|words|] == words;
  }

  function KindOf(node: Node): Kind {
    var types := Words(node) - {"null"};
    if types == {"string"} then TextKind
    else if types == {"number"} || types == {"integer"} then RealKind
    else if types == {"boolean"} then BoolKind
    else JsonKind
  }

  // ---- planning ----

  /** Names with this prefix are the store's own. */
  const RESERVED := "_sl_"
  const MAX_IDENT := 60

  /** A name of a column: at most sixty letters, digits and underscores, no digit first, and not one of the store's. */
  predicate UsableName(name: string) {
    && 0 < |name| <= 60 && !('0' <= name[0] <= '9') && !("_sl_" <= name)
    && forall i :: 0 <= i < |name| ==>
         'a' <= name[i] <= 'z' || 'A' <= name[i] <= 'Z' || '0' <= name[i] <= '9' || name[i] == '_'
  }

  function CheckIdent(name: string): (error: Option<PlanError>)
    ensures error.None? <==> UsableName(name)
    ensures error == Some(Reserved(name)) <==> "_sl_" <= name
    ensures error.None? || error.value == Reserved(name) || error.value == Unusable(name)
  {
    if RESERVED <= name then Some(Reserved(name))
    else if !IsIdent(name) || |name| > MAX_IDENT then Some(Unusable(name))
    else None
  }

  /** A field's column; one both optional and nullable goes to JSON, where absent and null are told apart. */
  function ColumnFor(name: string, node: Node, required: set<string>): Column {
    var optional, nullable := name !in required, "null" in Words(node);
    Column.Column(name, if optional && nullable then JsonKind else KindOf(node), optional, nullable)
  }

  ghost predicate DistinctProperties(properties: seq<(string, Node)>) {
    forall i, j :: 0 <= i < j < |properties| ==> properties[i].0 != properties[j].0
  }

  /** A layout with one column for each property, in order. */
  ghost predicate Follows(columns: seq<Column>, s: Schema) {
    |columns| == |s.properties| && forall i :: 0 <= i < |columns| ==>
      columns[i] == ColumnFor(s.properties[i].0, s.properties[i].1, s.required)
  }

  /** What a schema must be like to be planned at all. */
  ghost predicate Plannable(key: string, js: Option<Schema>) {
    && UsableName(key)
    && (js.Some? ==>
          var s := js.value;
          && (forall i :: 0 <= i < |s.properties| ==> UsableName(s.properties[i].0))
          && (exists i :: 0 <= i < |s.properties| &&
                ColumnFor(s.properties[i].0, s.properties[i].1, s.required) ==
                  Column.Column(key, TextKind, false, false)))
  }

  ghost predicate HasProperty(s: Schema, name: string) {
    exists i :: 0 <= i < |s.properties| && s.properties[i].0 == name
  }

  /** What an error says of the schema: a name it uses is not usable, or what its key field is not. */
  ghost predicate Blames(key: string, js: Option<Schema>, error: PlanError) {
    match error
    case Reserved(name) => "_sl_" <= name && (name == key || (js.Some? && HasProperty(js.value, name)))
    case Unusable(name) =>
      !UsableName(name) && !("_sl_" <= name) && (name == key || (js.Some? && HasProperty(js.value, name)))
    case KeyMissing => js.Some? && !HasProperty(js.value, key)
    case KeyNotText => js.Some? && exists c :: ColumnIn(js.value, key, c) && c.kind != TextKind
    case KeyNotRequired => js.Some? && exists c ::
      ColumnIn(js.value, key, c) && c.kind == TextKind && (c.optional || c.nullable)
  }

  ghost predicate ColumnIn(s: Schema, name: string, c: Column) {
    exists i :: 0 <= i < |s.properties| && s.properties[i].0 == name &&
      c == ColumnFor(name, s.properties[i].1, s.required)
  }

  /** The layout of a collection, or why it has none. */
  method PlanColumns(key: string, js: Option<Schema>) returns (r: Planned)
    requires js.Some? ==> DistinctProperties(js.value.properties)
    ensures r.Planned? <==> Plannable(key, js)
    ensures r.Planned? ==> GoodPlan(r.plan) && r.plan.key == key && (r.plan.degenerate <==> js.None?)
    ensures r.Planned? && js.Some? ==> Follows(r.plan.columns, js.value)
    ensures r.Unplannable? ==> Blames(key, js, r.error)
  {
    var bad := CheckIdent(key);
    if bad.Some? {
      return Unplannable(bad.value);
    }
    if js.None? {
      var columns := [Column.Column(key, TextKind, false, false), Column.Column(DATA_COLUMN, JsonKind, false, false)];
      DataColumnIsApart(key);
      return Planned(Plan(key, true, columns));
    }
    var s := js.value;
    var columns: seq<Column> := [];
    for i := 0 to |s.properties|
      invariant |columns| == i
      invariant forall j :: 0 <= j < i ==> columns[j] == ColumnFor(s.properties[j].0, s.properties[j].1, s.required)
      invariant forall j :: 0 <= j < i ==> UsableName(s.properties[j].0)
    {
      var (name, node) := s.properties[i];
      bad := CheckIdent(name);
      if bad.Some? {
        assert !UsableName(s.properties[i].0);
        return Unplannable(bad.value);
      }
      var optional := name !in s.required;
      var types := TypesOf(node);
      var nullable := "null" in types;
      var kind := if optional && nullable then JsonKind else KindOf(node);
      columns := columns + [Column.Column(name, kind, optional, nullable)];
    }
    var found := Find(columns, key);
    FindColumn(columns, key);
    FollowsGood(columns, s);
    KeyIsFound(columns, s, key);
    FoundInSchema(columns, s, key);
    if found.None? {
      return Unplannable(KeyMissing);
    }
    if found.value.kind != TextKind {
      return Unplannable(KeyNotText);
    }
    if found.value.optional || found.value.nullable {
      return Unplannable(KeyNotRequired);
    }
    return Planned(Plan(key, false, columns));
  }

  lemma FoundInSchema(columns: seq<Column>, s: Schema, key: string)
    requires Follows(columns, s)
    ensures match Find(columns, key)
            case None => !HasProperty(s, key)
            case Some(c) => ColumnIn(s, key, c)
  {
    FindColumn(columns, key);
    if Find(columns, key).Some? {
      var i :| 0 <= i < |columns| && columns[i] == Find(columns, key).value;
    } else {
      forall i | 0 <= i < |s.properties| ensures s.properties[i].0 != key {
        assert columns[i] in columns;
      }
    }
  }

  lemma DataColumnIsApart(key: string)
    requires UsableName(key)
    ensures key != DATA_COLUMN && IsIdent(DATA_COLUMN)
  {
  }

  /** No field stays ambiguous: one that may be absent and may be null is not in a scalar column. */
  lemma FollowsGood(columns: seq<Column>, s: Schema)
    requires Follows(columns, s) && DistinctProperties(s.properties)
    requires forall i :: 0 <= i < |columns| ==> UsableName(s.properties[i].0)
    ensures DistinctNames(columns)
    ensures forall i :: 0 <= i < |columns| ==> IsIdent(columns[i].name) && ScalarUnambiguous(columns[i])
  {
  }

  lemma KeyIsFound(columns: seq<Column>, s: Schema, key: string)
    requires Follows(columns, s) && DistinctNames(columns)
    ensures (exists i :: 0 <= i < |s.properties| &&
               ColumnFor(s.properties[i].0, s.properties[i].1, s.required) ==
                 Column.Column(key, TextKind, false, false))
            <==> Find(columns, key) == Some(Column.Column(key, TextKind, false, false))
  {
    FindColumn(columns, key);
    forall i | 0 <= i < |columns| && columns[i] == Column.Column(key, TextKind, false, false)
      ensures Find(columns, key) == Some(columns[i])
    {
      FindAt(columns, i);
    }
  }

  // ---- a planned column holds what its field admits ----

  lemma {:induction false} AdmitsBranches(node: Node, v: Json)
    ensures Admits(node, v) <==> exists b :: b in Branches(node) && !b.AnyOf? && Admits(b, v)
    decreases node, 0
  {
    if node.AnyOf? {
      AdmitsBranchesOf(node.nodes, v);
    }
  }

  lemma {:induction false} AdmitsBranchesOf(nodes: seq<Node>, v: Json)
    ensures (exists n :: n in nodes && Admits(n, v))
            <==> exists b :: b in BranchesOf(nodes) && !b.AnyOf? && Admits(b, v)
    decreases nodes, 1
  {
    if nodes != [] {
      var init, last := nodes[..|nodes| - 1], nodes[|nodes| - 1];
      assert nodes == init + [last];
      AdmitsBranchesOf(init, v);
      AdmitsBranches(last, v);
      assert (exists n :: n in nodes && Admits(n, v)) <==> Admits(last, v) || exists n :: n in init && Admits(n, v);
    }
  }

  /** Every branch of a node names a type. */
  predicate AllTyped(node: Node) {
    forall b :: b in Branches(node) ==> !b.Bare?
  }

  /** Whatever its branches say, they say one type, or null beside it. */
  ghost predicate OnlyOf(node: Node, word: string) {
    && (forall b :: b in Branches(node) ==> BranchWords(b) <= {word, "null"})
    && (exists b :: b in Branches(node) && word in BranchWords(b))
  }

  lemma {:induction false} WordsFrom(bs: seq<Node>, w: string)
    ensures w in WordsIn(bs) <==> exists b :: b in bs && w in BranchWords(b)
  {
    if bs != [] {
      var init, last := bs[..|bs| - 1], bs[|bs| - 1];
      assert bs == init + [last];
      WordsFrom(init, w);
      assert (exists b :: b in bs && w in BranchWords(b))
        <==> w in BranchWords(last) || exists b :: b in init && w in BranchWords(b);
    }
  }

  lemma OnlyIff(node: Node, word: string)
    requires word != "null"
    ensures Words(node) - {"null"} == {word} <==> OnlyOf(node, word)
  {
    WordsFrom(Branches(node), word);
    if Words(node) - {"null"} == {word} {
      assert word in Words(node) - {"null"};
      forall b | b in Branches(node) ensures BranchWords(b) <= {word, "null"} {
        WordsWithin(Branches(node), b);
        assert forall w :: w in BranchWords(b) && w != "null" ==> w in Words(node) - {"null"};
      }
    }
    if OnlyOf(node, word) {
      forall w | w in Words(node) ensures w == word || w == "null" {
        WordsFrom(Branches(node), w);
      }
    }
  }

  /**
   * What column a field gets: one that may be absent unless it is required, that may be null if a branch says so, and
   * of a scalar kind exactly where its branches say that one type and it is not both.
   */
  lemma ColumnIff(name: string, node: Node, required: set<string>, c: Column)
    requires c == ColumnFor(name, node, required)
    ensures c.name == name && (c.optional <==> name !in required)
    ensures c.nullable <==> exists b :: b in Branches(node) && "null" in BranchWords(b)
    ensures c.kind == TextKind <==> OnlyOf(node, "string") && !(c.optional && c.nullable)
    ensures c.kind == BoolKind <==> OnlyOf(node, "boolean") && !(c.optional && c.nullable)
    ensures c.kind == RealKind <==> (OnlyOf(node, "number") || OnlyOf(node, "integer")) && !(c.optional && c.nullable)
  {
    WordsFrom(Branches(node), "null");
    OnlyIff(node, "string");
    OnlyIff(node, "number");
    OnlyIff(node, "integer");
    OnlyIff(node, "boolean");
    var types := Words(node) - {"null"};
    assert "string" in {"string"} && "number" in {"number"} && "integer" in {"integer"} && "boolean" in {"boolean"};
  }

  /** The word under which a typed branch admits a value. */
  lemma AdmittingWord(b: Node, v: Json) returns (w: string)
    requires Admits(b, v) && !b.Bare? && !b.AnyOf?
    ensures w in BranchWords(b) && (HasType(w, v) || w == TypeofWord(v))
  {
    match b
    case Type(word) => w := word;
    case Types(words) => w :| w in words && HasType(w, v);
    case Const(of) => w := of;
    case Enum(ofs) => w := TypeofWord(v);
  }

  lemma KindNames(node: Node, w: string)
    requires w in Words(node) && w != "null"
    ensures KindOf(node) == TextKind ==> w == "string"
    ensures KindOf(node) == RealKind ==> w == "number" || w == "integer"
    ensures KindOf(node) == BoolKind ==> w == "boolean"
  {
    assert w in Words(node) - {"null"};
  }

  lemma WordFits(w: string, v: Json, kind: Kind, nullable: bool)
    requires HasType(w, v) || w == TypeofWord(v)
    requires w == "null" ==> nullable
    requires kind == TextKind ==> w == "string" || w == "null"
    requires kind == RealKind ==> w == "number" || w == "integer" || w == "null"
    requires kind == BoolKind ==> w == "boolean" || w == "null"
    ensures kind == JsonKind || if v == Leaf(Null) then nullable else FitsKind(kind, v)
  {
  }

  lemma {:induction false} WordsWithin(bs: seq<Node>, b: Node)
    requires b in bs
    ensures BranchWords(b) <= WordsIn(bs)
  {
    if b != bs[|bs| - 1] {
      WordsWithin(bs[..|bs| - 1], b);
    }
  }

  lemma AdmittedFits(name: string, node: Node, required: set<string>, v: Json)
    requires AllTyped(node) && Admits(node, v)
    ensures FitsColumn(ColumnFor(name, node, required), Some(v))
  {
    AdmitsBranches(node, v);
    var b :| b in Branches(node) && !b.AnyOf? && Admits(b, v);
    var w := AdmittingWord(b, v);
    WordsWithin(Branches(node), b);
    var c := ColumnFor(name, node, required);
    if c.kind != JsonKind {
      if w != "null" {
        KindNames(node, w);
      }
      WordFits(w, v, c.kind, c.nullable);
    }
  }

  /**
   * A field's column holds every value its schema admits exactly when the column is JSON or every branch of the schema
   * names a type: beside a typed branch an untyped one is overlooked, and what it lets through does not fit.
   */
  lemma FitsIff(name: string, node: Node, required: set<string>)
    ensures (forall v :: Admits(node, v) ==> FitsColumn(ColumnFor(name, node, required), Some(v)))
            <==> ColumnFor(name, node, required).kind == JsonKind || AllTyped(node)
  {
    var c := ColumnFor(name, node, required);
    if AllTyped(node) {
      forall v | Admits(node, v) ensures FitsColumn(c, Some(v)) {
        AdmittedFits(name, node, required, v);
      }
    } else if c.kind != JsonKind {
      var b :| b in Branches(node) && b.Bare?;
      AdmitsBranches(node, Arr([]));
      assert Admits(b, Arr([]));
      assert !FitsColumn(c, Some(Arr([])));
    }
  }

  /** A union of text and anything at all is planned as text, and a number in it does not fit. */
  lemma UntypedBranchExample(required: set<string>)
    requires "f" in required
    ensures var node := AnyOf([Type("string"), Bare]); var c := ColumnFor("f", node, required);
            c.kind == TextKind && Admits(node, Leaf(Num(1.0))) && !FitsColumn(c, Some(Leaf(Num(1.0))))
  {
    var node := AnyOf([Type("string"), Bare]);
    assert [Type("string"), Bare][..1] == [Type("string")] && [Type("string")][..0] == [];
    assert BranchesOf([Type("string")]) == [Type("string")];
    assert Branches(node) == [Type("string"), Bare];
    assert Branches(node)[..1] == [Type("string")];
    assert WordsIn([Type("string")]) == {"string"};
    assert Words(node) == {"string"} + BranchWords(Bare) == {"string"};
    assert Words(node) - {"null"} == {"string"};
    assert Bare in node.nodes && Admits(Bare, Leaf(Num(1.0)));
  }

  /** A row validation let through: an object of declared fields, each admitted, with every required one present. */
  ghost predicate Conforms(s: Schema, row: Json) {
    && row.Obj?
    && (forall name :: name in row.fields ==> exists i :: 0 <= i < |s.properties| && s.properties[i].0 == name)
    && (forall i :: 0 <= i < |s.properties| ==>
          match Own(row, s.properties[i].0)
          case None => s.properties[i].0 !in s.required
          case Some(v) => Admits(s.properties[i].1, v))
  }

  /** Rows a typed schema lets through are rows its layout can hold. */
  lemma ConformingRowsFit(p: Plan, s: Schema, row: Json)
    requires GoodPlan(p) && !p.degenerate && Follows(p.columns, s) && Conforms(s, row)
    requires forall i :: 0 <= i < |s.properties| ==> p.columns[i].kind == JsonKind || AllTyped(s.properties[i].1)
    ensures ValidRow(p, row)
  {
    forall c | c in p.columns ensures FitsColumn(c, Own(row, c.name)) {
      var i :| 0 <= i < |p.columns| && p.columns[i] == c;
      if Own(row, c.name).Some? && c.kind != JsonKind {
        AdmittedFits(c.name, s.properties[i].1, s.required, Own(row, c.name).value);
      }
    }
    forall name | name in row.fields ensures Find(p.columns, name).Some? {
      var i :| 0 <= i < |s.properties| && s.properties[i].0 == name;
      FindAt(p.columns, i);
    }
  }
}
