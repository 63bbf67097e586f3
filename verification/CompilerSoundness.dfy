/** Compiled filters mean what the evaluator means: exact ones exactly, the others at least. */
module CompilerSoundness {
  import opened Options
  import opened TextOrder
  import opened Patterns
  import opened Query
  import opened Sql
  import opened Plans
  import opened Compiler

  // ---- reading a field ----

  /** A path that ends in the `length` of an array: the evaluator reads it, a JSON path reads nothing there. */
  predicate LandsOnLength(v: Json, segs: seq<string>)
    requires segs != []
    decreases |segs|
  {
    if |segs| == 1 then v.Arr? && segs[0] == "length"
    else
      var next := Property(v, segs[0]);
      next.Some? && LandsOnLength(next.value, segs[1..])
  }

  lemma {:induction false} LetterStartsNoIndex(s: string)
    requires s != [] && IsLetter(s[0])
    ensures Digits(s) == None
  {
    if |s| > 1 {
      LetterStartsNoIndex(s[..|s| - 1]);
    }
  }

  lemma {:induction false} LabelEndAt(s: string, n: nat)
    requires n <= |s| && (n < |s| ==> s[n] == '.') && forall i :: 0 <= i < n ==> s[i] != '.' && s[i] != '['
    ensures LabelEnd(s) == n
  {
    if n > 0 {
      LabelEndAt(s[1..], n - 1);
    }
  }

  /** The walk a JSON path makes: through members of objects only. */
  function MemberWalk(v: Field, segs: seq<string>): Field
    decreases |segs|
  {
    if segs == [] then v
    else if v.Some? && v.value.Obj? && segs[0] in v.value.fields
      then MemberWalk(Some(v.value.fields[segs[0]]), segs[1..])
    else None
  }

  lemma LookupStep(v: Json, rest: string, n: nat)
    requires n == LabelEnd(rest)
    ensures JsonLookup(v, "." + rest) ==
            if v.Obj? && rest[..n] in v.fields then JsonLookup(v.fields[rest[..n]], rest[n..]) else None
  {
    assert ("." + rest)[1..] == rest;
  }

  lemma MemberStep(v: Json, seg: string, segs: seq<string>)
    ensures MemberWalk(Some(v), [seg] + segs) ==
            if v.Obj? && seg in v.fields then MemberWalk(Some(v.fields[seg]), segs) else None
  {
    assert ([seg] + segs)[1..] == segs;
  }

  lemma IdentEndsLabel(rest: string, dot: nat)
    requires dot == IndexOf(rest, '.') && IsIdent(rest[..dot])
    ensures LabelEnd(rest) == dot
  {
    forall i | 0 <= i < dot ensures rest[i] != '.' && rest[i] != '[' {
      assert rest[i] == rest[..dot][i];
    }
    LabelEndAt(rest, dot);
  }

  lemma {:induction false} LookupWalksMembers(v: Json, rest: string)
    requires forall seg :: seg in Split(rest) ==> IsIdent(seg)
    ensures JsonLookup(v, "." + rest) == MemberWalk(Some(v), Split(rest))
    decreases |rest|
  {
    var dot := IndexOf(rest, '.');
    var seg := rest[..dot];
    assert Split(rest)[0] == seg && IsIdent(seg);
    IdentEndsLabel(rest, dot);
    LookupStep(v, rest, dot);
    if dot == |rest| {
      assert rest[dot..] == [] && Split(rest) == [seg] + [];
      MemberStep(v, seg, []);
    } else {
      var tail := rest[dot + 1..];
      assert rest[dot..] == "." + tail && Split(rest) == [seg] + Split(tail);
      MemberStep(v, seg, Split(tail));
      if v.Obj? && seg in v.fields {
        LookupWalksMembers(v.fields[seg], tail);
      }
    }
  }

  lemma IdentProperty(v: Json, seg: string)
    requires IsIdent(seg)
    ensures match v
            case Obj(fields) => Property(v, seg) == if seg in fields then Some(fields[seg]) else None
            case Arr(items) => Property(v, seg) == if seg == "length" then Some(Leaf(Num(|items| as real))) else None
            case Leaf(_) => Property(v, seg) == None
  {
    LetterStartsNoIndex(seg);
  }

  lemma LeafWalk(v: Scalar, segs: seq<string>)
    requires segs != []
    ensures Walk(Some(Leaf(v)), segs) == None && !LandsOnLength(Leaf(v), segs)
  {
    WalkNothing(segs[1..]);
  }

  /** Through identifiers, the two walks part only at the length of an array. */
  lemma {:induction false} MemberWalkIsWalk(v: Json, segs: seq<string>)
    requires segs != [] && forall i :: 0 <= i < |segs| ==> IsIdent(segs[i])
    ensures if LandsOnLength(v, segs) then MemberWalk(Some(v), segs) == None && Walk(Some(v), segs).Some?
            else MemberWalk(Some(v), segs) == Walk(Some(v), segs)
    decreases |segs|
  {
    var next, rest := Property(v, segs[0]), segs[1..];
    IdentProperty(v, segs[0]);
    if rest == [] {
      assert Walk(Some(v), segs) == Walk(next, rest) == next;
    } else if v.Obj? && next.Some? {
      MemberWalkIsWalk(next.value, rest);
    } else if next.Some? {
      LeafWalk(next.value.v, rest);
    } else {
      WalkNothing(rest);
    }
  }

  /** Where a path is identifiers only, SQLite reads what the evaluator reads, but for the length of an array. */
  lemma LookupIsWalk(v: Json, rest: string)
    requires forall seg :: seg in Split(rest) ==> IsIdent(seg)
    ensures if LandsOnLength(v, Split(rest)) then JsonLookup(v, "." + rest) == None && Walk(Some(v), Split(rest)).Some?
            else JsonLookup(v, "." + rest) == Walk(Some(v), Split(rest))
  {
    LookupWalksMembers(v, rest);
    forall i | 0 <= i < |Split(rest)| ensures IsIdent(Split(rest)[i]) {
      assert Split(rest)[i] in Split(rest);
    }
    MemberWalkIsWalk(v, Split(rest));
  }

  /** What is at stake when a row is stored: its layout's columns hold its fields. */
  lemma StoredCell(p: Plan, id: string, row: Json, c: Column)
    requires GoodPlan(p) && KeyedBy(p, id, row) && c in p.columns
    ensures c.name in StoredRow(p, id, row) && StoredRow(p, id, row)[c.name] == BindCell(p, id, row, c)
    ensures !p.degenerate ==> BindCell(p, id, row, c) == EncodeCell(c, Own(row, c.name))
  {
    FindIn(p.columns, c);
    FindIn(p.columns, Column.Column(p.key, TextKind, false, false));
  }

  predicate FieldLandsOnLength(row: Json, field: string) {
    LandsOnLength(row, Split(field))
  }

  lemma StepWalk(v: Json, head: string, segs: seq<string>)
    requires segs != []
    ensures Walk(Some(v), [head] + segs) == Walk(Property(v, head), segs)
    ensures LandsOnLength(v, [head] + segs) <==> Property(v, head).Some? && LandsOnLength(Property(v, head).value, segs)
  {
    assert ([head] + segs)[1..] == segs;
  }

  lemma ReadDotted(row: Json, field: string, dot: nat, segs: seq<string>)
    requires row.Obj? && dot == IndexOf(field, '.') < |field| && segs == Split(field[dot + 1..])
    ensures FieldOf(row, field) == Walk(Own(row, field[..dot]), segs)
    ensures FieldLandsOnLength(row, field)
            <==> Own(row, field[..dot]).Some? && LandsOnLength(Own(row, field[..dot]).value, segs)
  {
    assert Split(field) == [field[..dot]] + segs;
    StepWalk(row, field[..dot], segs);
  }

  /** A field no column can hold is on no valid row. */
  lemma AbsentReadsNothing(p: Plan, row: Json, field: string)
    requires GoodPlan(p) && ValidRow(p, row) && ResolveField(p, field) == Absent
    ensures FieldOf(row, field) == None
  {
    var dot := IndexOf(field, '.');
    FindColumn(p.columns, field[..dot]);
    if dot == |field| {
      assert field[..dot] == field;
      ReadUndotted(row, field);
    } else {
      var segs := Split(field[dot + 1..]);
      ReadDotted(row, field, dot, segs);
      WalkNothing(segs);
      WalkNothing(segs[1..]);
      var found := Find(p.columns, field[..dot]);
      if found.Some? {
        assert FitsColumn(found.value, Own(row, found.value.name));
      }
    }
  }

  lemma ScalarReads(p: Plan, id: string, row: Json, field: string, c: Column)
    requires GoodPlan(p) && ValidRow(p, row) && KeyedBy(p, id, row) && ResolveField(p, field) == AtScalar(c)
    ensures c in p.columns && c.kind != JsonKind && ScalarUnambiguous(c)
    ensures FitsColumn(c, FieldOf(row, field))
    ensures ColumnOf(StoredRow(p, id, row), c.name) == EncodeCell(c, FieldOf(row, field))
  {
    FindColumn(p.columns, field);
    assert field[..|field|] == field;
    ReadUndotted(row, field);
    StoredCell(p, id, row, c);
    var i :| 0 <= i < |p.columns| && p.columns[i] == c;
    assert ScalarUnambiguous(p.columns[i]);
  }

  lemma DegenerateReads(p: Plan, id: string, row: Json, field: string)
    requires GoodPlan(p) && ValidRow(p, row) && KeyedBy(p, id, row) && p.degenerate
    requires forall seg :: seg in Split(field) ==> IsIdent(seg)
    ensures var read := AtPath(ColumnOf(StoredRow(p, id, row), DATA_COLUMN), TextCell("$." + field));
            if FieldLandsOnLength(row, field) then read == None && FieldOf(row, field).Some?
              else read == FieldOf(row, field)
  {
    var data := Column.Column(DATA_COLUMN, JsonKind, false, false);
    assert p.columns[1] == data && p.columns[0].name != p.columns[1].name;
    StoredCell(p, id, row, data);
    assert ("$." + field)[1..] == "." + field;
    LookupIsWalk(row, field);
  }

  lemma EncodedLookup(c: Column, own: Field, rest: string)
    requires c.kind == JsonKind && forall seg :: seg in Split(rest) ==> IsIdent(seg)
    ensures var read := AtPath(EncodeCell(c, own), TextCell("$." + rest));
            if own.Some? && LandsOnLength(own.value, Split(rest)) then read == None && Walk(own, Split(rest)).Some?
            else read == Walk(own, Split(rest))
  {
    assert ("$." + rest)[1..] == "." + rest;
    if own.Some? {
      LookupIsWalk(own.value, rest);
    } else {
      WalkNothing(Split(rest));
    }
  }

  lemma DottedReads(p: Plan, id: string, row: Json, field: string, dot: nat)
    requires GoodPlan(p) && ValidRow(p, row) && KeyedBy(p, id, row) && !p.degenerate
    requires dot == IndexOf(field, '.') < |field|
    requires Find(p.columns, field[..dot]).Some? && Find(p.columns, field[..dot]).value.kind == JsonKind
    requires forall seg :: seg in Split(field[dot + 1..]) ==> IsIdent(seg)
    ensures var read := AtPath(ColumnOf(StoredRow(p, id, row), field[..dot]), TextCell("$." + field[dot + 1..]));
            if FieldLandsOnLength(row, field) then read == None && FieldOf(row, field).Some?
              else read == FieldOf(row, field)
  {
    var rest := field[dot + 1..];
    var c := Find(p.columns, field[..dot]).value;
    FindColumn(p.columns, field[..dot]);
    StoredCell(p, id, row, c);
    var own := Own(row, field[..dot]);
    ReadDotted(row, field, dot, Split(rest));
    EncodedLookup(c, own, rest);
  }

  lemma UndottedReads(p: Plan, id: string, row: Json, c: Column)
    requires GoodPlan(p) && KeyedBy(p, id, row) && row.Obj? && !p.degenerate
    requires c in p.columns && c.kind == JsonKind
    ensures AtPath(ColumnOf(StoredRow(p, id, row), c.name), TextCell("$")) == Own(row, c.name)
  {
    StoredCell(p, id, row, c);
    assert "$"[1..] == [];
  }

  /** What a JSON path reads of the stored row: the field, unless it is the length of an array. */
  lemma JsonReads(p: Plan, id: string, row: Json, field: string, name: string, path: string)
    requires GoodPlan(p) && ValidRow(p, row) && KeyedBy(p, id, row) && ResolveField(p, field) == AtJson(name, path)
    ensures var read := AtPath(ColumnOf(StoredRow(p, id, row), name), TextCell(path));
            if FieldLandsOnLength(row, field) then read == None && FieldOf(row, field).Some?
              else read == FieldOf(row, field)
  {
    var dot := IndexOf(field, '.');
    if p.degenerate {
      DegenerateReads(p, id, row, field);
    } else {
      FindColumn(p.columns, field[..dot]);
      if dot == |field| {
        assert field[..dot] == field;
        UndottedReads(p, id, row, Find(p.columns, field).value);
        ReadUndotted(row, field);
      } else {
        DottedReads(p, id, row, field, dot);
      }
    }
  }

  // ---- leaves ----

  /** A valid row and the stored row it was inserted as. */
  ghost predicate Stores(p: Plan, id: string, row: Json) {
    GoodPlan(p) && ValidRow(p, row) && KeyedBy(p, id, row)
  }

  /** What a compiled filter promises of one row: the evaluator's answer if exact, and never less. */
  ghost predicate Means(c: Compiled, truth: bool, row: DbRow) {
    && |c.params| == Params(c.cond)
    && var r := EvalSql(c.cond, c.params, row);
    if c.exact then r == Truth(truth) else truth ==> r.True?
  }

  lemma OneParam(x: Cell)
    ensures [x][..0] == [] && [x][0..] == [x] && [x][1..] == []
  {
  }

  lemma TwoParams(x: Cell, y: Cell)
    ensures [x, y][..1] == [x] && [x, y][1..] == [y]
  {
  }

  lemma EqCell(c: Column, f: Field, v: Scalar)
    requires c.kind != JsonKind && ScalarUnambiguous(c) && FitsColumn(c, f)
    ensures KindMatches(c.kind, v) ==> (EncodeCell(c, f) == Norm(v) <==> ScalarEq(f, v))
    ensures v.Null? ==> (ScalarEq(f, v) <==> c.nullable && EncodeCell(c, f).NullCell?)
    ensures !v.Null? && !KindMatches(c.kind, v) ==> !ScalarEq(f, v)
  {
  }

  /** A scalar column holding a field of a valid row. */
  ghost predicate HoldsScalar(c: Column, f: Field, db: DbRow) {
    c.kind != JsonKind && ScalarUnambiguous(c) && FitsColumn(c, f) && ColumnOf(db, c.name) == EncodeCell(c, f)
  }

  /** A JSON path that reads a field. */
  ghost predicate HoldsJson(name: string, path: string, f: Field, db: DbRow) {
    AtPath(ColumnOf(db, name), TextCell(path)) == f
  }

  lemma EqScalarMeans(c: Column, f: Field, v: Scalar, db: DbRow)
    requires HoldsScalar(c, f, db)
    ensures Means(EqScalar(c, v), ScalarEq(f, v), db)
    ensures Means(NeqScalar(c, v), !ScalarEq(f, v), db)
  {
    EqCell(c, f, v);
    OneParam(Norm(v));
  }

  lemma EqJsonMeans(name: string, path: string, f: Field, v: Scalar, db: DbRow)
    requires HoldsJson(name, path, f, db)
    ensures Means(EqJson(name, path, v), ScalarEq(f, v), db)
  {
    TwoParams(TextCell(path), Norm(v));
  }

  /** Resolving a field of a valid row: what its column, its path or its absence says of it. */
  lemma Resolved(p: Plan, id: string, row: Json, field: string)
    requires Stores(p, id, row)
    ensures match ResolveField(p, field)
            case Absent => FieldOf(row, field) == None
            case Opaque => true
            case AtScalar(c) => HoldsScalar(c, FieldOf(row, field), StoredRow(p, id, row))
            case AtJson(name, path) => !FieldLandsOnLength(row, field) ==>
              HoldsJson(name, path, FieldOf(row, field), StoredRow(p, id, row))
  {
    match ResolveField(p, field)
    case Absent => AbsentReadsNothing(p, row, field);
    case Opaque =>
    case AtScalar(c) => ScalarReads(p, id, row, field, c);
    case AtJson(name, path) => JsonReads(p, id, row, field, name, path);
  }

  lemma RangeCell(c: Column, f: Field, v: Scalar)
    requires c.kind != JsonKind && FitsColumn(c, f) && !v.Null?
    requires (c.kind == RealKind && v.Num?) || (c.kind == TextKind && v.Text?)
    ensures CompareCells(EncodeCell(c, f), Norm(v)) == CompareScalar(f, v)
  {
    if f.Some? && f.value.Leaf? && f.value.v.Text? {
      OrdersAgree(f.value.v.s, v.s);
    }
  }

  lemma RangeMismatch(c: Column, f: Field, v: Scalar)
    requires c.kind != JsonKind && FitsColumn(c, f)
    requires !((c.kind == RealKind && v.Num?) || (c.kind == TextKind && v.Text?))
    ensures CompareScalar(f, v) == None
  {
  }

  /** A column that is never null needs no guard against null. */
  lemma TwoValuedMeans(c: Column, cond: Cond, ps: seq<Cell>, row: DbRow, truth: bool)
    requires |ps| == Params(cond)
    requires var r := EvalSql(cond, ps, row);
             r == Truth(truth) || (r == Unknown && (c.nullable || c.optional) && !truth)
    ensures Params(TwoValued(c, cond)) == |ps| && EvalSql(TwoValued(c, cond), ps, row) == Truth(truth)
  {
  }

  lemma RangeScalarMeans(cmp: Cmp, c: Column, f: Field, v: Scalar, db: DbRow)
    requires HoldsScalar(c, f, db) && !v.Null?
    ensures var r := CompareScalar(f, v); Means(RangeScalar(cmp, c, v), r.Some? && Holds(cmp, r.value), db)
  {
    var r := CompareScalar(f, v);
    if (c.kind == RealKind && v.Num?) || (c.kind == TextKind && v.Text?) {
      RangeCell(c, f, v);
      OneParam(Norm(v));
      TwoValuedMeans(c, Compared(cmp, Col(c.name), Param), [Norm(v)], db, r.Some? && Holds(cmp, r.value));
    } else {
      RangeMismatch(c, f, v);
    }
  }

  lemma RangeJsonMeans(cmp: Cmp, name: string, path: string, f: Field, v: Scalar, db: DbRow)
    requires HoldsJson(name, path, f, db) && v.Num?
    ensures var r := CompareScalar(f, v); Means(RangeJson(cmp, name, path, v), r.Some? && Holds(cmp, r.value), db)
  {
    TwoParams(TextCell(path), Norm(v));
  }

  lemma InListSnoc(x: Cell, cells: seq<Cell>, y: Cell)
    ensures InList(x, cells + [y]) == TriOr(InList(x, cells), Equal(x, y))
  {
    assert (cells + [y])[..|cells|] == cells;
  }

  lemma NormsSnoc(vs: seq<Scalar>, v: Scalar)
    ensures Norms(vs + [v]) == Norms(vs) + [Norm(v)]
  {
    assert (vs + [v])[..|vs|] == vs;
  }

  /** Some value of the list, other than null, is the field. */
  predicate Found(f: Field, vs: seq<Scalar>) {
    exists v :: v in vs && !v.Null? && ScalarEq(f, v)
  }

  lemma FoundSnoc(f: Field, vs: seq<Scalar>, v: Scalar)
    ensures Found(f, vs + [v]) <==> Found(f, vs) || (!v.Null? && ScalarEq(f, v))
  {
    if Found(f, vs) {
      var w :| w in vs && !w.Null? && ScalarEq(f, w);
      assert w in vs + [v];
    }
    if !v.Null? && ScalarEq(f, v) {
      assert v in vs + [v];
    }
  }

  lemma {:induction false} UsableMatch(kind: Kind, vs: seq<Scalar>)
    ensures forall v :: v in Usable(kind, vs) ==> v in vs && KindMatches(kind, v)
  {
    if vs != [] {
      UsableMatch(kind, vs[..|vs| - 1]);
    }
  }

  lemma {:induction false} InUsable(c: Column, f: Field, vs: seq<Scalar>)
    requires c.kind != JsonKind && ScalarUnambiguous(c) && FitsColumn(c, f)
    ensures InList(EncodeCell(c, f), Norms(Usable(c.kind, vs))) == InUsableTri(c, f, vs)
  {
    if vs != [] {
      var init, last := vs[..|vs| - 1], vs[|vs| - 1];
      InUsable(c, f, init);
      assert vs == init + [last];
      InUsableSnoc(c, f, init, last);
    }
  }

  lemma UsableSnoc(kind: Kind, vs: seq<Scalar>, v: Scalar)
    ensures Usable(kind, vs + [v]) == if KindMatches(kind, v) then Usable(kind, vs) + [v] else Usable(kind, vs)
  {
    assert (vs + [v])[..|vs|] == vs;
  }

  /** What the list test says of a stored field. */
  function InUsableTri(c: Column, f: Field, vs: seq<Scalar>): Tri {
    if Usable(c.kind, vs) != [] && EncodeCell(c, f).NullCell? then Unknown else Truth(Found(f, vs))
  }

  lemma ListStep(t: Tri, x: Cell, y: Cell, nonempty: bool, found: bool)
    requires !y.NullCell? && (found ==> !x.NullCell?)
    requires t == if nonempty && x.NullCell? then Unknown else Truth(found)
    ensures TriOr(t, Equal(x, y)) == if x.NullCell? then Unknown else Truth(found || x == y)
  {
  }

  lemma InUsableSnoc(c: Column, f: Field, vs: seq<Scalar>, v: Scalar)
    requires c.kind != JsonKind && ScalarUnambiguous(c) && FitsColumn(c, f)
    requires InList(EncodeCell(c, f), Norms(Usable(c.kind, vs))) == InUsableTri(c, f, vs)
    ensures InList(EncodeCell(c, f), Norms(Usable(c.kind, vs + [v]))) == InUsableTri(c, f, vs + [v])
  {
    var x, us := EncodeCell(c, f), Usable(c.kind, vs);
    EqCell(c, f, v);
    FoundSnoc(f, vs, v);
    NullIsNoneOf(c, f, vs);
    UsableSnoc(c.kind, vs, v);
    if KindMatches(c.kind, v) {
      NormsSnoc(us, v);
      InListSnoc(x, Norms(us), Norm(v));
      ListStep(InList(x, Norms(us)), x, Norm(v), us != [], Found(f, vs));
    }
  }

  lemma {:induction false} AmongExtracted(f: Field, vs: seq<Scalar>)
    requires Null !in vs && Among(f, vs)
    ensures InList(Extracted(f), Norms(vs)).True?
  {
    var init, last := vs[..|vs| - 1], vs[|vs| - 1];
    assert vs == init + [last];
    NormsSnoc(init, last);
    InListSnoc(Extracted(f), Norms(init), Norm(last));
    if !ScalarEq(f, last) {
      AmongExtracted(f, init);
    }
  }

  /** The field is some value of the list. */
  predicate Among(f: Field, vs: seq<Scalar>) {
    exists v :: v in vs && ScalarEq(f, v)
  }

  lemma AmongSplits(c: Column, f: Field, vs: seq<Scalar>)
    requires c.kind != JsonKind && ScalarUnambiguous(c) && FitsColumn(c, f)
    ensures Among(f, vs) <==> Found(f, vs) || (Null in vs && c.nullable && EncodeCell(c, f).NullCell?)
  {
    EqCell(c, f, Null);
    if Null in vs && c.nullable && EncodeCell(c, f).NullCell? {
      assert Null in vs && ScalarEq(f, Null);
    }
    if Among(f, vs) {
      var v :| v in vs && ScalarEq(f, v);
      assert v.Null? || (v in vs && !v.Null? && ScalarEq(f, v));
    }
  }

  lemma AnyOne(a: Cond, ps: seq<Cell>, row: DbRow)
    requires |ps| == Params(a)
    ensures ParamsAll([a]) == |ps| && EvalAny([a], ps, row) == TriOr(False, EvalSql(a, ps, row))
  {
    assert [a][..0] == [] && ps[..0] == [] && ps[0..] == ps;
    assert ParamsAll([]) == 0;
  }

  lemma AnyTwo(a: Cond, ps: seq<Cell>, b: Cond, row: DbRow)
    requires |ps| == Params(a) && Params(b) == 0
    ensures ParamsAll([a] + [b]) == |ps|
    ensures EvalAny([a] + [b], ps, row) == TriOr(TriOr(False, EvalSql(a, ps, row)), EvalSql(b, [], row))
  {
    AnyOne(a, ps, row);
    assert ([a] + [b])[..1] == [a] && ps[..|ps|] == ps && ps[|ps|..] == [];
  }

  lemma InListMeans(c: Column, f: Field, vs: seq<Scalar>, row: DbRow)
    requires c.kind != JsonKind && ScalarUnambiguous(c) && FitsColumn(c, f)
    requires ColumnOf(row, c.name) == EncodeCell(c, f) && Usable(c.kind, vs) != []
    ensures var usable := Usable(c.kind, vs); var list := TwoValued(c, OneOf(Col(c.name), |usable|));
            Params(list) == |usable| && EvalSql(list, Norms(usable), row) == Truth(Found(f, vs))
  {
    var usable := Usable(c.kind, vs);
    var ps := Norms(usable);
    assert ps[..0] == [] && ps[0..] == ps;
    InUsable(c, f, vs);
    NullOnlyIfAllowed(c, f);
    NullIsNoneOf(c, f, vs);
    TwoValuedMeans(c, OneOf(Col(c.name), |usable|), ps, row, Found(f, vs));
  }

  lemma InScalarMeans(c: Column, f: Field, vs: seq<Scalar>, row: DbRow)
    requires HoldsScalar(c, f, row)
    ensures Means(InScalar(c, vs), Among(f, vs), row)
  {
    var usable := Usable(c.kind, vs);
    var withNull := Null in vs && c.nullable;
    AmongSplits(c, f, vs);
    var isNull := IsNull(Col(c.name));
    if usable != [] {
      var list := TwoValued(c, OneOf(Col(c.name), |usable|));
      InListMeans(c, f, vs, row);
      if withNull {
        AnyTwo(list, Norms(usable), isNull, row);
        assert InParts(c, vs) == [list] + [isNull];
      } else {
        AnyOne(list, Norms(usable), row);
        assert InParts(c, vs) == [list];
      }
    } else {
      InUsable(c, f, vs);
      if withNull {
        AnyOne(isNull, [], row);
        assert InParts(c, vs) == [isNull];
      }
    }
  }

  lemma NullOnlyIfAllowed(c: Column, f: Field)
    requires c.kind != JsonKind && FitsColumn(c, f)
    ensures EncodeCell(c, f).NullCell? ==> c.nullable || c.optional
  {
  }

  lemma NullIsNoneOf(c: Column, f: Field, vs: seq<Scalar>)
    requires c.kind != JsonKind && FitsColumn(c, f)
    ensures EncodeCell(c, f).NullCell? ==> !Found(f, vs)
  {
  }

  lemma InJsonMeans(name: string, path: string, f: Field, vs: seq<Scalar>, db: DbRow)
    requires HoldsJson(name, path, f, db) && Null !in vs
    ensures Means(InJson(name, path, vs), Among(f, vs), db)
  {
    var ps := [TextCell(path)] + Norms(vs);
    assert ps[..1] == [TextCell(path)] && ps[1..] == Norms(vs);
    if Among(f, vs) {
      AmongExtracted(f, vs);
    }
  }

  predicate LikesField(fold: CaseFold, ci: bool, pattern: string, f: Field) {
    f.Some? && f.value.Leaf? && f.value.v.Text? && Likes(fold, ci, pattern, f.value.v.s)
  }

  lemma LikeScalarMeans(fold: CaseFold, ci: bool, pattern: string, c: Column, f: Field, db: DbRow)
    requires HoldsScalar(c, f, db)
    ensures Means(LikeScalar(c, pattern, ci), LikesField(fold, ci, pattern, f), db)
  {
    if c.kind == TextKind {
      NullOnlyIfAllowed(c, f);
      var cell := TextCell(Translate(pattern, ci));
      OneParam(cell);
      if f.Some? && f.value.Leaf? && f.value.v.Text? {
        var text := f.value.v.s;
        TwoValuedMeans(c, Pattern(Col(c.name), ci), [cell], db, SqlMatches(ci, Translate(pattern, ci), text));
        if Likes(fold, ci, pattern, text) {
          LikeSuperset(fold, ci, pattern, text);
        }
        if TranslatesExactly(pattern, ci) {
          LikeExact(fold, ci, pattern, text);
        }
      } else {
        TwoValuedMeans(c, Pattern(Col(c.name), ci), [cell], db, false);
      }
    }
  }

  /** The element test passes exactly the elements strictly equal to the value. */
  lemma ElementMeans(v: Scalar, e: Json)
    ensures |ElementOf(v).1| == TestParams(ElementOf(v).0)
    ensures ElementPasses(ElementOf(v).0, ElementOf(v).1, e) <==> e == Leaf(v)
  {
  }

  lemma ParamsTwo(a: Cond, b: Cond)
    ensures ParamsAll([a, b]) == Params(a) + Params(b) && ParamsAll([a]) == Params(a)
  {
    assert [a, b][..1] == [a] && [a][..0] == [] && ParamsAll([]) == 0;
    assert ParamsAll([a]) == ParamsAll([a][..0]) + Params(a);
    assert ParamsAll([a, b]) == ParamsAll([a, b][..1]) + Params(b);
  }

  lemma EvalTwo(a: Cond, b: Cond, ps: seq<Cell>, qs: seq<Cell>, row: DbRow)
    requires |ps| == Params(a) && |qs| == Params(b)
    ensures ParamsAll([a, b]) == |ps + qs|
    ensures EvalAll([a, b], ps + qs, row) == TriAnd(TriAnd(True, EvalSql(a, ps, row)), EvalSql(b, qs, row))
  {
    ParamsTwo(a, b);
    assert [a, b][..1] == [a] && [a][..0] == [];
    assert (ps + qs)[..|ps|] == ps && (ps + qs)[|ps|..] == qs && ps[..0] == [] && ps[0..] == ps;
    assert EvalAll([a], ps, row) == TriAnd(True, EvalSql(a, ps, row));
  }

  lemma HasJsonMeans(v: Scalar, f: Field, name: string, path: string, db: DbRow)
    requires HoldsJson(name, path, f, db)
    ensures Means(HasJson(name, path, v), f.Some? && f.value.Arr? && Leaf(v) in f.value.items, db)
  {
    var (test, ps) := ElementOf(v);
    var a, b := TypeIsArray(name), HasElement(name, test);
    var first, rest := [TextCell(path)], [TextCell(path)] + ps;
    assert [TextCell(path), TextCell(path)] + ps == first + rest;
    assert rest[1..] == ps;
    ElementMeans(v, Leaf(v));
    EvalTwo(a, b, first, rest, db);
    if f.Some? && f.value.Arr? {
      assert Each(f) == multiset(f.value.items);
      assert (exists e :: e in Each(f) && ElementPasses(test, ps, e)) <==> Leaf(v) in f.value.items by {
        if Leaf(v) in f.value.items {
          assert Leaf(v) in Each(f) && ElementPasses(test, ps, Leaf(v));
        }
        if e :| e in Each(f) && ElementPasses(test, ps, e) {
          ElementMeans(v, e);
        }
      }
    }
  }

  // ---- whole filters ----

  /** No leaf of the filter asks for the length of an array of this row through a dot path. */
  predicate LengthFree(e: Expr, row: Json) {
    match e
    case And(args) => forall a :: a in args ==> LengthFree(a, row)
    case Or(args) => forall a :: a in args ==> LengthFree(a, row)
    case Not(_) => true
    case Eq(f, _) => !FieldLandsOnLength(row, f)
    case Range(_, f, _) => !FieldLandsOnLength(row, f)
    case In(f, _) => !FieldLandsOnLength(row, f)
    case _ => true
  }

  lemma ComparisonMeans(fold: CaseFold, p: Plan, id: string, row: Json, e: Expr)
    requires Stores(p, id, row) && (e.Eq? || e.Neq? || e.Range?)
    ensures var c := Compile(p, e);
            c.Some? && (c.value.exact || LengthFree(e, row)) ==>
              Means(c.value, Eval(fold, e, row), StoredRow(p, id, row))
  {
    var db := StoredRow(p, id, row);
    var f := FieldOf(row, e.field);
    var ref := ResolveField(p, e.field);
    Resolved(p, id, row, e.field);
    match e
    case Eq(field, v) =>
      if ref.AtScalar? { EqScalarMeans(ref.col, f, v, db); }
      if ref.AtJson? && !FieldLandsOnLength(row, field) { EqJsonMeans(ref.name, ref.path, f, v, db); }
    case Neq(field, v) =>
      if ref.AtScalar? { EqScalarMeans(ref.col, f, v, db); }
    case Range(cmp, field, v) =>
      if ref.AtScalar? && !v.Null? { RangeScalarMeans(cmp, ref.col, f, v, db); }
      if ref.AtJson? && v.Num? && !FieldLandsOnLength(row, field) { RangeJsonMeans(cmp, ref.name, ref.path, f, v, db); }
  }

  lemma InMeans(fold: CaseFold, p: Plan, id: string, row: Json, e: Expr)
    requires Stores(p, id, row) && e.In?
    ensures var c := Compile(p, e);
            c.Some? && (c.value.exact || LengthFree(e, row)) ==>
              Means(c.value, Eval(fold, e, row), StoredRow(p, id, row))
  {
    var db, f, ref := StoredRow(p, id, row), FieldOf(row, e.field), ResolveField(p, e.field);
    Resolved(p, id, row, e.field);
    assert Eval(fold, e, row) == Among(f, e.values);
    if ref.AtScalar? {
      InScalarMeans(ref.col, f, e.values, db);
    } else if ref.AtJson? && Null !in e.values && !FieldLandsOnLength(row, e.field) {
      InJsonMeans(ref.name, ref.path, f, e.values, db);
    }
  }

  lemma LikeMeans(fold: CaseFold, p: Plan, id: string, row: Json, e: Expr)
    requires Stores(p, id, row) && e.Like?
    ensures var c := Compile(p, e);
            c.Some? && (c.value.exact || LengthFree(e, row)) ==>
              Means(c.value, Eval(fold, e, row), StoredRow(p, id, row))
  {
    var ref := ResolveField(p, e.field);
    Resolved(p, id, row, e.field);
    if ref.AtScalar? {
      LikeScalarMeans(fold, e.ci, e.pattern, ref.col, FieldOf(row, e.field), StoredRow(p, id, row));
    }
  }

  lemma HasMeans(fold: CaseFold, p: Plan, id: string, row: Json, e: Expr)
    requires Stores(p, id, row) && e.Has?
    ensures var c := Compile(p, e);
            c.Some? && (c.value.exact || LengthFree(e, row)) ==>
              Means(c.value, Eval(fold, e, row), StoredRow(p, id, row))
  {
    var ref := ResolveField(p, e.field);
    Resolved(p, id, row, e.field);
    if '.' !in e.field {
      ReadUndotted(row, e.field);
      if ref.AtJson? {
        HasJsonMeans(e.value, FieldOf(row, e.field), ref.name, ref.path, StoredRow(p, id, row));
      }
    }
  }

  lemma LeafMeans(fold: CaseFold, p: Plan, id: string, row: Json, e: Expr)
    requires Stores(p, id, row) && !e.And? && !e.Or? && !e.Not?
    ensures var c := Compile(p, e);
            c.Some? && (c.value.exact || LengthFree(e, row)) ==>
              Means(c.value, Eval(fold, e, row), StoredRow(p, id, row))
  {
    match e
    case In(_, _) => InMeans(fold, p, id, row, e);
    case Like(_, _, _) => LikeMeans(fold, p, id, row, e);
    case Has(_, _) => HasMeans(fold, p, id, row, e);
    case _ => ComparisonMeans(fold, p, id, row, e);
  }

  /** The arguments of an `and` or `or`, gathered. */
  ghost predicate MeansArgs(g: Gathered, isOr: bool, truth: bool, db: DbRow) {
    g.Gathered? ==>
      && |g.params| == ParamsAll(g.parts)
      && var r := if isOr then EvalAny(g.parts, g.params, db) else EvalAll(g.parts, g.params, db);
      if g.exact then r == Truth(truth) else truth ==> r.True?
  }

  lemma GatherMeans(g: Gathered, c: Option<Compiled>, isOr: bool, before: bool, truth: bool, db: DbRow)
    requires MeansArgs(g, isOr, before, db)
    requires c.Some? ==> Means(c.value, truth, db)
    ensures MeansArgs(Gather(g, c, isOr), isOr, if isOr then before || truth else before && truth, db)
  {
    if g.Gathered? && c.Some? {
      var parts, params := g.parts + [c.value.cond], g.params + c.value.params;
      assert parts[..|g.parts|] == g.parts;
      assert params[..|g.params|] == g.params && params[|g.params|..] == c.value.params;
    }
  }

  lemma FinishMeans(g: Gathered, isOr: bool, truth: bool, db: DbRow)
    requires MeansArgs(g, isOr, truth, db) && Finish(g, isOr).Some?
    ensures Means(Finish(g, isOr).value, truth, db)
  {
  }

  predicate Truths(fold: CaseFold, args: seq<Expr>, row: Json, isOr: bool) {
    if isOr then exists a :: a in args && Eval(fold, a, row) else forall a :: a in args ==> Eval(fold, a, row)
  }

  lemma TruthsSnoc(fold: CaseFold, args: seq<Expr>, a: Expr, row: Json, isOr: bool)
    ensures Truths(fold, args + [a], row, isOr) ==
            if isOr then Truths(fold, args, row, isOr) || Eval(fold, a, row)
              else Truths(fold, args, row, isOr) && Eval(fold, a, row)
  {
    assert forall x :: x in args + [a] <==> x in args || x == a;
  }

  lemma {:induction false} ArgsMean(fold: CaseFold, p: Plan, id: string, row: Json, args: seq<Expr>, isOr: bool)
    requires Stores(p, id, row)
    requires CompileArgs(p, args, isOr).Gathered?
    requires CompileArgs(p, args, isOr).exact || forall a :: a in args ==> LengthFree(a, row)
    ensures MeansArgs(CompileArgs(p, args, isOr), isOr, Truths(fold, args, row, isOr), StoredRow(p, id, row))
    decreases args, 1
  {
    if args != [] {
      var init, last := args[..|args| - 1], args[|args| - 1];
      assert args == init + [last];
      var g, c := CompileArgs(p, init, isOr), Compile(p, last);
      if !CompileArgs(p, args, isOr).exact {
        assert forall a :: a in init ==> a in args;
      }
      ArgsMean(fold, p, id, row, init, isOr);
      if c.Some? {
        CompileMeans(fold, p, id, row, last);
      }
      GatherMeans(g, c, isOr, Truths(fold, init, row, isOr), Eval(fold, last, row), StoredRow(p, id, row));
      TruthsSnoc(fold, init, last, row, isOr);
    }
  }

  /**
   * Compiler correctness. On every valid row as stored, with parameters bound positionally, an exact compilation is
   * true or false, never null, and is what the evaluator answers; any other is true whenever the evaluator's answer
   * is, unless the filter asks for an array's length through a dot path.
   */
  lemma {:induction false} CompileMeans(fold: CaseFold, p: Plan, id: string, row: Json, e: Expr)
    requires Stores(p, id, row)
    requires Compile(p, e).Some? && (Compile(p, e).value.exact || LengthFree(e, row))
    ensures Means(Compile(p, e).value, Eval(fold, e, row), StoredRow(p, id, row))
    decreases e, 0
  {
    match e
    case And(args) =>
      if args != [] {
        ArgsMean(fold, p, id, row, args, false);
        FinishMeans(CompileArgs(p, args, false), false, Eval(fold, e, row), StoredRow(p, id, row));
      }
    case Or(args) =>
      if args != [] {
        ArgsMean(fold, p, id, row, args, true);
        FinishMeans(CompileArgs(p, args, true), true, Eval(fold, e, row), StoredRow(p, id, row));
      }
    case Not(arg) => CompileMeans(fold, p, id, row, arg);
    case _ => LeafMeans(fold, p, id, row, e);
  }

  // ---- parameters ----

  lemma TwoValuedParams(c: Column, cond: Cond)
    ensures Params(TwoValued(c, cond)) == Params(cond)
  {
  }

  lemma InBinds(c: Column, vs: seq<Scalar>)
    ensures |InScalar(c, vs).params| == Params(InScalar(c, vs).cond)
  {
    var usable := Usable(c.kind, vs);
    var list, isNull := TwoValued(c, OneOf(Col(c.name), |usable|)), IsNull(Col(c.name));
    TwoValuedParams(c, OneOf(Col(c.name), |usable|));
    ParamsTwo(list, isNull);
    ParamsTwo(isNull, isNull);
    assert InParts(c, vs) == [] || InParts(c, vs) == [list] || InParts(c, vs) == [isNull] ||
      InParts(c, vs) == [list, isNull];
  }

  lemma HasBinds(name: string, path: string, v: Scalar)
    ensures |HasJson(name, path, v).params| == Params(HasJson(name, path, v).cond)
  {
    ParamsTwo(TypeIsArray(name), HasElement(name, ElementOf(v).0));
  }

  lemma ComparisonBinds(p: Plan, e: Expr)
    requires Compile(p, e).Some? && (e.Eq? || e.Neq? || e.Range?)
    ensures |Compile(p, e).value.params| == Params(Compile(p, e).value.cond)
  {
  }

  lemma LeafBinds(p: Plan, e: Expr)
    requires Compile(p, e).Some? && !e.And? && !e.Or? && !e.Not?
    ensures |Compile(p, e).value.params| == Params(Compile(p, e).value.cond)
  {
    if e.Eq? || e.Neq? || e.Range? {
      ComparisonBinds(p, e);
    } else {
      var ref := ResolveField(p, e.field);
      if e.In? && ref.AtScalar? {
        InBinds(ref.col, e.values);
      } else if e.Has? && ref.AtJson? {
        HasBinds(ref.name, ref.path, e.value);
      }
    }
  }

  lemma {:induction false} ArgsBind(p: Plan, args: seq<Expr>, isOr: bool)
    ensures var g := CompileArgs(p, args, isOr); g.Gathered? ==> |g.params| == ParamsAll(g.parts)
    decreases args, 1
  {
    if args != [] {
      var init, last := args[..|args| - 1], args[|args| - 1];
      ArgsBind(p, init, isOr);
      var g, c := CompileArgs(p, init, isOr), Compile(p, last);
      if g.Gathered? && c.Some? {
        CompileBinds(p, last);
        assert (g.parts + [c.value.cond])[..|g.parts|] == g.parts;
      }
    }
  }

  /** A compiled filter comes with exactly the parameters its placeholders take. */
  lemma {:induction false} CompileBinds(p: Plan, e: Expr)
    requires Compile(p, e).Some?
    ensures |Compile(p, e).value.params| == Params(Compile(p, e).value.cond)
    decreases e, 0
  {
    match e
    case And(args) => if args != [] { ArgsBind(p, args, false); }
    case Or(args) => if args != [] { ArgsBind(p, args, true); }
    case Not(arg) => CompileBinds(p, arg);
    case _ => LeafBinds(p, e);
  }

  // ---- the one exception, exactly ----

  lemma {:induction false} LengthIsNumber(v: Json, segs: seq<string>)
    requires segs != [] && LandsOnLength(v, segs)
    ensures Walk(Some(v), segs).Some? && Walk(Some(v), segs).value.Leaf? && Walk(Some(v), segs).value.v.Num?
    decreases |segs|
  {
    if |segs| == 1 {
      assert segs[1..] == [];
      assert Walk(Some(v), segs) == Walk(Property(v, segs[0]), []);
    } else {
      LengthIsNumber(Property(v, segs[0]).value, segs[1..]);
    }
  }

  /** The evaluator matches such a row and the compiled filter drops it. */
  lemma LengthDropsRow(fold: CaseFold, p: Plan, id: string, row: Json, field: string)
    requires Stores(p, id, row) && ResolveField(p, field).AtJson? && FieldLandsOnLength(row, field)
    ensures exists v :: Eval(fold, Eq(field, v), row) && !EvalsTrue(p, Eq(field, v), StoredRow(p, id, row))
  {
    var ref := ResolveField(p, field);
    LengthIsNumber(row, Split(field));
    JsonReads(p, id, row, field, ref.name, ref.path);
    var v := FieldOf(row, field).value.v;
    TwoParams(TextCell(ref.path), Norm(v));
    assert Eval(fold, Eq(field, v), row) && !EvalsTrue(p, Eq(field, v), StoredRow(p, id, row));
  }

  /** The compiled filter is true of a stored row. */
  ghost predicate EvalsTrue(p: Plan, e: Expr, db: DbRow) {
    var c := Compile(p, e);
    c.Some? && |c.value.params| == Params(c.value.cond) && EvalSql(c.value.cond, c.value.params, db).True?
  }

  /**
   * On a JSON path, equality narrows safely for every value if and only if the path does not end in the length of an
   * array of the row.
   */
  lemma JsonEqualitySafeIff(fold: CaseFold, p: Plan, id: string, row: Json, field: string)
    requires Stores(p, id, row) && ResolveField(p, field).AtJson?
    ensures (forall v :: Eval(fold, Eq(field, v), row) ==> EvalsTrue(p, Eq(field, v), StoredRow(p, id, row)))
            <==> !FieldLandsOnLength(row, field)
  {
    if FieldLandsOnLength(row, field) {
      LengthDropsRow(fold, p, id, row, field);
    } else {
      forall v | Eval(fold, Eq(field, v), row) ensures EvalsTrue(p, Eq(field, v), StoredRow(p, id, row)) {
        CompileMeans(fold, p, id, row, Eq(field, v));
      }
    }
  }
}
