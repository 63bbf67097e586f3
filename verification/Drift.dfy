/** Layout fingerprints, the drift check at boot, and what altering a table does to the rows in it. */
module Drift {
  import opened Options
  import opened Sorting
  import opened Query
  import opened Sql
  import opened Plans
  import opened RowCodec
  import opened CompilerSoundness
  import opened Pushdown

  // ---- fingerprints ----

  function KindWord(kind: Kind): string {
    match kind
    case TextKind => "text"
    case RealKind => "real"
    case BoolKind => "integer-bool"
    case JsonKind => "json"
  }

  /** A column's kind and flags, as written after its name. */
  function Suffix(c: Column): string {
    KindWord(c.kind) + (if c.optional then ":o" else "") + (if c.nullable then ":n" else "")
  }

  function Entry(c: Column): string {
    c.name + ":" + Suffix(c)
  }

  function Head(p: Plan): string {
    if p.degenerate then "v2:degenerate" else "v2"
  }

  /** `parts.join(sep)`, of at least one part. */
  function Join(parts: seq<string>, sep: char): string
    requires parts != []
  {
    if |parts| == 1 then parts[0] else parts[0] + [sep] + Join(parts[1..], sep)
  }

  function ByName(): (Column, Column) -> int {
    (a: Column, b: Column) => TextCompare(a.name, b.name)
  }

  function Entries(columns: seq<Column>): seq<string> {
    Mapped(columns, c => Entry(c))
  }

  function KeyPart(p: Plan): string {
    "key=" + p.key
  }

  function Parts(p: Plan): (parts: seq<string>)
    ensures |parts| >= 2 && parts[0] == Head(p) && parts[1] == KeyPart(p)
    ensures parts[2..] == Entries(Sort(ByName(), p.columns))
  {
    [Head(p), KeyPart(p)] + Entries(Sort(ByName(), p.columns))
  }

  function Fingerprint(p: Plan): string {
    Join(Parts(p), ';')
  }

  datatype Parsed = Parsed(head: string, key: Option<string>, cols: map<string, string>)

  /** `part.slice(0, part.indexOf(':'))` */
  function PartName(part: string): string {
    var at := IndexOf(part, ':');
    if at < |part| then part[..at] else if part == "" then "" else part[..|part| - 1]
  }

  function ParseEntries(parts: seq<string>): map<string, string> {
    if parts == [] then map[]
      else ParseEntries(parts[..|parts| - 1])[PartName(parts[|parts| - 1]) := parts[|parts| - 1]]
  }

  function Parse(fp: string): Parsed {
    var parts := SplitOn(fp, ';');
    Parsed(
      parts[0],
      if |parts| > 1 then Some(parts[1]) else None,
      if |parts| > 2 then ParseEntries(parts[2..]) else map[])
  }

  method ParseFingerprint(fp: string) returns (r: Parsed)
    ensures r == Parse(fp)
  {
    var parts := SplitOn(fp, ';');
    var cols: map<string, string> := map[];
    var rest := if |parts| > 2 then parts[2..] else [];
    for i := 0 to |rest|
      invariant cols == ParseEntries(rest[..i])
    {
      assert rest[..i + 1][..i] == rest[..i];
      cols := cols[PartName(rest[i]) := rest[i]];
    }
    assert rest[..|rest|] == rest;
    r := Parsed(parts[0], if |parts| > 1 then Some(parts[1]) else None, cols);
  }

  // ---- splitting undoes joining ----

  lemma {:induction false} SplitJoin(parts: seq<string>, sep: char)
    requires parts != [] && forall i :: 0 <= i < |parts| ==> sep !in parts[i]
    ensures SplitOn(Join(parts, sep), sep) == parts
  {
    var s, head := Join(parts, sep), parts[0];
    assert s[..|head|] == head;
    FirstAt(s, sep, |head|);
    if |parts| > 1 {
      SplitJoin(parts[1..], sep);
      assert s[|head| + 1..] == Join(parts[1..], sep);
    }
  }

  lemma EntryIsPlain(c: Column)
    requires IsIdent(c.name)
    ensures ';' !in Entry(c) && PartName(Entry(c)) == c.name
  {
    assert forall x :: x in Suffix(c) ==> x != ';';
    assert Entry(c)[..|c.name|] == c.name && Entry(c)[|c.name|] == ':';
    FirstAt(Entry(c), ':', |c.name|);
  }

  lemma SuffixInjective(c: Column, d: Column)
    requires Suffix(c) == Suffix(d)
    ensures c.kind == d.kind && c.optional == d.optional && c.nullable == d.nullable
  {
    assert Suffix(c)[0] == KindWord(c.kind)[0] && Suffix(d)[0] == KindWord(d.kind)[0];
    var n := |KindWord(c.kind)|;
    assert |Suffix(c)| == n + (if c.optional then 2 else 0) + if c.nullable then 2 else 0;
    assert |Suffix(d)| == n + (if d.optional then 2 else 0) + if d.nullable then 2 else 0;
    assert |Suffix(c)| == n + 2 ==>
      Suffix(c)[n + 1] == (if c.optional then 'o' else 'n') && Suffix(d)[n + 1] == (if d.optional then 'o' else 'n');
  }

  /** An entry spells one column. */
  lemma EntryInjective(c: Column, d: Column)
    requires IsIdent(c.name) && IsIdent(d.name) && Entry(c) == Entry(d)
    ensures c == d
  {
    EntryIsPlain(c);
    EntryIsPlain(d);
    assert Entry(c)[|c.name| + 1..] == Suffix(c) && Entry(d)[|d.name| + 1..] == Suffix(d);
    SuffixInjective(c, d);
  }

  // ---- parsing a fingerprint gives the layout back ----

  /** A name is one column's. */
  ghost predicate OnePerName(columns: seq<Column>) {
    forall c, d :: c in columns && d in columns && c.name == d.name ==> c == d
  }

  lemma DistinctIsOnePerName(columns: seq<Column>)
    requires DistinctNames(columns)
    ensures OnePerName(columns)
  {
    forall c, d | c in columns && d in columns && c.name == d.name ensures c == d {
      FindIn(columns, c);
      FindIn(columns, d);
    }
  }

  lemma LastEntry(columns: seq<Column>, last: Column)
    requires columns != [] && last == columns[|columns| - 1] && IsIdent(last.name)
    ensures ParseEntries(Entries(columns)) == ParseEntries(Entries(columns[..|columns| - 1]))[last.name := Entry(last)]
  {
    assert Entries(columns)[..|columns| - 1] == Entries(columns[..|columns| - 1]);
    EntryIsPlain(last);
  }

  lemma {:induction false} EntriesParsed(columns: seq<Column>, name: string)
    requires OnePerName(columns) && forall c :: c in columns ==> IsIdent(c.name)
    ensures var cols := ParseEntries(Entries(columns));
            && (name in cols <==> exists c :: c in columns && c.name == name)
            && forall c :: c in columns && c.name == name ==> name in cols && cols[name] == Entry(c)
  {
    if columns != [] {
      var init, last := columns[..|columns| - 1], columns[|columns| - 1];
      assert columns == init + [last];
      EntriesParsed(init, name);
      LastEntry(columns, last);
    }
  }

  /** The entries a layout's fingerprint holds, under their names. */
  function EntryMap(columns: seq<Column>): map<string, string> {
    map name | name in Names(columns) :: Entry(Find(columns, name).value)
  }

  lemma SortedMembers(columns: seq<Column>)
    ensures forall c :: c in Sort(ByName(), columns) <==> c in columns
    ensures |Sort(ByName(), columns)| == |columns|
  {
    SortPermutes(ByName(), columns);
    assert forall c :: c in Sort(ByName(), columns) <==> c in multiset(Sort(ByName(), columns));
    assert forall c :: c in columns <==> c in multiset(columns);
    assert |multiset(Sort(ByName(), columns))| == |multiset(columns)|;
  }

  lemma SortedEntries(columns: seq<Column>)
    requires DistinctNames(columns) && forall c :: c in columns ==> IsIdent(c.name)
    ensures ParseEntries(Entries(Sort(ByName(), columns))) == EntryMap(columns)
  {
    var sorted := Sort(ByName(), columns);
    SortedMembers(columns);
    DistinctIsOnePerName(columns);
    var cols, want := ParseEntries(Entries(sorted)), EntryMap(columns);
    forall name ensures (name in cols <==> name in want) && (name in want ==> cols[name] == want[name]) {
      EntriesParsed(sorted, name);
      FindColumn(columns, name);
    }
  }

  lemma GoodNames(p: Plan)
    requires GoodPlan(p)
    ensures forall c :: c in p.columns ==> IsIdent(c.name) && ScalarUnambiguous(c)
  {
  }

  lemma IdentIsPlain(s: string)
    requires IsIdent(s)
    ensures ';' !in s
  {
  }

  lemma HeadIsPlain(p: Plan)
    requires IsIdent(p.key)
    ensures ';' !in Head(p) && ';' !in KeyPart(p)
  {
    IdentIsPlain(p.key);
    assert ';' !in "key=";
  }

  lemma KeyIsIdent(p: Plan)
    requires GoodPlan(p)
    ensures IsIdent(p.key) && p.columns != []
  {
    assert IsIdent(Column.Column(p.key, TextKind, false, false).name);
  }

  lemma PartsArePlain(p: Plan)
    requires GoodPlan(p)
    ensures forall i :: 0 <= i < |Parts(p)| ==> ';' !in Parts(p)[i]
  {
    var sorted, parts := Sort(ByName(), p.columns), Parts(p);
    GoodNames(p);
    SortedMembers(p.columns);
    KeyIsIdent(p);
    HeadIsPlain(p);
    forall i | 0 <= i < |parts| ensures ';' !in parts[i] {
      if i >= 2 {
        assert parts[i] == parts[2..][i - 2] == Entry(sorted[i - 2]) && sorted[i - 2] in sorted;
        EntryIsPlain(sorted[i - 2]);
      }
    }
  }

  /** Parsing a layout's fingerprint gives its shape, its key and its columns back, in no order. */
  lemma ParseInverts(p: Plan)
    requires GoodPlan(p)
    ensures Parse(Fingerprint(p)) == Parsed(Head(p), Some(KeyPart(p)), EntryMap(p.columns))
  {
    PartsArePlain(p);
    SplitJoin(Parts(p), ';');
    GoodNames(p);
    SortedEntries(p.columns);
    SortedMembers(p.columns);
    KeyIsIdent(p);
  }

  // ---- equal fingerprints are equal layouts ----

  lemma {:induction false} SameMembersPermute(a: seq<Column>, b: seq<Column>)
    requires DistinctNames(a) && DistinctNames(b) && forall c :: c in a <==> c in b
    ensures multiset(a) == multiset(b)
    decreases |a|
  {
    if a == [] {
      EmptyByMembers(b);
    } else {
      var c := a[0];
      assert c in b;
      var j :| 0 <= j < |b| && b[j] == c;
      forall d ensures d in Without(a, 0) <==> d in Without(b, j) {
        MembersWithout(a, 0, d);
        MembersWithout(b, j, d);
      }
      SameMembersPermute(Without(a, 0), Without(b, j));
      PutBack(a, 0);
      PutBack(b, j);
    }
  }

  lemma FirstIn(b: seq<Column>)
    ensures b == [] || b[0] in b
  {
  }

  lemma EmptyByMembers(b: seq<Column>)
    requires forall c :: c !in b
    ensures b == []
  {
    FirstIn(b);
  }

  lemma PutBack(s: seq<Column>, j: nat)
    requires j < |s|
    ensures multiset(s) == multiset(Without(s, j)) + multiset{s[j]}
  {
    assert s == s[..j] + [s[j]] + s[j + 1..];
  }

  lemma MembersWithout(s: seq<Column>, j: nat, c: Column)
    requires j < |s| && DistinctNames(s)
    ensures c in Without(s, j) <==> c in s && c != s[j]
  {
    var rest := Without(s, j);
    if c in s && c != s[j] {
      var i :| 0 <= i < |s| && s[i] == c;
      assert rest[if i < j then i else i - 1] == c;
    }
  }

  lemma SortedByName(columns: seq<Column>)
    ensures Preorder(ByName(), c => true) && Sorted(ByName(), Sort(ByName(), columns))
  {
    forall a: Column, b: Column ensures ByName()(a, b) == -ByName()(b, a) {
      TextTotal(a.name, b.name, "");
    }
    forall a: Column, b: Column, c: Column | ByName()(a, b) <= 0 && ByName()(b, c) <= 0 ensures ByName()(a, c) <= 0 {
      TextTotal(a.name, b.name, c.name);
    }
    SortSorts(ByName(), c => true, columns);
  }

  lemma SortedSame(a: seq<Column>, b: seq<Column>)
    requires DistinctNames(a) && DistinctNames(b) && forall c :: c in a <==> c in b
    ensures Sort(ByName(), a) == Sort(ByName(), b)
  {
    SameMembersPermute(a, b);
    SortedByName(a);
    SortedByName(b);
    SortPermutes(ByName(), a);
    SortPermutes(ByName(), b);
    SortedMembers(a);
    SortedMembers(b);
    DistinctIsOnePerName(a);
    var sa, sb := Sort(ByName(), a), Sort(ByName(), b);
    assert |multiset(sa)| == |multiset(sb)|;
    forall i | 0 <= i < |sa| ensures sa[i] == sb[i] {
      SortedAgree(ByName(), c => true, sa, sb, i);
      TextTotal(sa[i].name, sb[i].name, "");
      assert sa[i] in sa && sb[i] in sb;
    }
  }

  lemma HeadAndKey(p: Plan, q: Plan)
    requires Head(p) == Head(q) && KeyPart(p) == KeyPart(q)
    ensures p.degenerate == q.degenerate && p.key == q.key
  {
    assert KeyPart(p)[4..] == p.key && KeyPart(q)[4..] == q.key;
    assert |"v2"| == 2 && |"v2:degenerate"| == 13;
  }

  /** An entry is held under a name exactly when its column is in the layout. */
  lemma EntryHeld(p: Plan, c: Column)
    requires GoodPlan(p) && IsIdent(c.name)
    ensures c.name in EntryMap(p.columns) && EntryMap(p.columns)[c.name] == Entry(c) <==> c in p.columns
  {
    GoodNames(p);
    FindColumn(p.columns, c.name);
    if c in p.columns {
      FindIn(p.columns, c);
    } else if c.name in EntryMap(p.columns) && EntryMap(p.columns)[c.name] == Entry(c) {
      EntryInjective(c, Find(p.columns, c.name).value);
    }
  }

  /** Two layouts have one fingerprint exactly when they have one key, one shape and the same columns, in any order. */
  lemma SameFingerprintIff(p: Plan, q: Plan)
    requires GoodPlan(p) && GoodPlan(q)
    ensures Fingerprint(p) == Fingerprint(q) <==>
              p.key == q.key && p.degenerate == q.degenerate && forall c :: c in p.columns <==> c in q.columns
  {
    ParseInverts(p);
    ParseInverts(q);
    if Fingerprint(p) == Fingerprint(q) {
      HeadAndKey(p, q);
      GoodNames(p);
      GoodNames(q);
      forall c ensures c in p.columns <==> c in q.columns {
        if IsIdent(c.name) {
          EntryHeld(p, c);
          EntryHeld(q, c);
        }
      }
    } else if p.key == q.key && p.degenerate == q.degenerate && forall c :: c in p.columns <==> c in q.columns {
      SortedSame(p.columns, q.columns);
    }
  }

  // ---- drift ----

  datatype Verdict = ChangedShape | ChangedField(name: string) | AddedRequired(name: string) | Alter(added: seq<Column>)

  function IsNew(stored: string): Column -> bool {
    (c: Column) => c.name !in Parse(stored).cols
  }

  /** Columns the stored layout does not have. */
  function Added(p: Plan, stored: string): seq<Column> {
    Filter(p.columns, IsNew(stored))
  }

  ghost predicate KeptFields(p: Plan, stored: string) {
    var old_, next := Parse(stored).cols, Parse(Fingerprint(p)).cols;
    forall name :: name in old_ ==> name in next && next[name] == old_[name]
  }

  ghost predicate KeptShape(p: Plan, stored: string) {
    Parse(stored).head == Parse(Fingerprint(p)).head && Parse(stored).key == Parse(Fingerprint(p)).key
  }

  /** A required column on rows stored before it: nothing can fill it. */
  ghost predicate Unfillable(p: Plan, stored: string, c: Column) {
    c in p.columns && c.name !in Parse(stored).cols && !c.optional && !c.nullable
  }

  method DriftOf(p: Plan, stored: string) returns (d: Verdict)
    ensures d.ChangedShape? <==> !KeptShape(p, stored)
    ensures d.ChangedField? ==> KeptShape(p, stored) && d.name in Parse(stored).cols && !KeptFields(p, stored)
    ensures d.AddedRequired? ==>
              KeptShape(p, stored) && KeptFields(p, stored) && exists c :: Unfillable(p, stored, c) && c.name == d.name
    ensures d.Alter? <==> KeptShape(p, stored) && KeptFields(p, stored) && forall c :: !Unfillable(p, stored, c)
    ensures d.Alter? ==> d.added == Added(p, stored)
  {
    var old_ := ParseFingerprint(stored);
    var next := ParseFingerprint(Fingerprint(p));
    if old_.head != next.head || old_.key != next.key {
      return ChangedShape;
    }
    var todo := old_.cols.Keys;
    while todo != {}
      invariant todo <= old_.cols.Keys
      invariant forall name :: name in old_.cols && name !in todo ==>
                name in next.cols && next.cols[name] == old_.cols[name]
      decreases todo
    {
      var name :| name in todo;
      if name !in next.cols || next.cols[name] != old_.cols[name] {
        return ChangedField(name);
      }
      todo := todo - {name};
    }
    var added: seq<Column> := [];
    for i := 0 to |p.columns|
      invariant added == Filter(p.columns[..i], IsNew(stored))
      invariant forall c :: c in p.columns[..i] ==> !Unfillable(p, stored, c)
    {
      var c := p.columns[i];
      assert p.columns[..i + 1] == p.columns[..i] + [c];
      FilterConcat(p.columns[..i], [c], IsNew(stored));
      if c.name !in old_.cols {
        if !c.optional && !c.nullable {
          assert Unfillable(p, stored, c);
          return AddedRequired(c.name);
        }
        added := added + [c];
      }
    }
    assert p.columns[..|p.columns|] == p.columns;
    return Alter(added);
  }

  /** A layout that only adds columns that may be absent or null. */
  ghost predicate Extends(old_: Plan, next: Plan) {
    && old_.key == next.key && old_.degenerate == next.degenerate
    && (forall c :: c in old_.columns ==> c in next.columns)
    && forall c :: c in next.columns && c !in old_.columns ==> c.optional || c.nullable
  }

  lemma NameIsOld(old_: Plan, next: Plan, c: Column)
    requires GoodPlan(old_) && GoodPlan(next) && (forall d :: d in old_.columns ==> d in next.columns)
    requires c in next.columns
    ensures c.name in EntryMap(old_.columns) <==> c in old_.columns
  {
    FindColumn(old_.columns, c.name);
    if Find(old_.columns, c.name).Some? {
      FindIn(next.columns, Find(old_.columns, c.name).value);
      FindIn(next.columns, c);
    }
  }

  lemma KeptFieldsIff(old_: Plan, next: Plan)
    requires GoodPlan(old_) && GoodPlan(next)
    ensures KeptFields(next, Fingerprint(old_)) <==> forall c :: c in old_.columns ==> c in next.columns
  {
    ParseInverts(old_);
    ParseInverts(next);
    GoodNames(old_);
    forall c | c in old_.columns && KeptFields(next, Fingerprint(old_)) ensures c in next.columns {
      EntryHeld(old_, c);
      EntryHeld(next, c);
    }
    forall name | name in EntryMap(old_.columns) && forall c :: c in old_.columns ==> c in next.columns
      ensures name in EntryMap(next.columns) && EntryMap(next.columns)[name] == EntryMap(old_.columns)[name]
    {
      FindColumn(old_.columns, name);
      EntryHeld(next, Find(old_.columns, name).value);
    }
  }

  lemma AddedAreNew(old_: Plan, next: Plan)
    requires GoodPlan(old_) && GoodPlan(next) && forall c :: c in old_.columns ==> c in next.columns
    ensures forall c :: c in Added(next, Fingerprint(old_)) <==> c in next.columns && c !in old_.columns
    ensures forall c ::
              Unfillable(next, Fingerprint(old_), c) <==>
              c in next.columns && c !in old_.columns && !c.optional && !c.nullable
  {
    ParseInverts(old_);
    forall c | c in next.columns ensures c.name in Parse(Fingerprint(old_)).cols <==> c in old_.columns {
      NameIsOld(old_, next, c);
    }
    FilterMembers(next.columns, IsNew(Fingerprint(old_)));
  }

  lemma KeptShapeIff(old_: Plan, next: Plan)
    requires GoodPlan(old_) && GoodPlan(next)
    ensures KeptShape(next, Fingerprint(old_)) <==> old_.key == next.key && old_.degenerate == next.degenerate
  {
    ParseInverts(old_);
    ParseInverts(next);
    if KeptShape(next, Fingerprint(old_)) {
      HeadAndKey(old_, next);
    }
  }

  /** Drift is let through exactly where the layout extends the stored one. */
  lemma DriftIff(old_: Plan, next: Plan)
    requires GoodPlan(old_) && GoodPlan(next)
    ensures var stored := Fingerprint(old_);
            KeptShape(next, stored) && KeptFields(next, stored) && (forall c :: !Unfillable(next, stored, c))
            <==> Extends(old_, next)
  {
    KeptShapeIff(old_, next);
    KeptFieldsIff(old_, next);
    if forall c :: c in old_.columns ==> c in next.columns {
      AddedAreNew(old_, next);
    }
  }

  // ---- altering a table ----

  /** What `ADD COLUMN` puts in rows already there: null, but JSON null where a field may not be absent. */
  function Default(c: Column): Cell {
    if c.kind == JsonKind && !c.optional then JsonCell(Leaf(Null)) else NullCell
  }

  function AddColumns(added: seq<Column>, db: DbRow): DbRow {
    if added == [] then db
      else AddColumns(added[..|added| - 1], db)[added[|added| - 1].name := Default(added[|added| - 1])]
  }

  /** A field of a row stored before its layout was extended: as it was, or for an added one absent or null. */
  function WidenedField(old_: Plan, next: Plan, row: Json, name: string): Field {
    var c := Find(next.columns, name);
    if c.None? then None
    else if c.value in old_.columns then Own(row, name)
    else if c.value.optional then None
    else Some(Leaf(Null))
  }

  function Widened(old_: Plan, next: Plan, row: Json): Json {
    if next.degenerate then row
    else Obj(map name | name in Names(next.columns) && WidenedField(old_, next, row, name).Some? ::
      WidenedField(old_, next, row, name).value)
  }

  lemma WidenedReads(old_: Plan, next: Plan, row: Json, name: string)
    requires !next.degenerate
    ensures Own(Widened(old_, next, row), name) == WidenedField(old_, next, row, name)
  {
  }

  lemma {:induction false} AddedCell(added: seq<Column>, db: DbRow, name: string)
    requires OnePerName(added)
    ensures name in AddColumns(added, db) <==> name in db || exists c :: c in added && c.name == name
    ensures forall c :: c in added && c.name == name ==>
              name in AddColumns(added, db) && AddColumns(added, db)[name] == Default(c)
    ensures (forall c :: c in added ==> c.name != name) && name in db ==> AddColumns(added, db)[name] == db[name]
  {
    if added != [] {
      var init, last := added[..|added| - 1], added[|added| - 1];
      assert added == init + [last];
      AddedCell(init, db, name);
    }
  }

  /** Where one layout extends another, the altered row is the widened row as the new layout stores it. */
  lemma AlteredCell(old_: Plan, next: Plan, id: string, row: Json, added: seq<Column>, name: string)
    requires Stores(old_, id, row) && GoodPlan(next) && Extends(old_, next) && !next.degenerate
    requires OnePerName(added) && forall c :: c in added <==> c in next.columns && c !in old_.columns
    ensures var altered := AddColumns(added, StoredRow(old_, id, row));
            var want := StoredRow(next, id, Widened(old_, next, row));
            (name in altered <==> name in want) && (name in want ==> altered[name] == want[name])
  {
    AddedCell(added, StoredRow(old_, id, row), name);
    WidenedReads(old_, next, row, name);
    FindColumn(next.columns, name);
    FindColumn(old_.columns, name);
    if Find(old_.columns, name).Some? {
      FindIn(next.columns, Find(old_.columns, name).value);
    }
    if Find(next.columns, name).Some? {
      var c := Find(next.columns, name).value;
      if c in old_.columns {
        FindIn(old_.columns, c);
      }
      FindIn(old_.columns, Column.Column(old_.key, TextKind, false, false));
      forall d | d in added && d.name == name ensures d == c {
        FindIn(next.columns, d);
      }
    }
  }

  lemma WidenedFits(old_: Plan, next: Plan, id: string, row: Json)
    requires Stores(old_, id, row) && GoodPlan(next) && Extends(old_, next) && !next.degenerate
    ensures Stores(next, id, Widened(old_, next, row))
  {
    var wide := Widened(old_, next, row);
    forall c | c in next.columns ensures FitsColumn(c, Own(wide, c.name)) {
      FindIn(next.columns, c);
      WidenedReads(old_, next, row, c.name);
    }
    var key := Column.Column(old_.key, TextKind, false, false);
    FindIn(next.columns, key);
    WidenedReads(old_, next, row, next.key);
  }

  lemma DegenerateAlike(old_: Plan, next: Plan)
    requires GoodPlan(old_) && GoodPlan(next) && Extends(old_, next) && next.degenerate
    ensures old_ == next
  {
  }

  lemma AlteredRow(old_: Plan, next: Plan, id: string, row: Json, added: seq<Column>)
    requires Stores(old_, id, row) && GoodPlan(next) && Extends(old_, next) && !next.degenerate
    requires OnePerName(added) && forall c :: c in added <==> c in next.columns && c !in old_.columns
    ensures AddColumns(added, StoredRow(old_, id, row)) == StoredRow(next, id, Widened(old_, next, row))
  {
    var altered, want := AddColumns(added, StoredRow(old_, id, row)), StoredRow(next, id, Widened(old_, next, row));
    forall name ensures (name in altered <==> name in want) && (name in want ==> altered[name] == want[name]) {
      AlteredCell(old_, next, id, row, added, name);
    }
  }

  /**
   * Drift is safe. Where the check lets a layout through, altering a stored row gives the row the new layout would have
   * stored for it with every old field as it was and every added one absent or null, and it reads back as that.
   */
  lemma AlterKeepsRows(old_: Plan, next: Plan, id: string, row: Json)
    requires Stores(old_, id, row) && GoodPlan(next) && Extends(old_, next)
    ensures AddColumns(Added(next, Fingerprint(old_)), StoredRow(old_, id, row)) ==
              StoredRow(next, id, Widened(old_, next, row))
    ensures Stores(next, id, Widened(old_, next, row))
    ensures FromRow(next, AddColumns(Added(next, Fingerprint(old_)), StoredRow(old_, id, row))) ==
              Widened(old_, next, row)
  {
    var added := Added(next, Fingerprint(old_));
    AddedAreNew(old_, next);
    if next.degenerate {
      DegenerateAlike(old_, next);
      EmptyByMembers(added);
    } else {
      DistinctIsOnePerName(next.columns);
      AlteredRow(old_, next, id, row, added);
      WidenedFits(old_, next, id, row);
    }
    RowRoundTrip(next, id, Widened(old_, next, row));
  }

  // ---- boot ----

  function Adding(added: seq<Column>): DbRow -> DbRow {
    db => AddColumns(added, db)
  }

  function Widening(old_: Plan, next: Plan): Json -> Json {
    row => Widened(old_, next, row)
  }

  /** A table that holds `rows` under a layout. */
  ghost predicate Holds(p: Plan, table: seq<DbRow>, rows: seq<Json>) {
    AllFit(p, rows) && table == Mapped(rows, Storing(p))
  }

  lemma WidenedStores(old_: Plan, next: Plan, row: Json)
    requires Fits(old_, row) && GoodPlan(next) && Extends(old_, next)
    ensures Fits(next, Widened(old_, next, row))
    ensures Adding(Added(next, Fingerprint(old_)))(Storing(old_)(row)) == Storing(next)(Widened(old_, next, row))
  {
    AlterKeepsRows(old_, next, IdOf(old_, row), row);
    assert KeyedBy(next, IdOf(old_, row), Widened(old_, next, row));
  }

  /** Altering a whole table keeps every row, widened, in a layout the compiler's results then hold of. */
  lemma AlterKeepsTable(old_: Plan, next: Plan, table: seq<DbRow>, rows: seq<Json>)
    requires Holds(old_, table, rows) && GoodPlan(next) && Extends(old_, next)
    ensures Holds(next, Mapped(table, Adding(Added(next, Fingerprint(old_)))), Mapped(rows, Widening(old_, next)))
  {
    var wide := Mapped(rows, Widening(old_, next));
    var altered := Mapped(table, Adding(Added(next, Fingerprint(old_))));
    forall i | 0 <= i < |rows| ensures Fits(next, wide[i]) && altered[i] == Storing(next)(wide[i]) {
      assert Fits(old_, rows[i]);
      WidenedStores(old_, next, rows[i]);
    }
    assert altered == Mapped(wide, Storing(next));
  }

  ghost predicate Alterable(p: Plan, stored: string) {
    KeptShape(p, stored) && KeptFields(p, stored) && forall c :: !Unfillable(p, stored, c)
  }

  function AddingOne(c: Column): DbRow -> DbRow {
    db => db[c.name := Default(c)]
  }

  lemma AddOne(rows: seq<DbRow>, added: seq<Column>, i: nat)
    requires i < |added|
    ensures Mapped(Mapped(rows, Adding(added[..i])), AddingOne(added[i])) == Mapped(rows, Adding(added[..i + 1]))
  {
    assert added[..i + 1][..i] == added[..i];
  }

  /** The tables and, by collection, the fingerprint each was last laid out by. */
  class Database {
    var meta: map<string, string>
    var tables: map<string, seq<DbRow>>

    /** The columns a boot adds to a collection's table. */
    function Pending(n: string, p: Plan): seq<Column>
      reads this
    {
      if n in meta then Added(p, meta[n]) else []
    }

    /** One `ADD COLUMN` after another. */
    method RunAlters(n: string, added: seq<Column>)
      requires n in tables
      modifies this`tables
      ensures tables == old(tables)[n := Mapped(old(tables)[n], Adding(added))]
    {
      ghost var was, rows := tables, tables[n];
      assert Mapped(rows, Adding(added[..0])) == rows;
      for i := 0 to |added|
        invariant tables == was[n := Mapped(rows, Adding(added[..i]))]
      {
        var c := added[i];
        AddOne(rows, added, i);
        tables := tables[n := Mapped(tables[n], AddingOne(c))];
      }
      assert added[..|added|] == added;
    }

    /** Boot of one collection: first seen, unchanged, extended, or refused with nothing changed. */
    method Reconcile(n: string, p: Plan) returns (refused: Option<Verdict>)
      requires n in tables && GoodPlan(p)
      modifies this
      ensures refused.Some? <==> n in old(meta) && !Alterable(p, old(meta)[n])
      ensures refused.Some? ==> meta == old(meta) && tables == old(tables) && !refused.value.Alter?
      ensures refused.None? ==> meta == old(meta)[n := Fingerprint(p)]
      ensures refused.None? ==> tables == old(tables)[n := Mapped(old(tables)[n], Adding(old(Pending(n, p))))]
    {
      assert Mapped(tables[n], Adding([])) == tables[n];
      if n !in meta {
        meta := meta[n := Fingerprint(p)];
        return None;
      }
      if meta[n] == Fingerprint(p) {
        Unchanged(p);
        return None;
      }
      var drift := DriftOf(p, meta[n]);
      if !drift.Alter? {
        return Some(drift);
      }
      RunAlters(n, drift.added);
      meta := meta[n := Fingerprint(p)];
      return None;
    }
  }

  /** An unchanged layout adds nothing and is never refused. */
  lemma Unchanged(p: Plan)
    requires GoodPlan(p)
    ensures Added(p, Fingerprint(p)) == [] && Alterable(p, Fingerprint(p))
  {
    DriftIff(p, p);
    AddedAreNew(p, p);
    EmptyByMembers(Added(p, Fingerprint(p)));
  }
}
