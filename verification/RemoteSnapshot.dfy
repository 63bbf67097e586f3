/** Snapshots of remote rows: reading one pinned store, and stopping early, answers as reading everything would. */
module RemoteSnapshot {
  import opened Options
  import opened Patterns
  import opened Sorting
  import opened RemoteData
  import opened Query
  import opened RemoteKeys

  // ---- the source's side ----

  datatype RemoteRow = RemoteRow(key: Key, data: Data)

  /** A table as its source lists it; rows of a table that is not `keyed` have no single id. */
  datatype Listed = Listed(name: string, keyed: bool, rows: seq<RemoteRow>)

  ghost predicate WellListed(listing: seq<Listed>) {
    && (forall i, j :: 0 <= i < j < |listing| ==> listing[i].name != listing[j].name)
    && forall i, r :: 0 <= i < |listing| && r in listing[i].rows ==> r.key.table == listing[i].name
  }

  predicate Asked(t: Listed, table: Option<string>) {
    t.keyed && (table.None? || t.name == table.value)
  }

  /** Every row of the asked table, or of every table. */
  function ListedRows(listing: seq<Listed>, table: Option<string>): seq<RemoteRow> {
    if listing == [] then []
    else
      var last := listing[|listing| - 1];
      ListedRows(listing[..|listing| - 1], table) + if Asked(last, table) then last.rows else []
  }

  /** What is listed: of one table its rows, where it has ids and is asked for, and of tables one after another. */
  lemma {:induction false} ListedParts(a: seq<Listed>, t: Listed, b: seq<Listed>, table: Option<string>)
    ensures ListedRows(a + b, table) == ListedRows(a, table) + ListedRows(b, table)
    ensures ListedRows([t], table) == if t.keyed && (table == None || table == Some(t.name)) then t.rows else []
    decreases |b|
  {
    assert [t][..0] == [] && [] + t.rows == t.rows;
    if b == [] {
      assert a + b == a;
    } else {
      var init, last := b[..|b| - 1], b[|b| - 1];
      assert (a + b)[..|a + b| - 1] == a + init;
      ListedParts(a, t, init, table);
      var rows := if Asked(last, table) then last.rows else [];
      assert ListedRows(a, table) + ListedRows(init, table) + rows ==
        ListedRows(a, table) + (ListedRows(init, table) + rows);
    }
  }

  function First<T>(s: seq<T>, n: nat): seq<T> {
    s[..Min(n, |s|)]
  }

  /** The source's loop: table after table until the limit is reached. */
  method SourceSnapshot(listing: seq<Listed>, table: Option<string>, limit: nat) returns (out: seq<RemoteRow>)
    ensures out == First(ListedRows(listing, table), limit)
  {
    out := [];
    for i := 0 to |listing|
      invariant out == First(ListedRows(listing[..i], table), limit)
    {
      var t := listing[i];
      assert listing[..i + 1][..i] == listing[..i];
      ghost var before := ListedRows(listing[..i], table);
      if Asked(t, table) && |out| < limit {
        var room := limit - |out|;
        assert First(before + t.rows, limit) == before + First(t.rows, room);
        out := out + First(t.rows, room);
      } else if Asked(t, table) {
        assert First(before + t.rows, limit) == First(before, limit);
      }
    }
    assert listing[..|listing|] == listing;
  }

  // ---- pins ----

  /** The conjuncts of nested `and`s. */
  function Conjuncts(e: Expr): seq<Expr>
    decreases e, 0
  {
    if e.And? then ConjunctsOf(e.args) else [e]
  }

  function ConjunctsOf(args: seq<Expr>): seq<Expr>
    decreases args, 1
  {
    if args == [] then [] else ConjunctsOf(args[..|args| - 1]) + Conjuncts(args[|args| - 1])
  }

  function Parts(filter: Option<Expr>): seq<Expr> {
    if filter.None? then [] else Conjuncts(filter.value)
  }

  ghost predicate AllHold(fold: CaseFold, parts: seq<Expr>, row: Json) {
    forall e :: e in parts ==> Eval(fold, e, row)
  }

  lemma {:induction false} ConjunctsMean(fold: CaseFold, e: Expr, row: Json)
    ensures Eval(fold, e, row) <==> AllHold(fold, Conjuncts(e), row)
    decreases e, 0
  {
    if e.And? {
      ConjunctsOfMean(fold, e.args, row);
    } else {
      assert e in Conjuncts(e);
    }
  }

  lemma {:induction false} ConjunctsOfMean(fold: CaseFold, args: seq<Expr>, row: Json)
    ensures (forall a :: a in args ==> Eval(fold, a, row)) <==> AllHold(fold, ConjunctsOf(args), row)
    decreases args, 1
  {
    if args != [] {
      var init, last := args[..|args| - 1], args[|args| - 1];
      assert args == init + [last];
      ConjunctsOfMean(fold, init, row);
      ConjunctsMean(fold, last, row);
      assert (forall a :: a in args ==> Eval(fold, a, row))
        <==> Eval(fold, last, row) && forall a :: a in init ==> Eval(fold, a, row);
    }
  }

  lemma {:induction false} ConjunctsFlat(e: Expr)
    ensures forall c :: c in Conjuncts(e) ==> !c.And?
    decreases e, 0
  {
    if e.And? {
      ConjunctsOfFlat(e.args);
    }
  }

  lemma {:induction false} ConjunctsOfFlat(args: seq<Expr>)
    ensures forall c :: c in ConjunctsOf(args) ==> !c.And?
    decreases args, 1
  {
    if args != [] {
      ConjunctsOfFlat(args[..|args| - 1]);
      ConjunctsFlat(args[|args| - 1]);
    }
  }

  /** A filter is the conjunction of its parts, however its `and`s are nested. */
  lemma PartsMean(fold: CaseFold, filter: Option<Expr>, row: Json)
    ensures MatchesFilter(fold, filter, row) <==> AllHold(fold, Parts(filter), row)
    ensures forall c :: c in Parts(filter) ==> !c.And?
  {
    if filter.Some? {
      ConjunctsMean(fold, filter.value, row);
      ConjunctsFlat(filter.value);
    }
  }

  /** The value the first equality on a field asks for. */
  function PinOf(parts: seq<Expr>, field: string): Option<Scalar> {
    if parts == [] then None
    else if parts[0].Eq? && parts[0].field == field then Some(parts[0].value)
    else PinOf(parts[1..], field)
  }

  lemma {:induction false} PinIsPart(parts: seq<Expr>, field: string)
    ensures match PinOf(parts, field)
            case Some(v) => Eq(field, v) in parts
            case None => forall e :: e in parts && e.Eq? ==> e.field != field
  {
    if parts != [] {
      PinIsPart(parts[1..], field);
    }
  }

  ghost predicate FirstPin(parts: seq<Expr>, field: string, i: nat) {
    && i < |parts| && parts[i].Eq? && parts[i].field == field
    && forall j :: 0 <= j < i && parts[j].Eq? ==> parts[j].field != field
  }

  /** The value of the first equality on a field. */
  method FindPin(parts: seq<Expr>, field: string) returns (v: Option<Scalar>)
    ensures v == PinOf(parts, field)
    ensures v.None? <==> forall e :: e in parts && e.Eq? ==> e.field != field
    ensures v.Some? ==> exists i :: 0 <= i < |parts| && FirstPin(parts, field, i) && v.value == parts[i].value
  {
    PinIsPart(parts, field);
    for i := 0 to |parts|
      invariant PinOf(parts, field) == PinOf(parts[i..], field)
      invariant forall j :: 0 <= j < i && parts[j].Eq? ==> parts[j].field != field
    {
      assert parts[i..][1..] == parts[i + 1..];
      if parts[i].Eq? && parts[i].field == field {
        assert FirstPin(parts, field, i);
        return Some(parts[i].value);
      }
    }
    return None;
  }

  predicate IsPin(e: Expr) {
    e.Eq? && (e.field == STORE_ID || e.field == TABLE)
  }

  /** A pinned store by name, and a pinned table, if any, by name. */
  predicate Pinned(filter: Option<Expr>) {
    var store, table := PinOf(Parts(filter), STORE_ID), PinOf(Parts(filter), TABLE);
    store.Some? && store.value.Text? && (table.Some? ==> table.value.Text?)
  }

  function StoreOf(filter: Option<Expr>): string
    requires Pinned(filter)
  {
    PinOf(Parts(filter), STORE_ID).value.s
  }

  function TableOf(filter: Option<Expr>): Option<string>
    requires Pinned(filter)
  {
    var table := PinOf(Parts(filter), TABLE);
    if table.Some? then Some(table.value.s) else None
  }

  // ---- the rows of every store ----

  type Sources = map<string, seq<Listed>>

  function Shown(storeId: string): RemoteRow -> Json {
    (r: RemoteRow) => RowOf(storeId, r.key, r.data)
  }

  function ListingOf(sources: Sources, storeId: string): seq<Listed> {
    if storeId in sources then sources[storeId] else []
  }

  function RowsRead(sources: Sources, storeId: string, table: Option<string>): seq<Json> {
    Mapped(ListedRows(ListingOf(sources, storeId), table), Shown(storeId))
  }

  /** All rows of all stores, stores in any order. */
  function AllRows(sources: Sources, order: seq<string>): seq<Json> {
    if order == [] then []
    else AllRows(sources, order[..|order| - 1]) + RowsRead(sources, order[|order| - 1], None)
  }

  ghost predicate WellOrdered(sources: Sources, order: seq<string>) {
    && (forall s :: s in order <==> s in sources)
    && forall i, j :: 0 <= i < j < |order| ==> order[i] != order[j]
  }

  // ---- the pins decide where matching rows are ----

  /** A pin asks for the row's own store or table by name. */
  lemma PinMeans(fold: CaseFold, storeId: string, r: RemoteRow, e: Expr)
    requires IsPin(e)
    ensures Eval(fold, e, Shown(storeId)(r))
            <==> e.value == Scalar.Text(if e.field == STORE_ID then storeId else r.key.table)
  {
    ReadsFixed(storeId, r.key, r.data);
  }

  lemma OffPin(fold: CaseFold, filter: Option<Expr>, storeId: string, r: RemoteRow)
    requires Pinned(filter)
    requires storeId != StoreOf(filter) || (TableOf(filter).Some? && r.key.table != TableOf(filter).value)
    ensures !Passes(fold, filter)(Shown(storeId)(r))
  {
    var row := Shown(storeId)(r);
    PinIsPart(Parts(filter), STORE_ID);
    PinIsPart(Parts(filter), TABLE);
    PartsMean(fold, filter, row);
    var e := if storeId != StoreOf(filter) then Eq(STORE_ID, PinOf(Parts(filter), STORE_ID).value)
             else Eq(TABLE, PinOf(Parts(filter), TABLE).value);
    PinMeans(fold, storeId, r, e);
    assert e in Parts(filter);
  }

  lemma OffPinRows(fold: CaseFold, filter: Option<Expr>, storeId: string, rows: seq<RemoteRow>)
    requires Pinned(filter)
    requires storeId != StoreOf(filter) || forall r :: r in rows ==>
              TableOf(filter).Some? && r.key.table != TableOf(filter).value
    ensures Filter(Mapped(rows, Shown(storeId)), Passes(fold, filter)) == []
  {
    var shown := Mapped(rows, Shown(storeId));
    forall i | 0 <= i < |rows| ensures !Passes(fold, filter)(shown[i]) {
      assert rows[i] in rows;
      OffPin(fold, filter, storeId, rows[i]);
    }
    FilterNone(shown, Passes(fold, filter));
  }

  lemma MappedConcat<T, U>(a: seq<T>, b: seq<T>, f: T -> U)
    ensures Mapped(a + b, f) == Mapped(a, f) + Mapped(b, f)
  {
  }

  /** Within the pinned store, only the pinned table's rows can match. */
  lemma {:induction false} TablePinNarrows(fold: CaseFold, filter: Option<Expr>, listing: seq<Listed>)
    requires Pinned(filter) && WellListed(listing)
    ensures Filter(Mapped(ListedRows(listing, None), Shown(StoreOf(filter))), Passes(fold, filter)) ==
            Filter(Mapped(ListedRows(listing, TableOf(filter)), Shown(StoreOf(filter))), Passes(fold, filter))
  {
    if listing != [] {
      var init, last := listing[..|listing| - 1], listing[|listing| - 1];
      TablePinNarrows(fold, filter, init);
      LastTable(fold, filter, init, last, None);
      LastTable(fold, filter, init, last, TableOf(filter));
      if last.keyed && !Asked(last, TableOf(filter)) {
        OffPinRows(fold, filter, StoreOf(filter), last.rows);
      }
    }
  }

  lemma LastTable(fold: CaseFold, filter: Option<Expr>, init: seq<Listed>, last: Listed, table: Option<string>)
    requires Pinned(filter)
    ensures Filter(Mapped(ListedRows(init + [last], table), Shown(StoreOf(filter))), Passes(fold, filter)) ==
            Filter(Mapped(ListedRows(init, table), Shown(StoreOf(filter))), Passes(fold, filter)) +
            if Asked(last, table) then Filter(Mapped(last.rows, Shown(StoreOf(filter))), Passes(fold, filter)) else []
  {
    assert (init + [last])[..|init|] == init;
    var before, rows := ListedRows(init, table), if Asked(last, table) then last.rows else [];
    MappedConcat(before, rows, Shown(StoreOf(filter)));
    FilterConcat(Mapped(before, Shown(StoreOf(filter))), Mapped(rows, Shown(StoreOf(filter))), Passes(fold, filter));
  }

  /** Of all stores' rows, only the pinned store's can match. */
  lemma {:induction false} StorePinNarrows(fold: CaseFold, filter: Option<Expr>, sources: Sources, order: seq<string>)
    requires Pinned(filter) && forall i, j :: 0 <= i < j < |order| ==> order[i] != order[j]
    ensures Filter(AllRows(sources, order), Passes(fold, filter)) ==
            if StoreOf(filter) in order then Filter(RowsRead(sources, StoreOf(filter), None), Passes(fold, filter))
              else []
  {
    if order != [] {
      var init, last := order[..|order| - 1], order[|order| - 1];
      StorePinNarrows(fold, filter, sources, init);
      FilterConcat(AllRows(sources, init), RowsRead(sources, last, None), Passes(fold, filter));
      assert order == init + [last];
      if last != StoreOf(filter) {
        OffPinRows(fold, filter, last, ListedRows(ListingOf(sources, last), None));
      }
    }
  }

  /** What the pins leave unread could not have matched. */
  lemma PinsNarrow(fold: CaseFold, filter: Option<Expr>, sources: Sources, order: seq<string>)
    requires Pinned(filter) && WellOrdered(sources, order) && forall s :: s in sources ==> WellListed(sources[s])
    ensures Filter(AllRows(sources, order), Passes(fold, filter)) ==
            Filter(RowsRead(sources, StoreOf(filter), TableOf(filter)), Passes(fold, filter))
  {
    StorePinNarrows(fold, filter, sources, order);
    TablePinNarrows(fold, filter, ListingOf(sources, StoreOf(filter)));
  }

  // ---- stopping early ----

  /** Only a query the pins alone decide can stop reading at its own window. */
  predicate StopsEarly(q: Query) {
    q.orderBy == [] && (forall e :: e in Parts(q.filter) ==> IsPin(e)) && q.limit.Some?
  }

  function OffsetOf(q: Query): nat {
    if q.offset.Some? then q.offset.value else 0
  }

  function ReadLimit(q: Query, snapshotLimit: nat): nat {
    if StopsEarly(q) then Min(snapshotLimit, OffsetOf(q) + q.limit.value) else snapshotLimit
  }

  /** Pins treat all rows of one store and table alike. */
  lemma PinsUniform(fold: CaseFold, filter: Option<Expr>, a: RemoteRow, b: RemoteRow)
    requires Pinned(filter) && forall e :: e in Parts(filter) ==> IsPin(e)
    requires TableOf(filter).Some? ==> a.key.table == b.key.table
    ensures Passes(fold, filter)(Shown(StoreOf(filter))(a)) == Passes(fold, filter)(Shown(StoreOf(filter))(b))
  {
    var s := StoreOf(filter);
    PartsMean(fold, filter, Shown(s)(a));
    PartsMean(fold, filter, Shown(s)(b));
    PinIsPart(Parts(filter), TABLE);
    forall e | e in Parts(filter) ensures Eval(fold, e, Shown(s)(a)) == Eval(fold, e, Shown(s)(b)) {
      PinMeans(fold, s, a, e);
      PinMeans(fold, s, b, e);
    }
  }

  lemma {:induction false} TableRows(listing: seq<Listed>, table: string)
    requires WellListed(listing)
    ensures forall r :: r in ListedRows(listing, Some(table)) ==> r.key.table == table
  {
    if listing != [] {
      TableRows(listing[..|listing| - 1], table);
    }
  }

  lemma FirstMapped<T, U>(s: seq<T>, n: nat, f: T -> U)
    ensures Mapped(First(s, n), f) == First(Mapped(s, f), n)
  {
  }

  lemma FirstWindow<T>(s: seq<T>, n: nat, offset: nat, limit: nat)
    requires n >= |s| || n == offset + limit
    ensures Window(First(s, n), offset, Some(limit)) == Window(s, offset, Some(limit))
  {
    if n >= |s| {
      FirstAll(s, n);
    } else {
      assert |First(s, n)| == n;
      assert First(s, n)[offset..n] == s[offset..n];
    }
  }

  /** A uniform filter keeps the whole of a sequence or nothing, of any prefix alike. */
  lemma WindowOfFirst(fold: CaseFold, rows: seq<Json>, q: Query, n: nat)
    requires q.orderBy == [] && q.limit.Some? && (n >= |rows| || n == OffsetOf(q) + q.limit.value)
    requires forall i, j :: 0 <= i < |rows| && 0 <= j < |rows| ==>
              Passes(fold, q.filter)(rows[i]) == Passes(fold, q.filter)(rows[j])
    ensures ApplyQuery(fold, First(rows, n), q) == ApplyQuery(fold, rows, q)
  {
    var p, head := Passes(fold, q.filter), First(rows, n);
    if rows != [] && p(rows[0]) {
      FilterAll(rows, p);
      FilterAll(head, p);
      FirstWindow(rows, n, OffsetOf(q), q.limit.value);
    } else {
      FilterNone(rows, p);
      FilterNone(head, p);
    }
  }

  /**
   * The rows the query needs are within what one read may return: all of its rows, or, unsorted and with nothing but
   * pins in its filter, those its window ends at.
   */
  ghost predicate FitsLimit(sources: Sources, q: Query, snapshotLimit: nat)
    requires Pinned(q.filter)
  {
    || |ListedRows(ListingOf(sources, StoreOf(q.filter)), TableOf(q.filter))| <= snapshotLimit
    || (q.orderBy == [] && q.limit.Some?
        && (if q.offset.Some? then q.offset.value else 0) + q.limit.value <= snapshotLimit
        && forall e :: e in Parts(q.filter) ==> e.Eq? && (e.field == STORE_ID || e.field == TABLE))
  }

  lemma ReadUniform(fold: CaseFold, sources: Sources, filter: Option<Expr>, i: nat, j: nat)
    requires Pinned(filter) && WellListed(ListingOf(sources, StoreOf(filter)))
    requires forall e :: e in Parts(filter) ==> IsPin(e)
    requires i < |RowsRead(sources, StoreOf(filter), TableOf(filter))|
    requires j < |RowsRead(sources, StoreOf(filter), TableOf(filter))|
    ensures var rows := RowsRead(sources, StoreOf(filter), TableOf(filter));
            Passes(fold, filter)(rows[i]) == Passes(fold, filter)(rows[j])
  {
    var listed := ListedRows(ListingOf(sources, StoreOf(filter)), TableOf(filter));
    if TableOf(filter).Some? {
      TableRows(ListingOf(sources, StoreOf(filter)), TableOf(filter).value);
      assert listed[i] in listed && listed[j] in listed;
    }
    PinsUniform(fold, filter, listed[i], listed[j]);
  }

  lemma FirstAll<T>(s: seq<T>, n: nat)
    requires |s| <= n
    ensures First(s, n) == s
  {
  }

  lemma ReadAnswers(fold: CaseFold, sources: Sources, q: Query, snapshotLimit: nat)
    requires Pinned(q.filter) && WellListed(ListingOf(sources, StoreOf(q.filter)))
    requires FitsLimit(sources, q, snapshotLimit)
    ensures var rows := RowsRead(sources, StoreOf(q.filter), TableOf(q.filter));
            ApplyQuery(fold, First(rows, ReadLimit(q, snapshotLimit)), q) == ApplyQuery(fold, rows, q)
  {
    var rows := RowsRead(sources, StoreOf(q.filter), TableOf(q.filter));
    if StopsEarly(q) {
      forall i, j | 0 <= i < |rows| && 0 <= j < |rows|
        ensures Passes(fold, q.filter)(rows[i]) == Passes(fold, q.filter)(rows[j])
      {
        ReadUniform(fold, sources, q.filter, i, j);
      }
      WindowOfFirst(fold, rows, q, ReadLimit(q, snapshotLimit));
    } else {
      FirstAll(rows, ReadLimit(q, snapshotLimit));
    }
  }

  /**
   * What a snapshot is to give: the evaluator's answer on all rows of all stores, where what it needs fits one read.
   */
  ghost predicate Gives(fold: CaseFold, sources: Sources, order: seq<string>, q: Query, snapshotLimit: nat,
                        r: Option<seq<Json>>) {
    && (r.Some? <==> Pinned(q.filter))
    && (r.Some? && FitsLimit(sources, q, snapshotLimit) ==> r.value == ApplyQuery(fold, AllRows(sources, order), q))
  }

  /**
   * A snapshot through one source. `None` is a validation error, exactly where the filter does not pin a store, or pins
   * a table, by name. Where the rows the query needs fit one read, the answer is the evaluator's on all rows of all
   * stores, contradictory and nested pins included.
   */
  method Snapshot(fold: CaseFold, sources: Sources, ghost order: seq<string>, q: Query,
                  snapshotLimit: nat) returns (r: Option<seq<Json>>)
    requires WellOrdered(sources, order) && forall s :: s in sources ==> WellListed(sources[s])
    ensures Gives(fold, sources, order, q, snapshotLimit, r)
  {
    var parts := Parts(q.filter);
    var store := FindPin(parts, STORE_ID);
    var table := FindPin(parts, TABLE);
    if store.None? || !store.value.Text? || (table.Some? && !table.value.Text?) {
      return None;
    }
    var storeId := store.value.s;
    var only := if table.Some? then Some(table.value.s) else None;
    var read := SourceSnapshot(ListingOf(sources, storeId), only, ReadLimit(q, snapshotLimit));
    var rows := Mapped(read, Shown(storeId));
    r := Some(ApplyQuery(fold, rows, q));
    if FitsLimit(sources, q, snapshotLimit) {
      FirstMapped(ListedRows(ListingOf(sources, storeId), only), ReadLimit(q, snapshotLimit), Shown(storeId));
      ReadAnswers(fold, sources, q, snapshotLimit);
      PinsNarrow(fold, q.filter, sources, order);
      SameAnswer(fold, RowsRead(sources, storeId, only), AllRows(sources, order), q);
    }
  }

  // ---- one row by key ----

  /** A listed row of a store, under its key. */
  ghost predicate Keyed(sources: Sources, storeId: string, row: RemoteRow, key: string) {
    storeId in sources && row in ListedRows(sources[storeId], None) && KeyOf(storeId, row.key.table, row.key.id) == key
  }

  ghost predicate PlainNames(sources: Sources) {
    forall s :: s in sources ==> ':' !in s && forall t :: t in sources[s] ==> ':' !in t.name
  }

  lemma {:induction false} ListedByTable(listing: seq<Listed>, row: RemoteRow)
    requires WellListed(listing)
    ensures row in ListedRows(listing, None) <==> row in ListedRows(listing, Some(row.key.table))
    ensures row in ListedRows(listing, None) ==> exists t :: t in listing && t.name == row.key.table
  {
    if listing != [] {
      ListedByTable(listing[..|listing| - 1], row);
      assert listing == listing[..|listing| - 1] + [listing[|listing| - 1]];
    }
  }

  /** What a key splits into is the one row it can be the key of. */
  lemma KeySplits(sources: Sources, storeId: string, row: RemoteRow, key: string)
    requires PlainNames(sources) && (forall s :: s in sources ==> WellListed(sources[s]))
    requires Keyed(sources, storeId, row, key)
    ensures SplitKey(key) == Some((storeId, row.key.table, row.key.id))
    ensures row in ListedRows(sources[storeId], Some(row.key.table))
  {
    ListedByTable(sources[storeId], row);
    SplitKeyInverts(storeId, row.key.table, row.key.id);
  }

  /** The first row of an id. */
  method FindRow(rows: seq<RemoteRow>, id: string) returns (r: Option<RemoteRow>)
    ensures r.Some? ==> r.value in rows && r.value.key.id == id
    ensures r.None? ==> forall row :: row in rows ==> row.key.id != id
  {
    for i := 0 to |rows|
      invariant forall j :: 0 <= j < i ==> rows[j].key.id != id
    {
      if rows[i].key.id == id {
        return Some(rows[i]);
      }
    }
    return None;
  }

  lemma FoundIsKeyed(sources: Sources, key: string, storeId: string, table: string, id: string, row: RemoteRow)
    requires (forall s :: s in sources ==> WellListed(sources[s])) && SplitKey(key) == Some((storeId, table, id))
    requires row in ListedRows(ListingOf(sources, storeId), Some(table)) && row.key.id == id
    ensures Keyed(sources, storeId, row, key)
  {
    TableRows(ListingOf(sources, storeId), table);
    ListedByTable(ListingOf(sources, storeId), row);
    JoinKeyInverts(key);
  }

  lemma MissingIsUnkeyed(sources: Sources, key: string, storeId: string, row: RemoteRow)
    requires PlainNames(sources) && (forall s :: s in sources ==> WellListed(sources[s]))
    requires Keyed(sources, storeId, row, key)
    ensures SplitKey(key).Some? && SplitKey(key).value.0 == storeId && SplitKey(key).value.2 == row.key.id
    ensures row in ListedRows(ListingOf(sources, storeId), Some(SplitKey(key).value.1))
  {
    KeySplits(sources, storeId, row, key);
  }

  /** Reads the row a key names, or nothing where no store lists one under it. */
  method Read(sources: Sources, key: string) returns (r: Option<Json>)
    requires PlainNames(sources) && forall s :: s in sources ==> WellListed(sources[s])
    ensures r.Some? ==>
              exists s, row :: Keyed(sources, s, row, key) && r.value == Shown(s)(row) &&
                               ShowsRow(r.value, s, row.key, row.data)
    ensures r.None? ==> forall s, row :: !Keyed(sources, s, row, key)
  {
    var parts := SplitKey(key);
    var found := None;
    if parts.Some? {
      found := FindRow(ListedRows(ListingOf(sources, parts.value.0), Some(parts.value.1)), parts.value.2);
    }
    if found.Some? {
      FoundIsKeyed(sources, key, parts.value.0, parts.value.1, parts.value.2, found.value);
      RowShows(parts.value.0, found.value.key, found.value.data);
      return Some(Shown(parts.value.0)(found.value));
    }
    forall s, row ensures !Keyed(sources, s, row, key) {
      if Keyed(sources, s, row, key) {
        MissingIsUnkeyed(sources, key, s, row);
      }
    }
    return None;
  }
}
