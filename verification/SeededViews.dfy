/** What a subscriber makes of a snapshot's rows and of the changes it hears: exactly the rows its filter admits. */
module SeededViews {
  import opened Options
  import opened Patterns
  import opened Sorting
  import opened RemoteData
  import opened Query
  import opened RemoteKeys
  import opened Routing
  import opened RemoteSnapshot

  // ---- one source's rows ----

  function AtPlaces(storeId: string, rows: Rows): Replica {
    map k | k in rows :: Place(storeId, k) := rows[k]
  }

  predicate PlainKeys(keys: set<Key>) {
    forall k :: k in keys ==> ':' !in k.table
  }

  predicate PlainChanges(changes: seq<RemoteChange>) {
    forall c :: c in changes ==> ':' !in c.key.table
  }

  lemma PlacesPlain(storeId: string, rows: Rows)
    requires ':' !in storeId && PlainKeys(rows.Keys)
    ensures AllPlain(AtPlaces(storeId, rows))
  {
  }

  lemma PlacesLook(storeId: string, rows: Rows, k: Key)
    ensures Place(storeId, k) in AtPlaces(storeId, rows) <==> k in rows
    ensures k in rows ==> AtPlaces(storeId, rows)[Place(storeId, k)] == rows[k]
  {
  }

  lemma PlacesChange(storeId: string, rows: Rows, c: RemoteChange)
    ensures AtPlaces(storeId, ApplyChange(rows, c)) == Changed(AtPlaces(storeId, rows), storeId, c)
  {
    var a, b := AtPlaces(storeId, ApplyChange(rows, c)), Changed(AtPlaces(storeId, rows), storeId, c);
    forall p ensures p in a <==> p in b {
      PlacesLook(p.storeId, rows, p.key);
    }
  }

  // ---- changes routed to it ----

  function RoutedAll(fold: CaseFold, filter: Option<Expr>, view: View, news: seq<RowChange>): View {
    if news == [] then view
    else
      var n := |news| - 1;
      ApplyFrame(RoutedAll(fold, filter, view, news[..n]), Route(fold, filter, FIXED, news[n]))
  }

  lemma {:induction false} RoutedConcat(fold: CaseFold, filter: Option<Expr>, view: View, a: seq<RowChange>,
                                        b: seq<RowChange>)
    ensures RoutedAll(fold, filter, view, a + b) == RoutedAll(fold, filter, RoutedAll(fold, filter, view, a), b)
  {
    if b == [] {
      assert a + b == a;
    } else {
      var init := b[..|b| - 1];
      assert (a + b)[..|a + b| - 1] == a + init;
      RoutedConcat(fold, filter, view, a, init);
    }
  }

  /** Routed changes keep a view exactly the admitted rows of their replay. */
  lemma {:induction false} RoutedKeeps(fold: CaseFold, filter: Option<Expr>, storeId: string, rows: Rows, view: View,
                                       changes: seq<RemoteChange>)
    requires ':' !in storeId && PlainKeys(rows.Keys) && PlainChanges(changes)
    requires ViewOf(Admitting(fold, filter), AtPlaces(storeId, rows), view)
    ensures PlainKeys(Replay(rows, changes).Keys)
    ensures ViewOf(Admitting(fold, filter), AtPlaces(storeId, Replay(rows, changes)),
                   RoutedAll(fold, filter, view, Mapped(changes, Changing(storeId))))
  {
    var news := Mapped(changes, Changing(storeId));
    if changes != [] {
      var init, c := changes[..|changes| - 1], changes[|changes| - 1];
      assert c in changes && PlainChanges(init);
      assert news[..|news| - 1] == Mapped(init, Changing(storeId));
      RoutedKeeps(fold, filter, storeId, rows, view, init);
      PlacesPlain(storeId, Replay(rows, init));
      RouteKeeps(fold, filter, AtPlaces(storeId, Replay(rows, init)),
                 RoutedAll(fold, filter, view, Mapped(init, Changing(storeId))), storeId, c);
      PlacesChange(storeId, Replay(rows, init), c);
    }
  }

  // ---- seeding ----

  /** The id a client keeps a row under. */
  function IdOf(row: Json): string {
    var key := Own(row, "key");
    if key.Some? && key.value.Leaf? && key.value.v.Text? then key.value.v.s else ""
  }

  function SeedView(rows: seq<Json>): View {
    if rows == [] then map[] else SeedView(rows[..|rows| - 1])[IdOf(rows[|rows| - 1]) := rows[|rows| - 1]]
  }

  ghost predicate OneRowPerId(rows: seq<Json>) {
    forall a, b :: a in rows && b in rows && IdOf(a) == IdOf(b) ==> a == b
  }

  /** A view of just these rows, each under its id. */
  ghost predicate Holds(view: View, rows: seq<Json>) {
    && (forall row :: row in rows ==> IdOf(row) in view && view[IdOf(row)] == row)
    && (forall id :: id in view ==> view[id] in rows && IdOf(view[id]) == id)
  }

  lemma {:induction false} SeedHolds(rows: seq<Json>)
    requires OneRowPerId(rows)
    ensures Holds(SeedView(rows), rows)
  {
    if rows != [] {
      var init, last := rows[..|rows| - 1], rows[|rows| - 1];
      assert rows == init + [last];
      SeedHolds(init);
    }
  }

  /** A listing of exactly these rows. */
  ghost predicate Shows(listing: seq<Listed>, rows: Rows) {
    forall r :: r in ListedRows(listing, None) <==> Look(rows, r.key) == Some(r.data)
  }

  predicate Unwindowed(q: Query) {
    q.limit.None? && (q.offset.None? || q.offset.value == 0)
  }

  lemma UnwindowedMembers(fold: CaseFold, rows: seq<Json>, q: Query, row: Json)
    requires Unwindowed(q)
    ensures row in ApplyQuery(fold, rows, q) <==> row in rows && Passes(fold, q.filter)(row)
  {
    var out := Filter(rows, Passes(fold, q.filter));
    FilterMembers(rows, Passes(fold, q.filter));
    SortPermutes(RowOrder(q.orderBy), out);
    var sorted := if q.orderBy == [] then out else Sort(RowOrder(q.orderBy), out);
    assert ApplyQuery(fold, rows, q) == sorted[0..|sorted|] == sorted;
    assert row in sorted <==> row in multiset(sorted);
  }

  lemma MappedMember<T, U>(s: seq<T>, f: T -> U, y: U)
    ensures y in Mapped(s, f) <==> exists x :: x in s && f(x) == y
  {
    if y in Mapped(s, f) {
      var i :| 0 <= i < |s| && Mapped(s, f)[i] == y;
      assert s[i] in s;
    }
    if x :| x in s && f(x) == y {
      var i :| 0 <= i < |s| && s[i] == x;
      assert Mapped(s, f)[i] == y;
    }
  }

  /** A snapshot that reads all it needs. */
  ghost predicate Whole(sources: Sources, q: Query, snapshotLimit: nat) {
    Pinned(q.filter) && Unwindowed(q) && FitsLimit(sources, q, snapshotLimit)
  }

  /** A row of the source that the filter admits, as it is shown. */
  ghost predicate Answered(fold: CaseFold, filter: Option<Expr>, storeId: string, rows: Rows, row: Json, k: Key) {
    k in rows && row == RowOf(storeId, k, rows[k]) && MatchesFilter(fold, filter, row)
  }

  lemma ReadMember(sources: Sources, storeId: string, rows: Rows, row: Json)
    requires storeId in sources && Shows(sources[storeId], rows)
    ensures row in RowsRead(sources, storeId, None) <==> exists k :: k in rows && row == RowOf(storeId, k, rows[k])
  {
    var listed := ListedRows(sources[storeId], None);
    MappedMember(listed, Shown(storeId), row);
    if r :| r in listed && Shown(storeId)(r) == row {
      assert r.key in rows && row == RowOf(storeId, r.key, rows[r.key]);
    }
    if k :| k in rows && row == RowOf(storeId, k, rows[k]) {
      assert RemoteRow(k, rows[k]) in listed && Shown(storeId)(RemoteRow(k, rows[k])) == row;
    }
  }

  /** A whole snapshot answers exactly the admitted rows of the source pinned. */
  lemma SnapshotMembers(fold: CaseFold, sources: Sources, order: seq<string>, q: Query, snapshotLimit: nat, rows: Rows,
                        answer: seq<Json>, row: Json)
    requires Gives(fold, sources, order, q, snapshotLimit, Some(answer)) && Whole(sources, q, snapshotLimit)
    requires WellOrdered(sources, order) && StoreOf(q.filter) in sources && Shows(sources[StoreOf(q.filter)], rows)
    ensures row in answer <==> exists k :: Answered(fold, q.filter, StoreOf(q.filter), rows, row, k)
  {
    var storeId := StoreOf(q.filter);
    StorePinNarrows(fold, q.filter, sources, order);
    SameAnswer(fold, AllRows(sources, order), RowsRead(sources, storeId, None), q);
    UnwindowedMembers(fold, RowsRead(sources, storeId, None), q, row);
    ReadMember(sources, storeId, rows, row);
    if row in answer {
      var k :| k in rows && row == RowOf(storeId, k, rows[k]);
      assert Answered(fold, q.filter, storeId, rows, row, k);
    }
  }

  lemma IdsFollow(storeId: string, k: Key, data: Data)
    ensures IdOf(RowOf(storeId, k, data)) == IdAt(Place(storeId, k))
  {
  }

  lemma AnsweredApart(fold: CaseFold, filter: Option<Expr>, storeId: string, rows: Rows, a: Json, b: Json, k: Key,
                      l: Key)
    requires ':' !in storeId && PlainKeys(rows.Keys) && IdOf(a) == IdOf(b)
    requires Answered(fold, filter, storeId, rows, a, k) && Answered(fold, filter, storeId, rows, b, l)
    ensures a == b
  {
    IdsFollow(storeId, k, rows[k]);
    IdsFollow(storeId, l, rows[l]);
    SameId(Place(storeId, k), Place(storeId, l));
  }

  /** A view seeded with exactly the admitted rows of a source is the view of it. */
  lemma SeedIsView(fold: CaseFold, filter: Option<Expr>, storeId: string, rows: Rows, answer: seq<Json>)
    requires ':' !in storeId && PlainKeys(rows.Keys)
    requires forall row :: row in answer <==> exists k :: Answered(fold, filter, storeId, rows, row, k)
    ensures ViewOf(Admitting(fold, filter), AtPlaces(storeId, rows), SeedView(answer))
  {
    var replica, view, admits := AtPlaces(storeId, rows), SeedView(answer), Admitting(fold, filter);
    forall a, b | a in answer && b in answer && IdOf(a) == IdOf(b) ensures a == b {
      var k :| Answered(fold, filter, storeId, rows, a, k);
      var l :| Answered(fold, filter, storeId, rows, b, l);
      AnsweredApart(fold, filter, storeId, rows, a, b, k, l);
    }
    SeedHolds(answer);
    forall p | Matched(admits, replica, p) ensures IdAt(p) in view && view[IdAt(p)] == RowAt(p, replica[p]) {
      PlacesLook(storeId, rows, p.key);
      IdsFollow(storeId, p.key, rows[p.key]);
      assert Answered(fold, filter, storeId, rows, RowAt(p, replica[p]), p.key);
    }
    forall id | id in view ensures exists p :: Matched(admits, replica, p) && IdAt(p) == id {
      var k :| Answered(fold, filter, storeId, rows, view[id], k);
      PlacesLook(storeId, rows, k);
      IdsFollow(storeId, k, rows[k]);
      assert Matched(admits, replica, Place(storeId, k));
    }
  }

  /** A view seeded with a whole snapshot of a source is exactly the admitted rows of that source. */
  lemma SnapshotSeeds(fold: CaseFold, sources: Sources, order: seq<string>, q: Query, snapshotLimit: nat, rows: Rows,
                      answer: seq<Json>)
    requires Gives(fold, sources, order, q, snapshotLimit, Some(answer)) && Whole(sources, q, snapshotLimit)
    requires WellOrdered(sources, order) && StoreOf(q.filter) in sources && Shows(sources[StoreOf(q.filter)], rows)
    requires ':' !in StoreOf(q.filter) && PlainKeys(rows.Keys)
    ensures ViewOf(Admitting(fold, q.filter), AtPlaces(StoreOf(q.filter), rows), SeedView(answer))
  {
    forall row ensures row in answer <==> exists k :: Answered(fold, q.filter, StoreOf(q.filter), rows, row, k) {
      SnapshotMembers(fold, sources, order, q, snapshotLimit, rows, answer, row);
    }
    SeedIsView(fold, q.filter, StoreOf(q.filter), rows, answer);
  }
}
