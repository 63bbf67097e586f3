/** Routing changes to a subscriber: what it holds stays exactly the rows its filter admits. */
module Routing {
  import opened Options
  import opened Patterns
  import opened RemoteData
  import opened Query
  import opened RemoteKeys

  /** What a client keeps: rows by id. */
  type View = map<string, Json>

  datatype Frame = Upsert(id: string, row: Json) | Remove(id: string)

  function ApplyFrame(view: View, f: Option<Frame>): View {
    match f
    case None => view
    case Some(Upsert(id, row)) => view[id := row]
    case Some(Remove(id)) => view - {id}
  }

  predicate Excluded(fold: CaseFold, filter: Option<Expr>, row: Json, fixed: seq<string>) {
    filter.Some? && ExcludesOn(fold, filter.value, row, fixed)
  }

  /**
   * The frame a change without a prior row is sent as to one subscriber: the row if its filter admits it; nothing if
   * the filter rules it out on fields fixed for its key; else a removal without data.
   */
  function Route(fold: CaseFold, filter: Option<Expr>, fixed: seq<string>, change: RowChange): Option<Frame> {
    match change
    case Updated(id, next, _) =>
      if MatchesFilter(fold, filter, next) then Some(Upsert(id, next))
      else if Excluded(fold, filter, next, fixed) then None
      else Some(Remove(id))
    case Deleted(id, _) => Some(Remove(id))
  }

  // ---- what a subscriber holds ----

  /** A row's place among all sources' rows. */
  datatype Place = Place(storeId: string, key: Key)
  type Replica = map<Place, Data>

  function IdAt(p: Place): string {
    KeyOf(p.storeId, p.key.table, p.key.id)
  }

  function RowAt(p: Place, data: Data): Json {
    RowOf(p.storeId, p.key, data)
  }

  /** Store and table names hold no colon. */
  predicate Plain(p: Place) {
    ':' !in p.storeId && ':' !in p.key.table
  }

  ghost predicate AllPlain(replica: Replica) {
    forall p :: p in replica ==> Plain(p)
  }

  /** Which rows a filter admits. */
  function Admitting(fold: CaseFold, filter: Option<Expr>): (Place, Data) -> bool {
    (p, data) => MatchesFilter(fold, filter, RowAt(p, data))
  }

  ghost predicate Matched(admits: (Place, Data) -> bool, replica: Replica, p: Place) {
    p in replica && admits(p, replica[p])
  }

  /** A view is exactly the admitted rows of the replica, under their ids. */
  ghost predicate ViewOf(admits: (Place, Data) -> bool, replica: Replica, view: View) {
    && (forall p :: Matched(admits, replica, p) ==> IdAt(p) in view && view[IdAt(p)] == RowAt(p, replica[p]))
    && (forall id :: id in view ==> exists p :: Matched(admits, replica, p) && IdAt(p) == id)
  }

  function Changed(replica: Replica, storeId: string, c: RemoteChange): Replica {
    match c
    case Put(k, data) => replica[Place(storeId, k) := data]
    case Delete(k) => replica - {Place(storeId, k)}
  }

  lemma SameId(p: Place, q: Place)
    requires Plain(p) && Plain(q) && IdAt(p) == IdAt(q)
    ensures p == q
  {
    KeyFixes(p.storeId, p.key, map[], q.storeId, q.key, map[]);
  }

  /** A skipped change: no version of the row was ever one the filter admits. */
  lemma ExcludedNeverMatches(fold: CaseFold, filter: Option<Expr>, p: Place, next: Data, any: Data)
    requires Plain(p) && Excluded(fold, filter, RowAt(p, next), FIXED)
    ensures !MatchesFilter(fold, filter, RowAt(p, any))
  {
    KeyFixes(p.storeId, p.key, next, p.storeId, p.key, any);
    ExclusionSound(fold, filter.value, RowAt(p, next), RowAt(p, any), FIXED);
  }

  /** A filter that no row of a store's table can pass, whatever else it asks: it asks for another store or table. */
  ghost predicate RulesOut(e: Expr, storeId: string, table: string) {
    match e
    case And(args) => exists a :: a in args && RulesOut(a, storeId, table)
    case Or(args) => forall a :: a in args ==> RulesOut(a, storeId, table)
    case Eq(f, v) => (f == STORE_ID && v != Scalar.Text(storeId)) || (f == TABLE && v != Scalar.Text(table))
    case Neq(f, v) => (f == STORE_ID && v == Scalar.Text(storeId)) || (f == TABLE && v == Scalar.Text(table))
    case In(f, vs) => (f == STORE_ID && Scalar.Text(storeId) !in vs) || (f == TABLE && Scalar.Text(table) !in vs)
    case _ => false
  }

  lemma {:induction false} RulesOutExcludes(fold: CaseFold, e: Expr, storeId: string, key: Key, data: Data)
    requires RulesOut(e, storeId, key.table)
    ensures ExcludesOn(fold, e, RowOf(storeId, key, data), FIXED)
  {
    match e
    case And(args) =>
      var a :| a in args && RulesOut(a, storeId, key.table);
      RulesOutExcludes(fold, a, storeId, key, data);
    case Or(args) =>
      forall a | a in args ensures ExcludesOn(fold, a, RowOf(storeId, key, data), FIXED) {
        RulesOutExcludes(fold, a, storeId, key, data);
      }
    case _ => ReadsFixed(storeId, key, data);
  }

  /** A subscriber that asks for other stores or tables hears nothing of a put. */
  lemma RuledOutIsSilent(fold: CaseFold, filter: Expr, storeId: string, c: RemoteChange)
    requires c.Put? && RulesOut(filter, storeId, c.key.table)
    ensures Route(fold, Some(filter), FIXED, ChangeOf(storeId, c)) == None
  {
    RulesOutExcludes(fold, filter, storeId, c.key, c.data);
    ExclusionSound(fold, filter, RowOf(storeId, c.key, c.data), RowOf(storeId, c.key, c.data), FIXED);
  }

  /** Where nothing is sent, the row is in neither the old view nor the new one. */
  lemma SkipKeeps(admits: (Place, Data) -> bool, replica: Replica, view: View, p: Place, next: Data)
    requires ViewOf(admits, replica, view) && forall any :: !admits(p, any)
    ensures ViewOf(admits, replica[p := next], view)
  {
    forall id | id in view ensures exists q :: Matched(admits, replica[p := next], q) && IdAt(q) == id {
      var q :| Matched(admits, replica, q) && IdAt(q) == id;
      assert Matched(admits, replica[p := next], q);
    }
  }

  lemma IdsApart(replica: Replica, p: Place)
    requires AllPlain(replica) && Plain(p)
    ensures forall q :: q in replica && q != p ==> IdAt(q) != IdAt(p)
  {
    forall q | q in replica && q != p ensures IdAt(q) != IdAt(p) {
      if IdAt(q) == IdAt(p) {
        SameId(q, p);
      }
    }
  }

  ghost predicate SameElsewhere(a: Replica, b: Replica, p: Place) {
    forall q :: q != p ==> (q in a <==> q in b) && (q in a ==> b[q] == a[q])
  }

  lemma MatchedElsewhere(admits: (Place, Data) -> bool, replica: Replica, then_: Replica, p: Place, q: Place)
    requires SameElsewhere(replica, then_, p) && q != p
    ensures Matched(admits, then_, q) <==> Matched(admits, replica, q)
  {
  }

  /** A view's rows, but for one place's, stay backed by matching rows elsewhere. */
  lemma StayBacked(admits: (Place, Data) -> bool, replica: Replica, then_: Replica, view: View, p: Place, id: string)
    requires ViewOf(admits, replica, view) && id in view && id != IdAt(p)
    requires SameElsewhere(replica, then_, p)
    ensures exists q :: Matched(admits, then_, q) && IdAt(q) == id
  {
    var q :| Matched(admits, replica, q) && IdAt(q) == id;
    MatchedElsewhere(admits, replica, then_, p, q);
  }

  lemma UpsertKeeps(admits: (Place, Data) -> bool, replica: Replica, view: View, p: Place, next: Data, row: Json)
    requires AllPlain(replica) && Plain(p) && ViewOf(admits, replica, view)
    requires row == RowAt(p, next) && admits(p, next)
    ensures ViewOf(admits, replica[p := next], view[IdAt(p) := row])
  {
    var then_, now := replica[p := next], view[IdAt(p) := row];
    IdsApart(replica, p);
    assert Matched(admits, then_, p);
    forall q | Matched(admits, then_, q) ensures IdAt(q) in now && now[IdAt(q)] == RowAt(q, then_[q]) {
      if q != p {
        MatchedElsewhere(admits, replica, then_, p, q);
      }
    }
    forall id | id in now ensures exists q :: Matched(admits, then_, q) && IdAt(q) == id {
      if id != IdAt(p) {
        StayBacked(admits, replica, then_, view, p, id);
      }
    }
  }

  /** Removing a row that no longer matches, or that the view never held. */
  lemma RemoveKeeps(admits: (Place, Data) -> bool, replica: Replica, then_: Replica, view: View, p: Place)
    requires AllPlain(replica) && Plain(p) && ViewOf(admits, replica, view) && !Matched(admits, then_, p)
    requires SameElsewhere(replica, then_, p)
    ensures ViewOf(admits, then_, view - {IdAt(p)})
  {
    var now := view - {IdAt(p)};
    IdsApart(replica, p);
    forall q | Matched(admits, then_, q) ensures IdAt(q) in now && now[IdAt(q)] == RowAt(q, then_[q]) {
      MatchedElsewhere(admits, replica, then_, p, q);
    }
    forall id | id in now ensures exists q :: Matched(admits, then_, q) && IdAt(q) == id {
      StayBacked(admits, replica, then_, view, p, id);
    }
  }

  /** A row the filter does not admit is taken out, or was never in. */
  lemma UnmatchedKeeps(fold: CaseFold, filter: Option<Expr>, replica: Replica, view: View, p: Place, next: Data)
    requires AllPlain(replica) && Plain(p) && ViewOf(Admitting(fold, filter), replica, view)
    requires !MatchesFilter(fold, filter, RowAt(p, next))
    ensures ViewOf(Admitting(fold, filter), replica[p := next],
                   if Excluded(fold, filter, RowAt(p, next), FIXED) then view else view - {IdAt(p)})
  {
    var admits := Admitting(fold, filter);
    if Excluded(fold, filter, RowAt(p, next), FIXED) {
      forall any ensures !admits(p, any) {
        ExcludedNeverMatches(fold, filter, p, next, any);
      }
      SkipKeeps(admits, replica, view, p, next);
    } else {
      RemoveKeeps(admits, replica, replica[p := next], view, p);
    }
  }

  /**
   * Routing is exact. A subscriber whose view is the rows its filter admits still has exactly those after any change is
   * routed to it, though the change carries no prior row and some are not sent at all.
   */
  lemma RouteKeeps(fold: CaseFold, filter: Option<Expr>, replica: Replica, view: View, storeId: string, c: RemoteChange)
    requires AllPlain(replica) && Plain(Place(storeId, c.key)) && ViewOf(Admitting(fold, filter), replica, view)
    ensures AllPlain(Changed(replica, storeId, c))
    ensures ViewOf(Admitting(fold, filter), Changed(replica, storeId, c),
                   ApplyFrame(view, Route(fold, filter, FIXED, ChangeOf(storeId, c))))
  {
    var p, admits := Place(storeId, c.key), Admitting(fold, filter);
    if c.Delete? {
      RemoveKeeps(admits, replica, Changed(replica, storeId, c), view, p);
    } else if MatchesFilter(fold, filter, RowAt(p, c.data)) {
      UpsertKeeps(admits, replica, view, p, c.data, RowAt(p, c.data));
    } else {
      UnmatchedKeeps(fold, filter, replica, view, p, c.data);
    }
  }

  // ---- runs ----

  datatype Emitted = Emitted(storeId: string, change: RemoteChange)

  function ReplicaAfter(replica: Replica, emitted: seq<Emitted>): Replica {
    if emitted == [] then replica
    else
      var e := emitted[|emitted| - 1];
      Changed(ReplicaAfter(replica, emitted[..|emitted| - 1]), e.storeId, e.change)
  }

  function ViewAfter(fold: CaseFold, filter: Option<Expr>, view: View, emitted: seq<Emitted>): View {
    if emitted == [] then view
    else
      var e := emitted[|emitted| - 1];
      ApplyFrame(ViewAfter(fold, filter, view, emitted[..|emitted| - 1]),
                 Route(fold, filter, FIXED, ChangeOf(e.storeId, e.change)))
  }

  /** Over whole runs, whatever changes of whatever stores the node emits. */
  lemma {:induction false} RoutedRun(fold: CaseFold, filter: Option<Expr>, replica: Replica, view: View,
                                     emitted: seq<Emitted>)
    requires AllPlain(replica) && ViewOf(Admitting(fold, filter), replica, view)
    requires forall e :: e in emitted ==> Plain(Place(e.storeId, e.change.key))
    ensures AllPlain(ReplicaAfter(replica, emitted))
    ensures ViewOf(Admitting(fold, filter), ReplicaAfter(replica, emitted), ViewAfter(fold, filter, view, emitted))
  {
    if emitted != [] {
      var init, e := emitted[..|emitted| - 1], emitted[|emitted| - 1];
      RoutedRun(fold, filter, replica, view, init);
      RouteKeeps(fold, filter, ReplicaAfter(replica, init), ViewAfter(fold, filter, view, init), e.storeId, e.change);
    }
  }

  /** One store's rows in the replica. */
  function RowsAt(replica: Replica, storeId: string): Rows {
    map p | p in replica && p.storeId == storeId :: p.key := replica[p]
  }

  function ChangesOf(emitted: seq<Emitted>, storeId: string): seq<RemoteChange> {
    if emitted == [] then []
    else
      var e := emitted[|emitted| - 1];
      ChangesOf(emitted[..|emitted| - 1], storeId) + if e.storeId == storeId then [e.change] else []
  }

  lemma ChangedRows(replica: Replica, storeId: string, c: RemoteChange, other: string)
    ensures RowsAt(Changed(replica, storeId, c), other) ==
            if other == storeId then ApplyChange(RowsAt(replica, other), c) else RowsAt(replica, other)
  {
    var now := Changed(replica, storeId, c);
    var want := if other == storeId then ApplyChange(RowsAt(replica, other), c) else RowsAt(replica, other);
    forall k ensures Look(RowsAt(now, other), k) == Look(want, k) {
      RowAtPlace(now, other, k);
      RowAtPlace(replica, other, k);
    }
    LookExtensional(RowsAt(now, other), want);
  }

  lemma RowAtPlace(replica: Replica, storeId: string, k: Key)
    ensures Look(RowsAt(replica, storeId), k) ==
              if Place(storeId, k) in replica then Some(replica[Place(storeId, k)]) else None
  {
    assert k in RowsAt(replica, storeId) <==> Place(storeId, k) in replica;
  }

  lemma ReplayOneMore(rows: Rows, changes: seq<RemoteChange>, c: RemoteChange)
    ensures Replay(rows, changes + [c]) == ApplyChange(Replay(rows, changes), c)
  {
    assert (changes + [c])[..|changes|] == changes;
  }

  /** The replica the views follow is, store by store, what the emitted changes replay to. */
  lemma {:induction false} ReplicaIsReplay(replica: Replica, emitted: seq<Emitted>, storeId: string)
    ensures RowsAt(ReplicaAfter(replica, emitted), storeId) ==
              Replay(RowsAt(replica, storeId), ChangesOf(emitted, storeId))
  {
    if emitted != [] {
      var init, e := emitted[..|emitted| - 1], emitted[|emitted| - 1];
      ReplicaIsReplay(replica, init, storeId);
      ChangedRows(ReplicaAfter(replica, init), e.storeId, e.change, storeId);
      if e.storeId == storeId {
        ReplayOneMore(RowsAt(replica, storeId), ChangesOf(init, storeId), e.change);
      } else {
        assert ChangesOf(init, storeId) + [] == ChangesOf(init, storeId);
      }
    }
  }
}
