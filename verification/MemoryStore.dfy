/**
 * The in-memory row store: insertion-ordered tables changed in place, with an undo log that makes a batch all or
 * nothing.
 */
module MemoryStore {
  import opened Options
  import opened Patterns
  import opened Sorting
  import opened Query

  /** A stored row with the clock of its creation and of its last update. */
  datatype Entry = Entry(row: Json, createdAt: int, updatedAt: int)
  datatype Pair = Pair(id: string, entry: Entry)

  /** A JavaScript `Map`: setting a new key appends, setting a present one keeps its place. */
  type Table = seq<Pair>
  type Data = map<string, Table>

  datatype RowOp =
    | Insert(n: string, id: string, row: Json)
    | Update(n: string, id: string, row: Json)
    | Delete(n: string, id: string)

  datatype Change = Change(n: string, id: string, prev: Option<Json>, next: Option<Json>, origin: string)

  datatype Error = Conflict(n: string, id: string) | NotFound(n: string, id: string)

  datatype Result<T> = Ok(value: T) | Err(error: Error)

  // ---- tables ----

  function Lookup(t: Table, id: string): Option<Entry> {
    if t == [] then None
    else if t[|t| - 1].id == id then Some(t[|t| - 1].entry)
    else Lookup(t[..|t| - 1], id)
  }

  predicate Has(t: Table, id: string) {
    Lookup(t, id).Some?
  }

  function Drop(t: Table, id: string): Table {
    if t == [] then []
    else if t[|t| - 1].id == id then Drop(t[..|t| - 1], id)
    else Drop(t[..|t| - 1], id) + [t[|t| - 1]]
  }

  function Replace(t: Table, id: string, e: Entry): Table {
    if t == [] then [] else Replace(t[..|t| - 1], id, e) + [if t[|t| - 1].id == id then Pair(id, e) else t[|t| - 1]]
  }

  function Put(t: Table, id: string, e: Entry): Table {
    if Has(t, id) then Replace(t, id, e) else t + [Pair(id, e)]
  }

  predicate Distinct(t: Table) {
    t == [] || (!Has(t[..|t| - 1], t[|t| - 1].id) && Distinct(t[..|t| - 1]))
  }

  lemma Snoc(t: Table, p: Pair)
    ensures (t + [p])[..|t + [p]| - 1] == t && (t + [p])[|t + [p]| - 1] == p
  {
  }

  lemma {:induction false} LookupDrop(t: Table, x: string, id: string)
    ensures Lookup(Drop(t, x), id) == if id == x then None else Lookup(t, id)
  {
    if t != [] {
      var init, last := t[..|t| - 1], t[|t| - 1];
      LookupDrop(init, x, id);
      Snoc(Drop(init, x), last);
    }
  }

  lemma {:induction false} LookupReplace(t: Table, x: string, e: Entry, id: string)
    ensures Lookup(Replace(t, x, e), id) == if id == x && Has(t, x) then Some(e) else Lookup(t, id)
  {
    if t != [] {
      var init, last := t[..|t| - 1], t[|t| - 1];
      LookupReplace(init, x, e, id);
      Snoc(Replace(init, x, e), if last.id == x then Pair(x, e) else last);
    }
  }

  lemma LookupPut(t: Table, x: string, e: Entry, id: string)
    ensures Lookup(Put(t, x, e), id) == if id == x then Some(e) else Lookup(t, id)
  {
    LookupReplace(t, x, e, id);
    Snoc(t, Pair(x, e));
  }

  lemma {:induction false} DropDistinct(t: Table, x: string)
    requires Distinct(t)
    ensures Distinct(Drop(t, x))
  {
    if t != [] {
      var init, last := t[..|t| - 1], t[|t| - 1];
      DropDistinct(init, x);
      LookupDrop(init, x, last.id);
      Snoc(Drop(init, x), last);
    }
  }

  lemma {:induction false} ReplaceDistinct(t: Table, x: string, e: Entry)
    requires Distinct(t)
    ensures Distinct(Replace(t, x, e))
  {
    if t != [] {
      var init, last := t[..|t| - 1], t[|t| - 1];
      ReplaceDistinct(init, x, e);
      LookupReplace(init, x, e, last.id);
      Snoc(Replace(init, x, e), if last.id == x then Pair(x, e) else last);
    }
  }

  lemma PutDistinct(t: Table, x: string, e: Entry)
    requires Distinct(t)
    ensures Distinct(Put(t, x, e))
  {
    ReplaceDistinct(t, x, e);
    Snoc(t, Pair(x, e));
  }

  lemma {:induction false} DropAbsent(t: Table, x: string)
    requires !Has(t, x)
    ensures Drop(t, x) == t
  {
    if t != [] {
      DropAbsent(t[..|t| - 1], x);
    }
  }

  lemma {:induction false} ReplaceAbsent(t: Table, x: string, e: Entry)
    requires !Has(t, x)
    ensures Replace(t, x, e) == t
  {
    if t != [] {
      ReplaceAbsent(t[..|t| - 1], x, e);
    }
  }

  lemma DropSnoc(t: Table, p: Pair, x: string)
    ensures Drop(t + [p], x) == if p.id == x then Drop(t, x) else Drop(t, x) + [p]
  {
    Snoc(t, p);
  }

  lemma ReplaceSnoc(t: Table, p: Pair, x: string, e: Entry)
    ensures Replace(t + [p], x, e) == Replace(t, x, e) + [if p.id == x then Pair(x, e) else p]
  {
    Snoc(t, p);
  }

  lemma {:induction false} DropReplace(t: Table, x: string, y: string, e: Entry)
    ensures Drop(Replace(t, y, e), x) == if x == y then Drop(t, x) else Replace(Drop(t, x), y, e)
  {
    if t != [] {
      var init, last := t[..|t| - 1], t[|t| - 1];
      DropReplace(init, x, y, e);
      DropSnoc(Replace(init, y, e), if last.id == y then Pair(y, e) else last, x);
      if last.id != x {
        ReplaceSnoc(Drop(init, x), last, y, e);
      }
    }
  }

  lemma {:induction false} ReplaceBack(t: Table, x: string, e: Entry)
    requires Distinct(t) && Has(t, x)
    ensures Replace(Replace(t, x, e), x, Lookup(t, x).value) == t
  {
    var init, last, was := t[..|t| - 1], t[|t| - 1], Lookup(t, x).value;
    assert t == init + [last];
    ReplaceSnoc(init, last, x, e);
    if last.id == x {
      ReplaceAbsent(init, x, e);
      ReplaceAbsent(init, x, was);
      ReplaceSnoc(init, Pair(x, e), x, was);
    } else {
      ReplaceBack(init, x, e);
      ReplaceSnoc(Replace(init, x, e), last, x, was);
    }
  }

  // ---- operations and their undo ----

  function TableIn(d: Data, n: string): Table {
    if n in d then d[n] else []
  }

  ghost predicate Valid(d: Data) {
    forall n :: n in d ==> Distinct(d[n])
  }

  datatype Undo = SetBack(n: string, id: string, entry: Entry) | TakeOut(n: string, id: string)

  function ApplyUndo(d: Data, u: Undo): Data {
    match u
    case SetBack(n, id, e) => d[n := Put(TableIn(d, n), id, e)]
    case TakeOut(n, id) => d[n := Drop(TableIn(d, n), id)]
  }

  /** Undoing from the last step back. */
  function Unwind(d: Data, undo: seq<Undo>): Data
    decreases |undo|
  {
    if undo == [] then d else Unwind(ApplyUndo(d, undo[|undo| - 1]), undo[..|undo| - 1])
  }

  /**
   * What one operation did: the tables after it, how to undo it, and the change it made; a delete of nothing does
   * nothing.
   */
  datatype Did = Did(data: Data, undo: seq<Undo>, changes: seq<Change>) | Threw(error: Error)

  function Do(d: Data, op: RowOp, origin: string, ts: int): Did {
    var t := TableIn(d, op.n);
    var prev := Lookup(t, op.id);
    match op
    case Insert(n, id, row) =>
      if prev.Some? then Threw(Conflict(n, id))
      else Did(d[n := Put(t, id, Entry(row, ts, ts))], [TakeOut(n, id)], [Change(n, id, None, Some(row), origin)])
    case Update(n, id, row) =>
      if prev.None? then Threw(NotFound(n, id))
      else Did(d[n := Put(t, id, Entry(row, prev.value.createdAt, ts))], [SetBack(n, id, prev.value)],
               [Change(n, id, Some(prev.value.row), Some(row), origin)])
    case Delete(n, id) =>
      if prev.None? then Did(d[n := t], [], [])
      else Did(d[n := Drop(t, id)], [SetBack(n, id, prev.value)], [Change(n, id, Some(prev.value.row), None, origin)])
  }

  /** How far a batch got: all of it, or up to the operation that threw. */
  datatype Ran = Ran(data: Data, undo: seq<Undo>, changes: seq<Change>, error: Option<Error>)

  /** Where a batch stands after one more operation. */
  function Then(r: Ran, op: RowOp, origin: string, ts: int): Ran {
    if r.error.Some? then r
    else
      match Do(r.data, op, origin, ts)
      case Threw(e) => r.(error := Some(e))
      case Did(data, undo, changes) => Ran(data, r.undo + undo, r.changes + changes, None)
  }

  function Run(d: Data, ops: seq<RowOp>, origin: string, ts: int): Ran {
    if ops == [] then Ran(d, [], [], None)
    else
      Then(Run(d, ops[..|ops| - 1], origin, ts), ops[|ops| - 1], origin, ts)
  }

  lemma DoValid(d: Data, op: RowOp, origin: string, ts: int)
    requires Valid(d) && Do(d, op, origin, ts).Did?
    ensures Valid(Do(d, op, origin, ts).data)
  {
    var t := TableIn(d, op.n);
    DropDistinct(t, op.id);
    forall e ensures Distinct(Put(t, op.id, e)) {
      PutDistinct(t, op.id, e);
    }
  }

  lemma {:induction false} RunValid(d: Data, ops: seq<RowOp>, origin: string, ts: int)
    requires Valid(d)
    ensures Valid(Run(d, ops, origin, ts).data)
  {
    if ops != [] {
      var r := Run(d, ops[..|ops| - 1], origin, ts);
      RunValid(d, ops[..|ops| - 1], origin, ts);
      if r.error.None? && Do(r.data, ops[|ops| - 1], origin, ts).Did? {
        DoValid(r.data, ops[|ops| - 1], origin, ts);
      }
    }
  }

  /** What came before put in front of a run. */
  function After(undo: seq<Undo>, changes: seq<Change>, r: Ran): Ran {
    Ran(r.data, undo + r.undo, changes + r.changes, r.error)
  }

  lemma ThenAfter(undo: seq<Undo>, changes: seq<Change>, r: Ran, op: RowOp, origin: string, ts: int)
    ensures Then(After(undo, changes, r), op, origin, ts) == After(undo, changes, Then(r, op, origin, ts))
  {
    var did := Do(r.data, op, origin, ts);
    if did.Did? {
      assert undo + r.undo + did.undo == undo + (r.undo + did.undo);
      assert changes + r.changes + did.changes == changes + (r.changes + did.changes);
    }
  }

  lemma RunLast(d: Data, ops: seq<RowOp>, op: RowOp, origin: string, ts: int)
    ensures Run(d, ops + [op], origin, ts) == Then(Run(d, ops, origin, ts), op, origin, ts)
  {
    assert (ops + [op])[..|ops|] == ops;
  }

  lemma RunOne(d: Data, op: RowOp, origin: string, ts: int)
    ensures Run(d, [op], origin, ts) ==
            match Do(d, op, origin, ts)
            case Threw(e) => Ran(d, [], [], Some(e))
            case Did(data, undo, changes) => After(undo, changes, Ran(data, [], [], None))
  {
    RunLast(d, [], op, origin, ts);
    assert [] + [op] == [op];
    var did := Do(d, op, origin, ts);
    assert did.Did? ==> [] + did.undo == did.undo + [] && [] + did.changes == did.changes + [];
  }

  /** A batch is its first operation and then the rest. */
  lemma {:induction false} RunCons(d: Data, op: RowOp, rest: seq<RowOp>, origin: string, ts: int)
    ensures Run(d, [op] + rest, origin, ts) ==
            match Do(d, op, origin, ts)
            case Threw(e) => Ran(d, [], [], Some(e))
            case Did(data, undo, changes) => After(undo, changes, Run(data, rest, origin, ts))
  {
    if rest == [] {
      RunOne(d, op, origin, ts);
      assert [op] + rest == [op];
    } else {
      var init, last := rest[..|rest| - 1], rest[|rest| - 1];
      assert [op] + rest == [op] + init + [last];
      RunCons(d, op, init, origin, ts);
      RunLast(d, [op] + init, last, origin, ts);
      var did := Do(d, op, origin, ts);
      if did.Did? {
        ThenAfter(did.undo, did.changes, Run(did.data, init, origin, ts), last, origin, ts);
      }
    }
  }

  lemma {:induction false} UnwindConcat(d: Data, a: seq<Undo>, b: seq<Undo>)
    ensures Unwind(d, a + b) == Unwind(Unwind(d, b), a)
    decreases |b|
  {
    if b == [] {
      assert a + b == a;
    } else {
      assert (a + b)[..|a + b| - 1] == a + b[..|b| - 1];
      UnwindConcat(ApplyUndo(d, b[|b| - 1]), a, b[..|b| - 1]);
    }
  }

  // ---- what unwinding restores ----

  /** The ids of one table's rows a batch deleted, in order. */
  function Deleted(changes: seq<Change>, n: string): seq<string> {
    if changes == [] then []
    else if changes[0].n == n && changes[0].next.None? then [changes[0].id] + Deleted(changes[1..], n)
    else Deleted(changes[1..], n)
  }

  /** A table once deleted rows are put back: each as it was, at the end, the one deleted first last. */
  function Restored(t: Table, gone: seq<string>): Table
    decreases |gone|
  {
    if gone == [] then t
    else if !Has(t, gone[0]) then Restored(t, gone[1..])
    else Restored(Drop(t, gone[0]), gone[1..]) + [Pair(gone[0], Lookup(t, gone[0]).value)]
  }

  /** Whatever was deleted, the rows are the same. */
  lemma {:induction false} RestoredLookup(t: Table, gone: seq<string>, id: string)
    ensures Lookup(Restored(t, gone), id) == Lookup(t, id)
    decreases |gone|
  {
    if gone != [] {
      if Has(t, gone[0]) {
        RestoredLookup(Drop(t, gone[0]), gone[1..], id);
        LookupDrop(t, gone[0], id);
        Snoc(Restored(Drop(t, gone[0]), gone[1..]), Pair(gone[0], Lookup(t, gone[0]).value));
      } else {
        RestoredLookup(t, gone[1..], id);
      }
    }
  }

  /** Taking an inserted row out again leaves what there was without it. */
  lemma {:induction false} InsertBack(t: Table, p: Pair, gone: seq<string>)
    requires !Has(t, p.id)
    ensures Drop(Restored(t + [p], gone), p.id) == Restored(t, gone)
    decreases |gone|
  {
    DropSnoc(t, p, p.id);
    DropAbsent(t, p.id);
    if gone != [] {
      var x, rest := gone[0], gone[1..];
      Snoc(t, p);
      if x == p.id {
        RestoredLookup(t, rest, p.id);
        DropAbsent(Restored(t, rest), p.id);
        DropSnoc(Restored(t, rest), p, p.id);
      } else if Has(t, x) {
        DropSnoc(t, p, x);
        LookupDrop(t, x, p.id);
        InsertBack(Drop(t, x), p, rest);
        DropSnoc(Restored(Drop(t + [p], x), rest), Pair(x, Lookup(t, x).value), p.id);
      } else {
        InsertBack(t, p, rest);
      }
    }
  }

  /** Setting an updated row back leaves what there was before. */
  lemma {:induction false} UpdateBack(t: Table, id: string, e: Entry, gone: seq<string>)
    requires Distinct(t) && Has(t, id)
    ensures Replace(Restored(Replace(t, id, e), gone), id, Lookup(t, id).value) == Restored(t, gone)
    decreases |gone|
  {
    var was := Lookup(t, id).value;
    if gone == [] {
      ReplaceBack(t, id, e);
    } else {
      var x, rest := gone[0], gone[1..];
      LookupReplace(t, id, e, x);
      if !Has(t, x) {
        UpdateBack(t, id, e, rest);
      } else if x == id {
        DropReplace(t, x, id, e);
        LookupDrop(t, id, id);
        RestoredLookup(Drop(t, id), rest, id);
        ReplaceAbsent(Restored(Drop(t, id), rest), id, was);
        ReplaceSnoc(Restored(Drop(t, id), rest), Pair(id, e), id, was);
      } else {
        DropReplace(t, x, id, e);
        DropDistinct(t, x);
        LookupDrop(t, x, id);
        UpdateBack(Drop(t, x), id, e, rest);
        ReplaceSnoc(Restored(Replace(Drop(t, x), id, e), rest), Pair(x, Lookup(t, x).value), id, was);
      }
    }
  }

  lemma OtherTable(d: Data, op: RowOp, origin: string, ts: int, n: string)
    requires Do(d, op, origin, ts).Did? && op.n != n
    ensures TableIn(Do(d, op, origin, ts).data, n) == TableIn(d, n)
    ensures forall x :: TableIn(Unwind(x, Do(d, op, origin, ts).undo), n) == TableIn(x, n)
    ensures forall cs :: Deleted(Do(d, op, origin, ts).changes + cs, n) == Deleted(cs, n)
  {
    var did := Do(d, op, origin, ts);
    forall x ensures TableIn(Unwind(x, did.undo), n) == TableIn(x, n) {
      UnwindOne(x, did.undo);
    }
    forall cs ensures Deleted(did.changes + cs, n) == Deleted(cs, n) {
      DeletedOne(did.changes, cs, n);
    }
  }

  lemma UnwindOne(d: Data, undo: seq<Undo>)
    requires |undo| <= 1
    ensures Unwind(d, undo) == if undo == [] then d else ApplyUndo(d, undo[0])
  {
    if undo != [] {
      assert undo[..|undo| - 1] == [];
    }
  }

  lemma DeletedOne(first: seq<Change>, rest: seq<Change>, n: string)
    requires |first| <= 1
    ensures Deleted(first + rest, n) ==
            if first != [] && first[0].n == n && first[0].next.None? then [first[0].id] + Deleted(rest, n)
              else Deleted(rest, n)
  {
    if first == [] {
      assert first + rest == rest;
    } else {
      assert (first + rest)[0] == first[0] && (first + rest)[1..] == rest;
    }
  }

  lemma PutBackUpdated(t: Table, id: string, e: Entry, gone: seq<string>)
    requires Distinct(t) && Has(t, id)
    ensures Put(Restored(Put(t, id, e), gone), id, Lookup(t, id).value) == Restored(t, gone)
  {
    UpdateBack(t, id, e, gone);
    RestoredLookup(Replace(t, id, e), gone, id);
    LookupReplace(t, id, e, id);
  }

  lemma PutBackDeleted(t: Table, id: string, gone: seq<string>)
    requires Has(t, id)
    ensures Put(Restored(Drop(t, id), gone), id, Lookup(t, id).value) == Restored(t, [id] + gone)
  {
    RestoredLookup(Drop(t, id), gone, id);
    LookupDrop(t, id, id);
    assert ([id] + gone)[1..] == gone;
  }

  /** What an operation's undo makes of a table the later operations left behind. */
  function TakenBack(t: Table, undo: seq<Undo>): Table {
    if undo == [] then t
    else if undo[0].TakeOut? then Drop(t, undo[0].id)
    else Put(t, undo[0].id, undo[0].entry)
  }

  lemma InsertTakenBack(d: Data, op: RowOp, origin: string, ts: int, did: Did, gone: seq<string>)
    requires op.Insert? && did == Do(d, op, origin, ts) && did.Did?
    ensures TakenBack(Restored(TableIn(did.data, op.n), gone), did.undo) == Restored(TableIn(d, op.n), gone)
  {
    InsertBack(TableIn(d, op.n), Pair(op.id, Entry(op.row, ts, ts)), gone);
  }

  lemma UpdateTakenBack(d: Data, op: RowOp, origin: string, ts: int, did: Did, gone: seq<string>)
    requires Valid(d) && op.Update? && did == Do(d, op, origin, ts) && did.Did?
    ensures TakenBack(Restored(TableIn(did.data, op.n), gone), did.undo) == Restored(TableIn(d, op.n), gone)
  {
    var t := TableIn(d, op.n);
    PutBackUpdated(t, op.id, Entry(op.row, Lookup(t, op.id).value.createdAt, ts), gone);
  }

  lemma DeleteTakenBack(d: Data, op: RowOp, origin: string, ts: int, did: Did, gone: seq<string>)
    requires op.Delete? && did == Do(d, op, origin, ts) && did.Did?
    ensures TakenBack(Restored(TableIn(did.data, op.n), gone), did.undo) ==
            Restored(TableIn(d, op.n), (if did.changes == [] then [] else [op.id]) + gone)
  {
    if did.changes == [] {
      assert [] + gone == gone;
    } else {
      PutBackDeleted(TableIn(d, op.n), op.id, gone);
    }
  }

  lemma DidShape(d: Data, op: RowOp, origin: string, ts: int, did: Did)
    requires did == Do(d, op, origin, ts) && did.Did?
    ensures |did.undo| == |did.changes| <= 1
    ensures did.undo != [] ==> did.undo[0].n == op.n
    ensures did.changes != [] ==>
              did.changes[0].n == op.n && did.changes[0].id == op.id && (did.changes[0].next.None? <==> op.Delete?)
  {
  }

  /** One operation undone, whatever the later ones deleted. */
  lemma OneBack(d: Data, op: RowOp, origin: string, ts: int, did: Did, later: Data, rest: seq<Change>)
    requires Valid(d) && did == Do(d, op, origin, ts) && did.Did?
    requires TableIn(later, op.n) == Restored(TableIn(did.data, op.n), Deleted(rest, op.n))
    ensures TableIn(Unwind(later, did.undo), op.n) == Restored(TableIn(d, op.n), Deleted(did.changes + rest, op.n))
  {
    DidShape(d, op, origin, ts, did);
    UnwindOne(later, did.undo);
    DeletedOne(did.changes, rest, op.n);
    var gone := Deleted(rest, op.n);
    assert [] + gone == gone;
    if op.Insert? {
      InsertTakenBack(d, op, origin, ts, did, gone);
    } else if op.Update? {
      UpdateTakenBack(d, op, origin, ts, did, gone);
    } else {
      DeleteTakenBack(d, op, origin, ts, did, gone);
    }
  }

  /**
   * Unwinding as far as a batch got gives each table its rows back as they were, in their places but for those the
   * batch deleted, which come last.
   */
  lemma {:induction false} UnwindRestores(d: Data, ops: seq<RowOp>, origin: string, ts: int, n: string)
    requires Valid(d)
    ensures var r := Run(d, ops, origin, ts);
            TableIn(Unwind(r.data, r.undo), n) == Restored(TableIn(d, n), Deleted(r.changes, n))
    decreases |ops|
  {
    if ops != [] {
      var op, rest := ops[0], ops[1..];
      assert [op] + rest == ops;
      RunCons(d, op, rest, origin, ts);
      var did := Do(d, op, origin, ts);
      if did.Did? {
        DoValid(d, op, origin, ts);
        var r := Run(did.data, rest, origin, ts);
        UnwindRestores(did.data, rest, origin, ts, n);
        UnwindConcat(r.data, did.undo, r.undo);
        if op.n == n {
          OneBack(d, op, origin, ts, did, Unwind(r.data, r.undo), r.changes);
        } else {
          OtherTable(d, op, origin, ts, n);
        }
      }
    }
  }

  // ---- when the order survives ----

  /** The rows there before were deleted from the end back, if at all. */
  predicate LastFirst(t: Table, gone: seq<string>) {
    gone == [] ||
    (if Has(t, gone[0]) then t != [] && t[|t| - 1].id == gone[0] && LastFirst(t[..|t| - 1], gone[1..])
      else LastFirst(t, gone[1..]))
  }

  lemma SameAsSnoc(a: Table, p: Pair, t: Table)
    ensures a + [p] == t <==> t != [] && a == t[..|t| - 1] && p == t[|t| - 1]
  {
    Snoc(a, p);
    if t != [] && a == t[..|t| - 1] && p == t[|t| - 1] {
      assert t == t[..|t| - 1] + [t[|t| - 1]];
    }
  }

  /**
   * A failed batch leaves a table's order alone exactly when it deleted that table's rows, if any, from the end back.
   */
  lemma {:induction false} OrderSurvivesIff(t: Table, gone: seq<string>)
    requires Distinct(t)
    ensures Restored(t, gone) == t <==> LastFirst(t, gone)
    decreases |gone|
  {
    if gone != [] {
      var x, rest := gone[0], gone[1..];
      if Has(t, x) {
        var last := t[|t| - 1];
        SameAsSnoc(Restored(Drop(t, x), rest), Pair(x, Lookup(t, x).value), t);
        if last.id == x {
          DropAbsent(t[..|t| - 1], x);
          OrderSurvivesIff(t[..|t| - 1], rest);
        }
      } else {
        OrderSurvivesIff(t, rest);
      }
    }
  }

  /** The ids a batch asks to delete from a table, in order, whether they are there or not. */
  function DeleteIds(ops: seq<RowOp>, n: string): seq<string> {
    if ops == [] then []
    else (if ops[0].Delete? && ops[0].n == n then [ops[0].id] else []) + DeleteIds(ops[1..], n)
  }

  /** Asking to delete a row that is not there makes no difference to what is put back. */
  lemma DeleteAlike(d: Data, op: RowOp, origin: string, ts: int, did: Did, deleted: seq<string>, asked: seq<string>)
    requires op.Delete? && did == Do(d, op, origin, ts) && did.Did?
    requires Restored(TableIn(did.data, op.n), deleted) == Restored(TableIn(did.data, op.n), asked)
    ensures Restored(TableIn(d, op.n), (if did.changes != [] then [op.id] else []) + deleted) ==
            Restored(TableIn(d, op.n), [op.id] + asked)
  {
    assert ([op.id] + asked)[1..] == asked && [] + asked == asked;
    DeleteTakenBack(d, op, origin, ts, did, deleted);
    DeleteTakenBack(d, op, origin, ts, did, asked);
  }

  lemma WriteAlike(d: Data, op: RowOp, origin: string, ts: int, did: Did, deleted: seq<string>, asked: seq<string>)
    requires Valid(d) && !op.Delete? && did == Do(d, op, origin, ts) && did.Did?
    requires Restored(TableIn(did.data, op.n), deleted) == Restored(TableIn(did.data, op.n), asked)
    ensures Restored(TableIn(d, op.n), deleted) == Restored(TableIn(d, op.n), asked)
  {
    if op.Insert? {
      InsertTakenBack(d, op, origin, ts, did, deleted);
      InsertTakenBack(d, op, origin, ts, did, asked);
    } else {
      UpdateTakenBack(d, op, origin, ts, did, deleted);
      UpdateTakenBack(d, op, origin, ts, did, asked);
    }
  }

  lemma {:induction false} DeletedAsAsked(d: Data, ops: seq<RowOp>, origin: string, ts: int, n: string)
    requires Valid(d) && Run(d, ops, origin, ts).error.None?
    ensures Restored(TableIn(d, n), Deleted(Run(d, ops, origin, ts).changes, n)) ==
              Restored(TableIn(d, n), DeleteIds(ops, n))
    decreases |ops|
  {
    if ops != [] {
      var op, rest := ops[0], ops[1..];
      assert [op] + rest == ops;
      RunCons(d, op, rest, origin, ts);
      var did := Do(d, op, origin, ts);
      DoValid(d, op, origin, ts);
      DeletedAsAsked(did.data, rest, origin, ts, n);
      var changes := Run(did.data, rest, origin, ts).changes;
      if op.n == n {
        DidShape(d, op, origin, ts, did);
        DeletedOne(did.changes, changes, n);
        if op.Delete? {
          DeleteAlike(d, op, origin, ts, did, Deleted(changes, n), DeleteIds(rest, n));
        } else {
          WriteAlike(d, op, origin, ts, did, Deleted(changes, n), DeleteIds(rest, n));
        }
      } else {
        OtherTable(d, op, origin, ts, n);
      }
      assert [] + Deleted(changes, n) == Deleted(changes, n) && [] + DeleteIds(rest, n) == DeleteIds(rest, n);
    }
  }

  /**
   * Exactly when a failed batch leaves a table in its order: if and only if the rows it asked to delete before the
   * operation that threw, those there to begin with, were the table's last ones, from the end back.
   */
  lemma FailedOrderIff(d: Data, ops: seq<RowOp>, origin: string, ts: int, i: nat, n: string)
    requires Valid(d) && i < |ops| && Run(d, ops[..i], origin, ts).error.None?
    requires Do(Run(d, ops[..i], origin, ts).data, ops[i], origin, ts).Threw?
    ensures var r := Run(d, ops, origin, ts);
            && r.error.Some?
            && (TableIn(Unwind(r.data, r.undo), n) == TableIn(d, n)
              <==> LastFirst(TableIn(d, n), DeleteIds(ops[..i], n)))
  {
    StopsAt(d, ops, origin, ts, i);
    UnwindRestores(d, ops[..i], origin, ts, n);
    DeletedAsAsked(d, ops[..i], origin, ts, n);
    OrderSurvivesIff(TableIn(d, n), DeleteIds(ops[..i], n));
  }

  // ---- what a batch's changes say ----

  type Rows = map<(string, string), Json>

  function RowIn(d: Data, n: string, id: string): Option<Json> {
    var e := Lookup(TableIn(d, n), id);
    if e.Some? then Some(e.value.row) else None
  }

  function Held(rows: Rows, n: string, id: string): Option<Json> {
    if (n, id) in rows then Some(rows[(n, id)]) else None
  }

  ghost predicate Mirrors(rows: Rows, d: Data) {
    forall n, id :: Held(rows, n, id) == RowIn(d, n, id)
  }

  /** A follower applies a change only where it holds what the change says was there. */
  function Follow(rows: Rows, c: Change): Option<Rows> {
    if Held(rows, c.n, c.id) != c.prev then None
    else if c.next.Some? then Some(rows[(c.n, c.id) := c.next.value])
    else Some(rows - {(c.n, c.id)})
  }

  function FollowAll(rows: Rows, changes: seq<Change>): Option<Rows> {
    if changes == [] then Some(rows)
    else
      var r := FollowAll(rows, changes[..|changes| - 1]);
      if r.None? then None else Follow(r.value, changes[|changes| - 1])
  }

  lemma DoFollows(d: Data, op: RowOp, origin: string, ts: int, rows: Rows)
    requires Mirrors(rows, d) && Do(d, op, origin, ts).Did?
    ensures FollowAll(rows, Do(d, op, origin, ts).changes).Some?
    ensures Mirrors(FollowAll(rows, Do(d, op, origin, ts).changes).value, Do(d, op, origin, ts).data)
  {
    var did := Do(d, op, origin, ts);
    assert Held(rows, op.n, op.id) == RowIn(d, op.n, op.id);
    FollowOne(rows, did.changes);
    var now := FollowAll(rows, did.changes).value;
    forall n, id ensures Held(now, n, id) == RowIn(did.data, n, id) {
      assert Held(rows, n, id) == RowIn(d, n, id);
      DoEntry(d, op, origin, ts, n, id);
    }
  }

  lemma FollowOne(rows: Rows, changes: seq<Change>)
    requires |changes| <= 1
    ensures FollowAll(rows, changes) == if changes == [] then Some(rows) else Follow(rows, changes[0])
  {
    if changes != [] {
      assert changes[..|changes| - 1] == [];
    }
  }

  /**
   * The entry an operation leaves under a key: a row it set, with its clocks; none where it deleted; or what was there.
   */
  function EntryAfter(d: Data, op: RowOp, ts: int, n: string, id: string): Option<Entry> {
    var was := Lookup(TableIn(d, n), id);
    if op.n != n || op.id != id then was
    else
      match op
      case Insert(_, _, row) => Some(Entry(row, ts, ts))
      case Update(_, _, row) => Some(Entry(row, if was.Some? then was.value.createdAt else ts, ts))
      case Delete(_, _) => None
  }

  lemma DoEntry(d: Data, op: RowOp, origin: string, ts: int, n: string, id: string)
    requires Do(d, op, origin, ts).Did?
    ensures Lookup(TableIn(Do(d, op, origin, ts).data, n), id) == EntryAfter(d, op, ts, n, id)
  {
    if n == op.n {
      var t := TableIn(d, n);
      match op
      case Insert(_, _, row) => LookupPut(t, op.id, Entry(row, ts, ts), id);
      case Update(_, _, row) => LookupPut(t, op.id, Entry(row, Lookup(t, op.id).value.createdAt, ts), id);
      case Delete(_, _) => LookupDrop(t, op.id, id);
    }
  }

  lemma {:induction false} FollowConcat(rows: Rows, a: seq<Change>, b: seq<Change>)
    ensures FollowAll(rows, a + b) == if FollowAll(rows, a).None? then None else FollowAll(FollowAll(rows, a).value, b)
  {
    if b == [] {
      assert a + b == a;
    } else {
      assert (a + b)[..|a + b| - 1] == a + b[..|b| - 1];
      FollowConcat(rows, a, b[..|b| - 1]);
    }
  }

  /**
   * A follower that held the rows before a batch holds the rows after it, every change finding what it says was there.
   */
  lemma {:induction false} ChangesFollow(d: Data, ops: seq<RowOp>, origin: string, ts: int, rows: Rows)
    requires Mirrors(rows, d)
    ensures var r := Run(d, ops, origin, ts);
            FollowAll(rows, r.changes).Some? && Mirrors(FollowAll(rows, r.changes).value, r.data)
  {
    if ops != [] {
      var r := Run(d, ops[..|ops| - 1], origin, ts);
      ChangesFollow(d, ops[..|ops| - 1], origin, ts, rows);
      if r.error.None? {
        var did := Do(r.data, ops[|ops| - 1], origin, ts);
        if did.Did? {
          FollowConcat(rows, r.changes, did.changes);
          DoFollows(r.data, ops[|ops| - 1], origin, ts, FollowAll(rows, r.changes).value);
        }
      }
    }
  }

  predicate Touches(changes: seq<Change>, n: string, id: string) {
    exists c :: c in changes && c.n == n && c.id == id
  }

  /**
   * One instant per batch: a row it did not touch keeps its entry; one it left there was updated at the batch's clock,
   * and created then too unless it was there before with that creation.
   */
  lemma {:induction false} BatchClock(d: Data, ops: seq<RowOp>, origin: string, ts: int, n: string, id: string)
    ensures var r := Run(d, ops, origin, ts); var was, now := Lookup(TableIn(d, n), id), Lookup(TableIn(r.data, n), id);
            if !Touches(r.changes, n, id) then now == was
            else now.Some? ==> now.value.updatedAt == ts &&
                               (now.value.createdAt == ts || (was.Some? && now.value.createdAt == was.value.createdAt))
  {
    if ops != [] {
      var r, op := Run(d, ops[..|ops| - 1], origin, ts), ops[|ops| - 1];
      BatchClock(d, ops[..|ops| - 1], origin, ts, n, id);
      if r.error.None? && Do(r.data, op, origin, ts).Did? {
        DoEntry(r.data, op, origin, ts, n, id);
        TouchesMore(r.changes, Do(r.data, op, origin, ts).changes, n, id);
        DoTouches(r.data, op, origin, ts, n, id);
      }
    }
  }

  lemma TouchesMore(a: seq<Change>, b: seq<Change>, n: string, id: string)
    ensures Touches(a + b, n, id) <==> Touches(a, n, id) || Touches(b, n, id)
  {
    assert forall c :: c in a + b <==> c in a || c in b;
  }

  lemma DoTouches(d: Data, op: RowOp, origin: string, ts: int, n: string, id: string)
    requires Do(d, op, origin, ts).Did?
    ensures Touches(Do(d, op, origin, ts).changes, n, id) <==>
              op.n == n && op.id == id && !(op.Delete? && !Has(TableIn(d, n), id))
  {
    var changes := Do(d, op, origin, ts).changes;
    if changes != [] {
      assert changes[0] in changes;
    }
  }

  /** Deleting the first of two rows and then failing leaves both, the other way round. */
  lemma FailureReordersExample(a: Pair, b: Pair, row: Json, origin: string, ts: int)
    requires a.id != b.id
    ensures var d: Data := map["n" := [a, b]]; var r := Run(d, [Delete("n", a.id), Insert("n", b.id, row)], origin, ts);
            r.error == Some(Conflict("n", b.id)) && TableIn(Unwind(r.data, r.undo), "n") == [b, a]
  {
    var d: Data := map["n" := [a, b]];
    var t, first, second := [a, b], Delete("n", a.id), Insert("n", b.id, row);
    assert t[..1] == [a] && [a][..0] == [];
    assert Lookup([a], a.id) == Some(a.entry) && Lookup(t, a.id) == Some(a.entry);
    assert Drop([a], a.id) == [] && Drop(t, a.id) == [b];
    assert Lookup([b], b.id) == Some(b.entry) && Lookup([b], a.id) == None by {
      assert [b][..0] == [];
    }
    RunOne(d, first, origin, ts);
    RunLast(d, [first], second, origin, ts);
    assert [first] + [second] == [first, second];
    UnwindOne(map["n" := [b]], [SetBack("n", a.id, a.entry)]);
  }

  // ---- what a batch does, said of its operations alone ----

  /** The row the last operation on a key leaves, whatever came before it. */
  function RowAfter(d: Data, ops: seq<RowOp>, n: string, id: string): Option<Json> {
    if ops == [] then RowIn(d, n, id)
    else
      var op := ops[|ops| - 1];
      if op.n != n || op.id != id then RowAfter(d, ops[..|ops| - 1], n, id)
      else if op.Delete? then None
      else Some(op.row)
  }

  /** An operation that cannot be done after those before it: an insert of a row there is, an update of none. */
  ghost predicate Blocked(d: Data, ops: seq<RowOp>, i: nat)
    requires i < |ops|
  {
    || (ops[i].Insert? && RowAfter(d, ops[..i], ops[i].n, ops[i].id).Some?)
    || (ops[i].Update? && RowAfter(d, ops[..i], ops[i].n, ops[i].id).None?)
  }

  ghost predicate BlockedFirst(d: Data, ops: seq<RowOp>, i: nat)
    requires i < |ops|
  {
    Blocked(d, ops, i) && forall j :: 0 <= j < i ==> !Blocked(d, ops, j)
  }

  /** The operations of a batch that change something: all but deletions of what is not there. */
  function Doing(d: Data, ops: seq<RowOp>): seq<RowOp> {
    if ops == [] then []
    else
      var init, op := ops[..|ops| - 1], ops[|ops| - 1];
      Doing(d, init) + if op.Delete? && RowAfter(d, init, op.n, op.id).None? then [] else [op]
  }

  ghost predicate Announces(c: Change, op: RowOp, origin: string) {
    c.n == op.n && c.id == op.id && c.origin == origin && c.next == if op.Delete? then None else Some(op.row)
  }

  lemma BlockedEarlier(d: Data, ops: seq<RowOp>, op: RowOp, i: nat)
    requires i < |ops|
    ensures Blocked(d, ops + [op], i) <==> Blocked(d, ops, i)
  {
    assert (ops + [op])[..i] == ops[..i];
  }

  lemma BlockedLast(d: Data, ops: seq<RowOp>, op: RowOp, origin: string, ts: int)
    requires forall n, id :: RowIn(Run(d, ops, origin, ts).data, n, id) == RowAfter(d, ops, n, id)
    ensures Blocked(d, ops + [op], |ops|) <==> Do(Run(d, ops, origin, ts).data, op, origin, ts).Threw?
  {
    var data := Run(d, ops, origin, ts).data;
    assert (ops + [op])[..|ops|] == ops;
    assert RowIn(data, op.n, op.id) == RowAfter(d, ops, op.n, op.id);
  }

  lemma BatchLast(d: Data, ops: seq<RowOp>, op: RowOp, origin: string, ts: int)
    requires Run(d, ops, origin, ts).error.None?
    requires forall n, id :: RowIn(Run(d, ops, origin, ts).data, n, id) == RowAfter(d, ops, n, id)
    ensures var did := Do(Run(d, ops, origin, ts).data, op, origin, ts);
            did.Did? ==> forall n, id :: RowIn(did.data, n, id) == RowAfter(d, ops + [op], n, id)
  {
    var data := Run(d, ops, origin, ts).data;
    assert (ops + [op])[..|ops|] == ops;
    if Do(data, op, origin, ts).Did? {
      forall n, id ensures RowIn(Do(data, op, origin, ts).data, n, id) == RowAfter(d, ops + [op], n, id) {
        DoEntry(data, op, origin, ts, n, id);
        assert RowIn(data, n, id) == RowAfter(d, ops, n, id);
      }
    }
  }

  ghost predicate NoneBlocked(d: Data, ops: seq<RowOp>) {
    forall i :: 0 <= i < |ops| ==> !Blocked(d, ops, i)
  }

  lemma NoneBlockedLast(d: Data, ops: seq<RowOp>, op: RowOp)
    ensures NoneBlocked(d, ops + [op]) <==> NoneBlocked(d, ops) && !Blocked(d, ops + [op], |ops|)
  {
    forall i | 0 <= i < |ops| ensures Blocked(d, ops + [op], i) <==> Blocked(d, ops, i) {
      BlockedEarlier(d, ops, op, i);
    }
  }

  lemma {:induction false} SucceedsIff(d: Data, ops: seq<RowOp>, origin: string, ts: int)
    ensures Run(d, ops, origin, ts).error.None? <==> NoneBlocked(d, ops)
    ensures Run(d, ops, origin, ts).error.None? ==>
              forall n, id :: RowIn(Run(d, ops, origin, ts).data, n, id) == RowAfter(d, ops, n, id)
  {
    if ops != [] {
      var init, op := ops[..|ops| - 1], ops[|ops| - 1];
      assert ops == init + [op];
      SucceedsIff(d, init, origin, ts);
      NoneBlockedLast(d, init, op);
      RunLast(d, init, op, origin, ts);
      if Run(d, init, origin, ts).error.None? {
        BlockedLast(d, init, op, origin, ts);
        BatchLast(d, init, op, origin, ts);
      }
    }
  }

  /** What an operation that is blocked is blamed for. */
  function Blame(op: RowOp): Error {
    if op.Insert? then Conflict(op.n, op.id) else NotFound(op.n, op.id)
  }

  lemma {:induction false} FirstBlocked(d: Data, ops: seq<RowOp>, origin: string, ts: int) returns (i: nat)
    requires Run(d, ops, origin, ts).error.Some?
    ensures i < |ops| && BlockedFirst(d, ops, i) && Run(d, ops, origin, ts).error == Some(Blame(ops[i]))
  {
    var init, op := ops[..|ops| - 1], ops[|ops| - 1];
    assert ops == init + [op];
    RunLast(d, init, op, origin, ts);
    if Run(d, init, origin, ts).error.Some? {
      i := FirstBlocked(d, init, origin, ts);
      forall j | 0 <= j < |init| ensures Blocked(d, ops, j) <==> Blocked(d, init, j) {
        BlockedEarlier(d, init, op, j);
      }
    } else {
      i := |init|;
      SucceedsIff(d, init, origin, ts);
      BlockedLast(d, init, op, origin, ts);
      forall j | 0 <= j < |init| ensures !Blocked(d, ops, j) {
        BlockedEarlier(d, init, op, j);
      }
    }
  }

  /**
   * A batch succeeds exactly if none of its operations is blocked, and leaves each key's row as the last operation on
   * it says; else it fails with a conflict or a missing row, whichever the first blocked operation meets.
   */
  lemma BatchIff(d: Data, ops: seq<RowOp>, origin: string, ts: int)
    ensures Run(d, ops, origin, ts).error.None? <==> forall i :: 0 <= i < |ops| ==> !Blocked(d, ops, i)
    ensures Run(d, ops, origin, ts).error.None? ==>
              forall n, id :: RowIn(Run(d, ops, origin, ts).data, n, id) == RowAfter(d, ops, n, id)
    ensures Run(d, ops, origin, ts).error.Some? ==> exists i ::
              0 <= i < |ops| && BlockedFirst(d, ops, i) && Run(d, ops, origin, ts).error == Some(Blame(ops[i]))
  {
    SucceedsIff(d, ops, origin, ts);
    if Run(d, ops, origin, ts).error.Some? {
      var i := FirstBlocked(d, ops, origin, ts);
    }
  }

  /** A batch that succeeds announces one change for each operation that did something, in order, under its origin. */
  lemma {:induction false} BatchTells(d: Data, ops: seq<RowOp>, origin: string, ts: int)
    requires Run(d, ops, origin, ts).error.None?
    ensures |Run(d, ops, origin, ts).changes| == |Doing(d, ops)|
    ensures forall k :: 0 <= k < |Doing(d, ops)| ==>
              Announces(Run(d, ops, origin, ts).changes[k], Doing(d, ops)[k], origin)
  {
    if ops != [] {
      var init, op := ops[..|ops| - 1], ops[|ops| - 1];
      BatchTells(d, init, origin, ts);
      BatchIff(d, init, origin, ts);
      assert RowIn(Run(d, init, origin, ts).data, op.n, op.id) == RowAfter(d, init, op.n, op.id);
    }
  }

  function Ids(t: Table): seq<string> {
    if t == [] then [] else Ids(t[..|t| - 1]) + [t[|t| - 1].id]
  }

  lemma {:induction false} ReplaceKeepsIds(t: Table, id: string, e: Entry)
    ensures Ids(Replace(t, id, e)) == Ids(t)
  {
    if t != [] {
      var init, last := t[..|t| - 1], t[|t| - 1];
      ReplaceKeepsIds(init, id, e);
      Snoc(Replace(init, id, e), if last.id == id then Pair(id, e) else last);
    }
  }

  lemma {:induction false} DropTakesId(t: Table, id: string)
    ensures Ids(Drop(t, id)) == Filter(Ids(t), x => x != id)
  {
    if t != [] {
      var init, last := t[..|t| - 1], t[|t| - 1];
      DropTakesId(init, id);
      Snoc(Drop(init, id), last);
      FilterConcat(Ids(init), [last.id], x => x != id);
    }
  }

  /** Where rows are listed: an insert goes last, an update stays in place, a deletion closes the gap. */
  lemma DoPlaces(d: Data, op: RowOp, origin: string, ts: int, did: Did, n: string)
    requires did == Do(d, op, origin, ts) && did.Did?
    ensures Ids(TableIn(did.data, n)) ==
            if n != op.n || op.Update? then Ids(TableIn(d, n))
            else if op.Insert? then Ids(TableIn(d, n)) + [op.id]
            else Filter(Ids(TableIn(d, n)), x => x != op.id)
  {
    if n == op.n {
      var t := TableIn(d, n);
      match op
      case Insert(_, _, row) => Snoc(t, Pair(op.id, Entry(row, ts, ts)));
      case Update(_, _, row) => ReplaceKeepsIds(t, op.id, Entry(row, Lookup(t, op.id).value.createdAt, ts));
      case Delete(_, _) =>
        DropTakesId(t, op.id);
        if !Has(t, op.id) {
          DropAbsent(t, op.id);
        }
    }
  }

  // ---- the store ----

  datatype Condition = Condition(n: string, id: string, filter: Expr)

  predicate Meets(fold: CaseFold, d: Data, c: Condition) {
    var row := RowIn(d, c.n, c.id);
    row.Some? && Eval(fold, c.filter, row.value)
  }

  class MemoryCollections {
    var data: Data
    /** Every change the listeners were called with, in order. */
    var heard: seq<Change>

    constructor ()
      ensures data == map[] && heard == [] && Valid(data)
    {
      data, heard := map[], [];
    }

    /** Applies a batch, or undoes as much of it as was done. */
    method Apply(ops: seq<RowOp>, origin: string, ts: int) returns (r: Result<seq<Change>>)
      requires Valid(data)
      modifies this
      ensures Valid(data)
      ensures var ran := Run(old(data), ops, origin, ts);
              match r
              case Ok(changes) => ran.error.None? && data == ran.data && changes == ran.changes &&
                heard == old(heard) + changes
              case Err(e) => ran.error == Some(e) && heard == old(heard) && data == Unwind(ran.data, ran.undo)
      ensures r.Err? ==> forall n, id :: Lookup(TableIn(data, n), id) == Lookup(TableIn(old(data), n), id)
    {
      var undo: seq<Undo>, changes: seq<Change> := [], [];
      ghost var before, ran := data, Run(data, ops, origin, ts);
      RunValid(data, ops, origin, ts);
      var i := 0;
      while i < |ops|
        invariant 0 <= i <= |ops| && heard == old(heard)
        invariant Run(before, ops[..i], origin, ts) == Ran(data, undo, changes, None)
        invariant i == 0 ==> data == before
      {
        var op := ops[i];
        assert ops[..i + 1][..i] == ops[..i];
        var t := TableIn(data, op.n);
        var prev := Lookup(t, op.id);
        match op {
          case Insert(n, id, row) =>
            if prev.Some? {
              StopsAt(before, ops, origin, ts, i);
              Fail(undo);
              FailedRows(before, ops, origin, ts);
              return Err(Conflict(n, id));
            }
            data := data[n := Put(t, id, Entry(row, ts, ts))];
            undo := undo + [TakeOut(n, id)];
            changes := changes + [Change(n, id, None, Some(row), origin)];
          case Update(n, id, row) =>
            if prev.None? {
              StopsAt(before, ops, origin, ts, i);
              Fail(undo);
              FailedRows(before, ops, origin, ts);
              return Err(NotFound(n, id));
            }
            data := data[n := Put(t, id, Entry(row, prev.value.createdAt, ts))];
            undo := undo + [SetBack(n, id, prev.value)];
            changes := changes + [Change(n, id, Some(prev.value.row), Some(row), origin)];
          case Delete(n, id) =>
            data := data[n := Drop(t, id)];
            if prev.Some? {
              undo := undo + [SetBack(n, id, prev.value)];
              changes := changes + [Change(n, id, Some(prev.value.row), None, origin)];
            } else {
              DropAbsent(t, id);
            }
        }
        i := i + 1;
      }
      assert ops[..i] == ops;
      heard := heard + changes;
      return Ok(changes);
    }

    /** Unwinds the undo log from its end. */
    method Fail(undo: seq<Undo>)
      modifies this`data
      ensures data == Unwind(old(data), undo)
    {
      var left := undo;
      while left != []
        invariant Unwind(data, left) == Unwind(old(data), undo)
        decreases |left|
      {
        data := ApplyUndo(data, left[|left| - 1]);
        left := left[..|left| - 1];
      }
    }

    /** Applies a batch only where every condition still holds; otherwise nothing happens at all. */
    method ConditionalApply(fold: CaseFold, conditions: seq<Condition>, ops: seq<RowOp>, origin: string,
                            ts: int) returns (r: Result<bool>)
      requires Valid(data)
      modifies this
      ensures Valid(data)
      ensures r == Ok(false) <==> exists c :: c in conditions && !Meets(fold, old(data), c)
      ensures r == Ok(false) ==> data == old(data) && heard == old(heard)
      ensures r == Ok(true) ==>
                Run(old(data), ops, origin, ts).error.None? && data == Run(old(data), ops, origin, ts).data
                                && heard == old(heard) + Run(old(data), ops, origin, ts).changes
      ensures r.Err? ==> heard == old(heard)
      ensures r.Err? ==> forall n, id :: Lookup(TableIn(data, n), id) == Lookup(TableIn(old(data), n), id)
    {
      for i := 0 to |conditions|
        invariant forall j :: 0 <= j < i ==> Meets(fold, data, conditions[j])
      {
        if !Meets(fold, data, conditions[i]) {
          return Ok(false);
        }
      }
      var applied := Apply(ops, origin, ts);
      r := if applied.Ok? then Ok(true) else Err(applied.error);
    }
  }

  /** A batch that throws at one operation stands as the operations before it left it. */
  lemma {:induction false} StopsAt(d: Data, ops: seq<RowOp>, origin: string, ts: int, i: nat)
    requires i < |ops| && Run(d, ops[..i], origin, ts).error.None?
    requires Do(Run(d, ops[..i], origin, ts).data, ops[i], origin, ts).Threw?
    ensures Run(d, ops, origin, ts) ==
            var r := Run(d, ops[..i], origin, ts);
            r.(error := Some(Do(r.data, ops[i], origin, ts).error))
    decreases |ops|
  {
    var n := |ops| - 1;
    if i < n {
      assert ops[..n][..i] == ops[..i];
      StopsAt(d, ops[..n], origin, ts, i);
    }
  }

  lemma FailedRows(d: Data, ops: seq<RowOp>, origin: string, ts: int)
    requires Valid(d)
    ensures var r := Run(d, ops, origin, ts); var back := Unwind(r.data, r.undo);
            Valid(back) && forall n, id :: Lookup(TableIn(back, n), id) == Lookup(TableIn(d, n), id)
  {
    var r := Run(d, ops, origin, ts);
    RunValid(d, ops, origin, ts);
    UnwindValid(r.data, r.undo);
    forall n, id ensures Lookup(TableIn(Unwind(r.data, r.undo), n), id) == Lookup(TableIn(d, n), id) {
      UnwindRestores(d, ops, origin, ts, n);
      RestoredLookup(TableIn(d, n), Deleted(r.changes, n), id);
    }
  }

  lemma {:induction false} UnwindValid(d: Data, undo: seq<Undo>)
    requires Valid(d)
    ensures Valid(Unwind(d, undo))
    decreases |undo|
  {
    if undo != [] {
      var u := undo[|undo| - 1];
      DropDistinct(TableIn(d, u.n), u.id);
      if u.SetBack? {
        PutDistinct(TableIn(d, u.n), u.id, u.entry);
      }
      UnwindValid(ApplyUndo(d, u), undo[..|undo| - 1]);
    }
  }
}
