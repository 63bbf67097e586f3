/**
 * A way to tell from a batch's steps that it is orderly, and four batches whose answers miss a change: a trigger that
 * takes a row away before its entry lands, a key changed within its collation, a trigger that raises IGNORE, and a
 * column dropped and added back.
 */
module LogCases {
  import opened Options
  import opened RemoteData
  import opened ChangeLog
  import opened Batches
  import opened LogExactness

  // ---- batches whose steps are in order ----

  /** The writes whose entries have still to land. */
  function Owed(steps: seq<Step>): set<RowOp> {
    if steps == [] then {}
    else
      var before, s := Owed(steps[..|steps| - 1]), steps[|steps| - 1];
      if s.Write? then before + {s.op} else if s.Land? then before - {s.op} else before
  }

  /**
   * Nothing since the write changed whether its rows are there, and the collation tells a changed key from the old one.
   */
  predicate LandsTrue(db: Db, op: RowOp) {
    && op.table in db.tables
    && var t := db.tables[op.table];
    match op {
      case Insert(_, id, _) => id in t.rows
      case Remove(_, id) => id !in t.rows
      case Update(_, id, newId, _) =>
        newId in t.rows && (id == newId || (id !in t.rows && Canon(t.collation, id) != Canon(t.collation, newId)))
    }
  }

  /** Entries land true, and the schema changes only between statements. */
  predicate StepSettles(db: Db, owed: set<RowOp>, s: Step) {
    if s.Write? then true else if s.Land? then LandsTrue(db, s.op) else owed == {}
  }

  predicate Settled(start: Db, steps: seq<Step>) {
    steps != [] ==>
      var init := steps[..|steps| - 1];
      && Settled(start, init) && ExecAll(start, init).Some?
      && StepSettles(ExecAll(start, init).value, Owed(init), steps[|steps| - 1])
  }

  /** What row `id` of the table under `t` has of its own in the log is right, or still to land. */
  ghost predicate RightOrOwed(db: Db, a: Account, owed: set<RowOp>, t: string, id: string) {
    t in db.tables && db.tables[t].logsAs.Some? ==>
      var k := Key(db.tables[t].logsAs.value, id);
      k in a.wrote || k in a.landed ==>
        || (k in a.landed && a.landed[k] == Some(if id in db.tables[t].rows then PutOp else DeleteOp))
        || (exists op :: op in owed && op.table == t && k in OpKeys(k.table, op))
  }

  lemma WriteSettles(db: Db, a: Account, owed: set<RowOp>, op: RowOp, next: Db, t: string, id: string)
    requires Exec(db, Write(op)) == Some(next) && OneTablePerName(db.tables)
    requires RightOrOwed(db, a, owed, t, id)
    ensures RightOrOwed(next, Tally(db, a, Write(op)), owed + {op}, t, id)
  {
    if t in db.tables && db.tables[t].logsAs.Some? {
      var k := Key(db.tables[t].logsAs.value, id);
      if op.table == t && k in OpKeys(k.table, op) {
        assert op in owed + {op};
      } else if op.table == t {
        WrittenElsewhere(db.tables[t], op, id);
      }
    }
  }

  lemma LandSettles(db: Db, a: Account, owed: set<RowOp>, op: RowOp, next: Db, t: string, id: string)
    requires Exec(db, Land(op)) == Some(next) && OneTablePerName(db.tables) && LandsTrue(db, op)
    requires RightOrOwed(db, a, owed, t, id)
    ensures RightOrOwed(next, Tally(db, a, Land(op)), owed - {op}, t, id)
  {
    if t in db.tables && db.tables[t].logsAs.Some? {
      var k := Key(db.tables[t].logsAs.value, id);
      if k !in a.wrote && k !in a.landed {
      } else if !(k in a.landed && a.landed[k] == Some(if id in db.tables[t].rows then PutOp else DeleteOp)) {
        var o :| o in owed && o.table == t && k in OpKeys(k.table, o);
        assert o == op || o in owed - {op};
      }
    }
  }

  lemma SchemaSettles(db: Db, a: Account, s: Step, next: Db, t: string, id: string)
    requires Exec(db, s) == Some(next) && !s.Write? && !s.Land?
    requires RightOrOwed(db, a, {}, Was(s, t), id)
    ensures RightOrOwed(next, Tally(db, a, s), {}, t, id)
  {
    if t in next.tables && next.tables[t].logsAs.Some? {
      TableCameFrom(db, s, next, t);
    }
  }

  lemma {:induction false} SettledSoFar(start: Db, steps: seq<Step>, t: string, id: string)
    requires Shaped(start) && ExecAll(start, steps).Some? && Settled(start, steps)
    ensures RightOrOwed(ExecAll(start, steps).value, TallyAll(start, steps), Owed(steps), t, id)
  {
    if steps != [] {
      var init, s := steps[..|steps| - 1], steps[|steps| - 1];
      var db, a, next := ExecAll(start, init).value, TallyAll(start, init), ExecAll(start, steps).value;
      BatchFollows(start, init);
      SettledSoFar(start, init, Was(s, t), id);
      if s.Write? {
        WriteSettles(db, a, Owed(init), s.op, next, t, id);
      } else if s.Land? {
        LandSettles(db, a, Owed(init), s.op, next, t, id);
      } else {
        SchemaSettles(db, a, s, next, t, id);
      }
    }
  }

  /**
   * A batch is orderly where every entry lands, and none lands after a nested step changed whether its row is there or
   * for a key its collation cannot tell from the old one.
   */
  lemma SettledIsOrderly(start: Db, steps: seq<Step>, db: Db, a: Account)
    requires Shaped(start) && ExecAll(start, steps) == Some(db) && a == TallyAll(start, steps)
    requires Settled(start, steps) && Owed(steps) == {}
    ensures Orderly(start, db, a)
  {
    BatchFollows(start, steps);
    forall k | (k in a.wrote || k in a.landed) && k.table !in LostTables(start.tables, db) ensures Told(db, a, k) {
      assert OfTracked(start, a, k);
      TrackedInside(start, db, a, k.table);
      SettledSoFar(start, steps, k.table, k.id);
      VisibleLook(db.tables, k);
    }
  }

  // ---- four batches that are told wrong ----

  /** A source of one table `t`, tracked, with these rows. */
  function OneTable(c: Collation, rows: map<string, Data>, log: Log): Db {
    Db(map["t" := Table("id, c", true, c, Some("t"), rows)], log, 0, 0)
  }

  lemma OneTableSane(c: Collation, rows: map<string, Data>, cap: nat)
    ensures Sane(OneTable(c, rows, map[]), cap)
  {
    assert AllMarkers(map[]) == {};
  }

  /** Where a batch on one table has got to: its rows, its log and its account. */
  ghost predicate At(start: Db, steps: seq<Step>, c: Collation, rows: map<string, Data>, log: Log, a: Account) {
    ExecAll(start, steps) == Some(OneTable(c, rows, log)) && TallyAll(start, steps) == a
  }

  lemma Wrote(start: Db, steps: seq<Step>, c: Collation, rows: map<string, Data>, log: Log, a: Account, op: RowOp)
    requires At(start, steps, c, rows, log, a) && op.table == "t"
    requires Written(OneTable(c, rows, log).tables["t"], op).Some?
    ensures At(start, steps + [Write(op)], c, Written(OneTable(c, rows, log).tables["t"], op).value, log,
               a.(wrote := a.wrote + OpKeys("t", op)))
  {
    var db := OneTable(c, rows, log);
    var rows' := Written(db.tables["t"], op).value;
    assert (steps + [Write(op)])[..|steps|] == steps;
    assert WithRows(db.tables, "t", rows') == OneTable(c, rows', log).tables;
  }

  lemma Logged(start: Db, steps: seq<Step>, c: Collation, rows: map<string, Data>, log: Log, a: Account, op: RowOp)
    requires At(start, steps, c, rows, log, a) && op.table == "t"
    ensures At(start, steps + [Land(op)], c, rows, Landed(log, "t", c, 0, op),
               a.(landed := LandedOn(a.landed, "t", c, op)))
  {
    assert (steps + [Land(op)])[..|steps|] == steps;
  }

  lemma Altered(start: Db, steps: seq<Step>, c: Collation, rows: map<string, Data>, log: Log, a: Account, s: Step)
    requires At(start, steps, c, rows, log, a) && s.Alter? && s.table == "t" && s.rows.Keys == rows.Keys
    ensures ExecAll(start, steps + [s]) ==
              Some(OneTable(c, s.rows, log).(tables := map["t" := Table(s.columns, true, c, Some("t"), s.rows)]))
    ensures TallyAll(start, steps + [s]) == a.(altered := a.altered + {"t"})
  {
    assert (steps + [s])[..|steps|] == steps;
    var db := OneTable(c, rows, log);
    assert db.tables["t" := Table(s.columns, true, c, Some("t"), s.rows)] ==
      map["t" := Table(s.columns, true, c, Some("t"), s.rows)];
  }

  lemma SameShapeSkips(c: Collation, rows: map<string, Data>, log: Log, rows': map<string, Data>, log': Log)
    ensures SyncSkipped(OneTable(c, rows, log).tables, OneTable(c, rows', log'))
  {
    assert Signature(OneTable(c, rows, log).tables) == Signature(OneTable(c, rows', log').tables);
  }

  /** A batch that leaves no delete marker, changed no schema and gets one key wrong is not told whole. */
  lemma MissedIsUntold(start: Db, steps: seq<Step>, cap: nat, db: Db, a: Account, k: Key) returns (after: Db)
    requires Sane(start, cap) && ExecAll(start, steps) == Some(db) && a == TallyAll(start, steps)
    requires SyncSkipped(start.tables, db) && AllMarkers(db.log) == {} && Missed(start, db, a, k)
    ensures Outcome(start, steps, cap, db, after) && after.historyStartsAt <= start.clock && !TellsAll(start, after)
  {
    CommitShaped(start, steps, db, cap);
    BatchFollows(start, steps);
    after := Committed(start.tables, db, cap);
    TellsAllIff(start, steps, cap, db, a, after);
  }

  /** A row is deleted and inserted anew, and the table's own trigger on the insert deletes it again. */
  function NestedDelete(out: RowOp, back: RowOp): seq<Step> {
    [Write(out), Land(out), Write(back), Write(out), Land(out), Land(back)]
  }

  const EMPTY: map<string, Data> := map[]

  lemma NestedRows(id: string, x: Data, y: Data)
    ensures map[id := x] - {id} == EMPTY && map[id := y] - {id} == EMPTY && EMPTY[id := y] == map[id := y]
  {
  }

  lemma NestedLogs(k: Key, out: RowOp, back: RowOp)
    requires out == Remove("t", k.id) && k.table == "t" && back.Insert? && back.id == k.id
    ensures var gone := map[k := Entry(1, DeleteOp)];
            && Landed(map[], "t", Binary, 0, out) == gone == Landed(gone, "t", Binary, 0, out)
            && Landed(gone, "t", Binary, 0, back) == map[k := Entry(1, PutOp)]
    ensures var told := map[k := Some(DeleteOp)];
            && LandedOn(map[], "t", Binary, out) == told == LandedOn(told, "t", Binary, out)
            && LandedOn(told, "t", Binary, back) == map[k := Some(PutOp)]
    ensures OpKeys("t", out) == {k} == OpKeys("t", back)
  {
  }

  lemma NestedFirstHalf(start: Db, s: seq<Step>, k: Key, x: Data, log: Log, out: RowOp, back: RowOp)
    requires out == Remove("t", k.id) && k.table == "t" && back.Insert? && back.id == k.id && back.table == "t"
    requires log == map[k := Entry(1, DeleteOp)] && At(start, s, Binary, map[k.id := x], map[], NOTHING)
    ensures At(start, s + [Write(out)] + [Land(out)] + [Write(back)], Binary, map[k.id := back.data], log,
               Account({k}, {}, map[k := Some(DeleteOp)]))
  {
    NestedRows(k.id, x, back.data);
    NestedLogs(k, out, back);
    Wrote(start, s, Binary, map[k.id := x], map[], NOTHING, out);
    Logged(start, s + [Write(out)], Binary, EMPTY, map[], Account({k}, {}, map[]), out);
    Wrote(start, s + [Write(out)] + [Land(out)], Binary, EMPTY, log, Account({k}, {}, map[k := Some(DeleteOp)]), back);
  }

  lemma NestedSecondHalf(start: Db, s: seq<Step>, k: Key, y: Data, log: Log, a: Account, out: RowOp, back: RowOp)
    requires out == Remove("t", k.id) && k.table == "t" && back.Insert? && back.id == k.id && back.table == "t"
    requires log == map[k := Entry(1, DeleteOp)] && a == Account({k}, {}, map[k := Some(DeleteOp)])
    requires At(start, s, Binary, map[k.id := y], log, a)
    ensures At(start, s + [Write(out)] + [Land(out)] + [Land(back)], Binary, EMPTY, map[k := Entry(1, PutOp)],
               Account({k}, {}, map[k := Some(PutOp)]))
  {
    NestedRows(k.id, y, y);
    NestedLogs(k, out, back);
    Wrote(start, s, Binary, map[k.id := y], log, a, out);
    Logged(start, s + [Write(out)], Binary, EMPTY, log, a, out);
    Logged(start, s + [Write(out)] + [Land(out)], Binary, EMPTY, log, a, back);
  }

  lemma NestedRuns(start: Db, k: Key, x: Data, y: Data, out: RowOp, back: RowOp)
    requires k.table == "t" && start == OneTable(Binary, map[k.id := x], map[])
    requires out == Remove("t", k.id) && back == Insert("t", k.id, y)
    ensures At(start, NestedDelete(out, back), Binary, EMPTY, map[k := Entry(1, PutOp)],
               Account({k}, {}, map[k := Some(PutOp)]))
  {
    var half := [Write(out), Land(out), Write(back)];
    NestedFirstHalf(start, [], k, x, map[k := Entry(1, DeleteOp)], out, back);
    assert [] + [Write(out)] + [Land(out)] + [Write(back)] == half;
    NestedSecondHalf(start, half, k, y, map[k := Entry(1, DeleteOp)], Account({k}, {}, map[k := Some(DeleteOp)]), out,
                     back);
    assert half + [Write(out)] + [Land(out)] + [Land(back)] == NestedDelete(out, back);
  }

  /**
   * A trigger of the table's own removes a row just inserted: it runs first, so the insert's entry lands last, as a put
   * of a row that is not there, and the delete of the row that was there before is not told.
   */
  lemma NestedDeleteExample(id: string, x: Data, y: Data, cap: nat) returns (after: Db)
    ensures
      var start, out, back := OneTable(Binary, map[id := x], map[]), Remove("t", id), Insert("t", id, y);
      && Sane(start, cap) && after.historyStartsAt <= start.clock
      && Outcome(start, NestedDelete(out, back), cap, OneTable(Binary, EMPTY, map[Key("t", id) := Entry(1, PutOp)]),
                 after)
      && !TellsAll(start, after)
  {
    var k, out, back := Key("t", id), Remove("t", id), Insert("t", id, y);
    var log, start := map[k := Entry(1, PutOp)], OneTable(Binary, map[id := x], map[]);
    OneTableSane(Binary, map[id := x], cap);
    NestedRuns(start, k, x, y, out, back);
    SameShapeSkips(Binary, map[id := x], map[], EMPTY, log);
    VisibleLook(start.tables, k);
    after := MissedIsUntold(start, NestedDelete(out, back), cap, OneTable(Binary, EMPTY, log),
                            Account({k}, {}, map[k := Some(PutOp)]), k);
  }

  lemma CaseChangeFacts(x: Data, y: Data, op: RowOp)
    requires op == Update("t", "A", "a", y)
    ensures Written(OneTable(NoCase, map["A" := x], map[]).tables["t"], op) == Some(map["a" := y])
    ensures Landed(map[], "t", NoCase, 0, op) == map[Key("t", "a") := Entry(1, PutOp)]
    ensures LandedOn(map[], "t", NoCase, op) == map[Key("t", "A") := None, Key("t", "a") := Some(PutOp)]
    ensures OpKeys("t", op) == {Key("t", "A"), Key("t", "a")}
  {
    assert Canon(NoCase, "A") == Canon(NoCase, "a");
    assert (map["A" := x] - {"A"})["a" := y] == map["a" := y];
  }

  lemma CaseChangeRuns(start: Db, s: seq<Step>, x: Data, y: Data, op: RowOp)
    requires op == Update("t", "A", "a", y) && At(start, s, NoCase, map["A" := x], map[], NOTHING)
    ensures At(start, s + [Write(op)] + [Land(op)], NoCase, map["a" := y], map[Key("t", "a") := Entry(1, PutOp)],
               Account({Key("t", "A"), Key("t", "a")}, {}, map[Key("t", "A") := None, Key("t", "a") := Some(PutOp)]))
  {
    CaseChangeFacts(x, y, op);
    Wrote(start, s, NoCase, map["A" := x], map[], NOTHING, op);
    Logged(start, s + [Write(op)], NoCase, map["a" := y], map[], Account({Key("t", "A"), Key("t", "a")}, {}, map[]),
           op);
  }

  /**
   * A key changed only in case, in a NOCASE column, is logged as a put of the new one alone: the old one is not told.
   */
  lemma CaseChangeExample(x: Data, y: Data, cap: nat) returns (after: Db)
    ensures
      var start, op := OneTable(NoCase, map["A" := x], map[]), Update("t", "A", "a", y);
      && Sane(start, cap) && after.historyStartsAt <= start.clock
      && Outcome(start, [Write(op), Land(op)], cap,
                 OneTable(NoCase, map["a" := y], map[Key("t", "a") := Entry(1, PutOp)]), after)
      && !TellsAll(start, after)
  {
    var start, op, k := OneTable(NoCase, map["A" := x], map[]), Update("t", "A", "a", y), Key("t", "A");
    var log := map[Key("t", "a") := Entry(1, PutOp)];
    OneTableSane(NoCase, map["A" := x], cap);
    CaseChangeRuns(start, [], x, y, op);
    assert [] + [Write(op)] + [Land(op)] == [Write(op), Land(op)];
    SameShapeSkips(NoCase, map["A" := x], map[], map["a" := y], log);
    VisibleLook(start.tables, k);
    VisibleLook(OneTable(NoCase, map["a" := y], log).tables, k);
    after := MissedIsUntold(start, [Write(op), Land(op)], cap, OneTable(NoCase, map["a" := y], log),
                            Account({k, Key("t", "a")}, {}, map[k := None, Key("t", "a") := Some(PutOp)]), k);
  }

  /** A trigger that raises IGNORE after a delete keeps its entry from landing: nothing is logged and no clock moves. */
  lemma IgnoredDeleteExample(id: string, x: Data, cap: nat) returns (after: Db)
    ensures
      var start, op := OneTable(Binary, map[id := x], map[]), Remove("t", id);
      && Sane(start, cap) && after.historyStartsAt <= start.clock
      && Outcome(start, [Write(op)], cap, OneTable(Binary, map[], map[]), after)
      && !Bumps(start.tables, OneTable(Binary, map[], map[])) && !TellsAll(start, after)
  {
    var start, op, k := OneTable(Binary, map[id := x], map[]), Remove("t", id), Key("t", id);
    var none: map<string, Data> := map[];
    OneTableSane(Binary, map[id := x], cap);
    assert map[id := x] - {id} == none;
    assert At(start, [], Binary, map[id := x], map[], NOTHING);
    Wrote(start, [], Binary, map[id := x], map[], NOTHING, op);
    SameShapeSkips(Binary, map[id := x], map[], none, map[]);
    VisibleLook(start.tables, k);
    after := MissedIsUntold(start, [Write(op)], cap, OneTable(Binary, none, map[]), Account({k}, {}, map[]), k);
  }

  lemma DropAndAddRuns(start: Db, x: Data, first: Step, second: Step)
    requires start == OneTable(Binary, map["a" := x], map[]) && first.Alter? && second.Alter?
    requires first.table == "t" == second.table && first.rows.Keys == {"a"} && second.columns == "id, c"
    requires second.rows.Keys == {"a"}
    ensures ExecAll(start, [first] + [second]) == Some(OneTable(Binary, second.rows, map[]))
    ensures TallyAll(start, [first] + [second]) == Account({}, {"t"}, map[])
  {
    assert At(start, [], Binary, map["a" := x], map[], NOTHING);
    Altered(start, [], Binary, map["a" := x], map[], NOTHING, first);
    assert [] + [first] == [first] && ([first] + [second])[..1] == [first];
    var t := Table(first.columns, true, Binary, Some("t"), first.rows);
    assert map["t" := t]["t" := t.(columns := "id, c", rows := second.rows)] ==
      OneTable(Binary, second.rows, map[]).tables;
  }

  /** Dropping a column and adding it back empties it on every row, and the batch moves no clock. */
  lemma HiddenAlterExample(x: Data, dropped: Data, readded: Data, cap: nat) returns (after: Db)
    requires readded != x
    ensures
      var start, end := OneTable(Binary, map["a" := x], map[]), OneTable(Binary, map["a" := readded], map[]);
      var first, second := Alter("t", "id", map["a" := dropped]), Alter("t", "id, c", map["a" := readded]);
      && Sane(start, cap) && after.historyStartsAt <= start.clock
      && Outcome(start, [first] + [second], cap, end, after) && !Bumps(start.tables, end) && !TellsAll(start, after)
  {
    var k, start, end := Key("t", "a"), OneTable(Binary, map["a" := x], map[]),
      OneTable(Binary, map["a" := readded], map[]);
    var first, second := Alter("t", "id", map["a" := dropped]), Alter("t", "id, c", map["a" := readded]);
    OneTableSane(Binary, map["a" := x], cap);
    DropAndAddRuns(start, x, first, second);
    SameShapeSkips(Binary, map["a" := x], map[], map["a" := readded], map[]);
    VisibleLook(start.tables, k);
    VisibleLook(end.tables, k);
    after := MissedIsUntold(start, [first] + [second], cap, end, Account({}, {"t"}, map[]), k);
  }
}
