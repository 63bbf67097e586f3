/**
 * Exactly when the answer from just before a batch tells the whole of it, and the ways a batch can keep it from doing
 * so: a trigger that undoes a row before its entry lands, a key changed within its collation, an ALTER no one sees.
 */
module LogExactness {
  import opened Options
  import opened RemoteData
  import opened ChangeLog
  import opened Batches

  // ---- the answer, key by key ----

  /** `db` is what the steps leave and `after` what the commit makes of it. */
  ghost predicate Outcome(start: Db, steps: seq<Step>, cap: nat, db: Db, after: Db) {
    ExecAll(start, steps) == Some(db) && ClocksBounded(Bumped(start.tables, db)) &&
      after == Committed(start.tables, db, cap)
  }

  /** The answer from just before the batch takes the rows from before it to the rows after it. */
  ghost predicate TellsAll(start: Db, after: Db) {
    Patch(Visible(start.tables), DeltaSince(after, start.clock)) == Visible(after.tables)
  }

  /** The last entry of the batch for a key says the row is gone. */
  ghost predicate ToldGone(a: Account, k: Key) {
    k in a.landed && a.landed[k] == Some(DeleteOp)
  }

  /** A key the answer gets wrong: told gone and there, or not told and not as it was. */
  ghost predicate Missed(start: Db, db: Db, a: Account, k: Key) {
    && !Told(db, a, k) && !NewRow(db.tables, k)
    && (ToldGone(a, k) || Look(Visible(start.tables), k) != Look(Visible(db.tables), k))
  }

  lemma CommitKeepsVisible(before: Tables, db: Db, cap: nat, after: Db)
    requires ClocksBounded(Bumped(before, db)) && after == Committed(before, db, cap)
    ensures Visible(after.tables) == Visible(db.tables)
  {
    assert after.tables == SyncedDb(before, db).tables;
    SyncKeepsVisible(before, db);
  }

  /** Where the history does not start anew, the commit keeps the entries of the batch. */
  lemma LateEntry(start: Db, db: Db, cap: nat, after: Db, k: Key)
    requires ClocksBounded(Bumped(start.tables, db)) && after == Committed(start.tables, db, cap)
    requires db.clock == start.clock && after.historyStartsAt <= start.clock
    ensures k in after.log ==> k in SyncedDb(start.tables, db).log && after.log[k] == SyncedDb(start.tables, db).log[k]
    ensures k in SyncedDb(start.tables, db).log && SyncedDb(start.tables, db).log[k].clock > start.clock ==>
              k in after.log
  {
  }

  /** What the batch logged of a key, if the history is unbroken. */
  lemma EntryOfBatch(start: Db, db: Db, a: Account, k: Key)
    requires Mid(start, db, a) && LostTables(start.tables, db) == {}
    ensures var log' := SyncedDb(start.tables, db).log;
            k in log' && log'[k].clock > start.clock <==> NewRow(db.tables, k) || (k in a.landed && a.landed[k].Some?)
    ensures var log' := SyncedDb(start.tables, db).log;
            k in log' && log'[k].clock > start.clock ==>
              log'[k].op == if NewRow(db.tables, k) then PutOp else a.landed[k].value
  {
    SyncLogEntry(db, SyncSkipped(start.tables, db), {}, k);
    assert EntryFollowed(start, db, a, k) && OfTracked(start, a, k);
    if SyncSkipped(start.tables, db) {
      NoNewRows(start, db, k);
    }
  }

  lemma PatchAt(rows: Rows, d: Delta, k: Key)
    ensures Look(Patch(rows, d), k) == if k in d then d[k] else Look(rows, k)
  {
  }

  /** What the answer says of a key. */
  lemma DeltaAt(start: Db, db: Db, a: Account, cap: nat, after: Db, k: Key)
    requires Mid(start, db, a) && LostTables(start.tables, db) == {}
    requires ClocksBounded(Bumped(start.tables, db)) && after == Committed(start.tables, db, cap)
    requires after.historyStartsAt <= start.clock
    ensures var d := DeltaSince(after, start.clock);
            if NewRow(db.tables, k) || Told(db, a, k) then k in d && d[k] == Look(Visible(db.tables), k)
            else if ToldGone(a, k) then k in d && d[k].None?
            else k !in d
  {
    CommitKeepsVisible(start.tables, db, cap, after);
    LateEntry(start, db, cap, after, k);
    EntryOfBatch(start, db, a, k);
    VisibleLook(db.tables, k);
  }

  lemma AnswerAt(start: Db, db: Db, a: Account, cap: nat, after: Db, k: Key)
    requires Mid(start, db, a) && LostTables(start.tables, db) == {}
    requires ClocksBounded(Bumped(start.tables, db)) && after == Committed(start.tables, db, cap)
    requires after.historyStartsAt <= start.clock
    ensures Look(Patch(Visible(start.tables), DeltaSince(after, start.clock)), k) == Look(Visible(db.tables), k)
            <==> !Missed(start, db, a, k)
  {
    DeltaAt(start, db, a, cap, after, k);
    PatchAt(Visible(start.tables), DeltaSince(after, start.clock), k);
    VisibleLook(db.tables, k);
  }

  lemma UnwipedLosesNothing(start: Db, db: Db, cap: nat, after: Db)
    requires ClocksBounded(Bumped(start.tables, db)) && after == Committed(start.tables, db, cap)
    requires db.clock == start.clock && after.historyStartsAt <= start.clock
    ensures LostTables(start.tables, db) == {}
  {
    if Broken(start.tables, db) {
      assert Bumps(start.tables, db);
    }
    UnbrokenLosesNothing(start.tables, db);
  }

  lemma RightEverywhere(told: Rows, now: Rows, start: Db, db: Db, a: Account)
    requires forall k :: Look(told, k) == Look(now, k) <==> !Missed(start, db, a, k)
    ensures told == now <==> forall k :: !Missed(start, db, a, k)
  {
    if forall k :: !Missed(start, db, a, k) {
      forall k ensures Look(told, k) == Look(now, k) {
        assert !Missed(start, db, a, k);
      }
      LookExtensional(told, now);
    }
  }

  lemma AnswersRight(start: Db, db: Db, a: Account, cap: nat, after: Db)
    requires Mid(start, db, a) && LostTables(start.tables, db) == {}
    requires ClocksBounded(Bumped(start.tables, db)) && after == Committed(start.tables, db, cap)
    requires after.historyStartsAt <= start.clock
    ensures TellsAll(start, after) <==> forall k :: !Missed(start, db, a, k)
  {
    var told := Patch(Visible(start.tables), DeltaSince(after, start.clock));
    CommitKeepsVisible(start.tables, db, cap, after);
    forall k ensures Look(told, k) == Look(Visible(db.tables), k) <==> !Missed(start, db, a, k) {
      AnswerAt(start, db, a, cap, after, k);
    }
    RightEverywhere(told, Visible(db.tables), start, db, a);
  }

  /** The answer tells all of a batch if and only if it gets no key wrong. */
  lemma TellsAllIff(start: Db, steps: seq<Step>, cap: nat, db: Db, a: Account, after: Db)
    requires Shaped(start) && Outcome(start, steps, cap, db, after) && after.historyStartsAt <= start.clock
    requires a == TallyAll(start, steps)
    ensures TellsAll(start, after) <==> forall k :: !Missed(start, db, a, k)
  {
    BatchFollows(start, steps);
    UnwipedLosesNothing(start, db, cap, after);
    AnswersRight(start, db, a, cap, after);
  }

  /** Of an orderly batch, the answer tells all if and only if no ALTER hid a changed row. */
  lemma OrderlyCompleteIff(start: Db, steps: seq<Step>, cap: nat, db: Db, a: Account, after: Db)
    requires Shaped(start) && Outcome(start, steps, cap, db, after) && after.historyStartsAt <= start.clock
    requires a == TallyAll(start, steps) && Orderly(start, db, a)
    ensures TellsAll(start, after) <==> NoHiddenAlter(start, db, a)
  {
    TellsAllIff(start, steps, cap, db, a, after);
    BatchFollows(start, steps);
    UnwipedLosesNothing(start, db, cap, after);
    OnlyAltersMiss(start, db, a);
  }

  lemma OnlyAltersMiss(start: Db, db: Db, a: Account)
    requires Mid(start, db, a) && LostTables(start.tables, db) == {} && Orderly(start, db, a)
    ensures (forall k :: !Missed(start, db, a, k)) <==> NoHiddenAlter(start, db, a)
  {
    forall k ensures Missed(start, db, a, k) <==> HiddenAlter(start, db, a, k) {
      OrderlyMissed(start, db, a, k);
    }
  }

  lemma VisibleTracked(start: Db, k: Key)
    requires Shaped(start) && k in Visible(start.tables)
    ensures k.table in Tracked(start.tables)
  {
    VisibleLook(start.tables, k);
  }

  lemma MissedIsHidden(start: Db, db: Db, a: Account, k: Key)
    requires Mid(start, db, a) && LostTables(start.tables, db) == {} && Orderly(start, db, a)
    requires Missed(start, db, a, k)
    ensures HiddenAlter(start, db, a, k)
  {
    assert k !in a.wrote && k !in a.landed;
    UnwrittenRow(start, db, a, k);
  }

  lemma HiddenIsMissed(start: Db, db: Db, a: Account, k: Key)
    requires Mid(start, db, a) && HiddenAlter(start, db, a, k)
    ensures Missed(start, db, a, k)
  {
    VisibleTracked(start, k);
    TrackedInside(start, db, a, k.table);
    assert !NewRow(db.tables, k);
  }

  lemma OrderlyMissed(start: Db, db: Db, a: Account, k: Key)
    requires Mid(start, db, a) && LostTables(start.tables, db) == {} && Orderly(start, db, a)
    ensures Missed(start, db, a, k) <==> HiddenAlter(start, db, a, k)
  {
    if Missed(start, db, a, k) {
      MissedIsHidden(start, db, a, k);
    }
    if HiddenAlter(start, db, a, k) {
      HiddenIsMissed(start, db, a, k);
    }
  }

  // ---- whatever the data ----

  /**
   * A key the answer gets right whatever data the batch writes: the last entry is right about its row, or its table is
   * new, or it is there neither before nor after, or it is there before and after and nothing wrote or rewrote it.
   */
  ghost predicate Accounted(start: Db, db: Db, a: Account, k: Key) {
    || Told(db, a, k)
    || NewRow(db.tables, k)
    || (k !in Visible(start.tables) && k !in Visible(db.tables))
    || (&& k in Visible(start.tables) && k in Visible(db.tables)
        && k !in a.wrote && k.table !in a.altered && !ToldGone(a, k))
  }

  predicate OpAlike(o: RowOp, p: RowOp) {
    match o
    case Insert(t, id, _) => p.Insert? && p.table == t && p.id == id
    case Update(t, id, newId, _) => p.Update? && p.table == t && p.id == id && p.newId == newId
    case Remove(_, _) => p == o
  }

  /** The same step but for the data it writes. */
  predicate StepAlike(s: Step, r: Step) {
    match s
    case Write(op) => r.Write? && OpAlike(op, r.op)
    case Land(op) => r.Land? && OpAlike(op, r.op)
    case Alter(t, columns, rows) => r.Alter? && r.table == t && r.columns == columns && r.rows.Keys == rows.Keys
    case _ => r == s
  }

  ghost predicate SameButData(steps: seq<Step>, others: seq<Step>) {
    |steps| == |others| && forall i :: 0 <= i < |steps| ==> StepAlike(steps[i], others[i])
  }

  predicate TableAlike(t: Table, u: Table) {
    t.(rows := map[]) == u.(rows := map[]) && t.rows.Keys == u.rows.Keys
  }

  ghost predicate DbAlike(d: Db, e: Db) {
    && d.(tables := map[]) == e.(tables := map[]) && d.tables.Keys == e.tables.Keys
    && forall t :: t in d.tables ==> TableAlike(d.tables[t], e.tables[t])
  }

  lemma WrittenAlike(t: Table, u: Table, o: RowOp, p: RowOp)
    requires TableAlike(t, u) && OpAlike(o, p)
    ensures Written(t, o).Some? <==> Written(u, p).Some?
    ensures Written(t, o).Some? ==> Written(t, o).value.Keys == Written(u, p).value.Keys
  {
    forall id, but ensures Clashes(t, id, but) <==> Clashes(u, id, but) {
      assert forall r :: r in t.rows <==> r in u.rows;
    }
  }

  lemma LandedAlike(log: Log, l: string, c: Collation, clock: nat, o: RowOp, p: RowOp, landed: map<Key, Option<Op>>)
    requires OpAlike(o, p)
    ensures Landed(log, l, c, clock, o) == Landed(log, l, c, clock, p)
    ensures LandedOn(landed, l, c, o) == LandedOn(landed, l, c, p)
    ensures OpKeys(l, o) == OpKeys(l, p)
  {
  }

  lemma RowStepAlike(d: Db, e: Db, s: Step, r: Step, a: Account)
    requires DbAlike(d, e) && StepAlike(s, r) && (s.Write? || s.Land?)
    ensures Exec(d, s).Some? <==> Exec(e, r).Some?
    ensures Exec(d, s).Some? ==> DbAlike(Exec(d, s).value, Exec(e, r).value)
    ensures Tally(d, a, s) == Tally(e, a, r)
  {
    if s.op.table in d.tables {
      var t := d.tables[s.op.table];
      assert TableAlike(t, e.tables[s.op.table]);
      WrittenAlike(t, e.tables[s.op.table], s.op, r.op);
      LandedAlike(d.log, if t.logsAs.Some? then t.logsAs.value else "", t.collation, d.clock, s.op, r.op, a.landed);
    }
  }

  lemma AlterAlike(d: Db, e: Db, s: Step, r: Step)
    requires DbAlike(d, e) && StepAlike(s, r) && s.Alter?
    ensures Exec(d, s).Some? <==> Exec(e, r).Some?
    ensures Exec(d, s).Some? ==> DbAlike(Exec(d, s).value, Exec(e, r).value)
  {
    if s.table in d.tables {
      assert TableAlike(d.tables[s.table], e.tables[s.table]);
    }
  }

  lemma OtherStepAlike(d: Db, e: Db, s: Step)
    requires DbAlike(d, e) && !s.Write? && !s.Land? && !s.Alter?
    ensures Exec(d, s).Some? <==> Exec(e, s).Some?
    ensures Exec(d, s).Some? ==> DbAlike(Exec(d, s).value, Exec(e, s).value)
  {
  }

  lemma ExecAlike(d: Db, e: Db, s: Step, r: Step, a: Account)
    requires DbAlike(d, e) && StepAlike(s, r)
    ensures Exec(d, s).Some? <==> Exec(e, r).Some?
    ensures Exec(d, s).Some? ==> DbAlike(Exec(d, s).value, Exec(e, r).value)
    ensures Tally(d, a, s) == Tally(e, a, r)
  {
    if s.Write? || s.Land? {
      RowStepAlike(d, e, s, r, a);
    } else if s.Alter? {
      AlterAlike(d, e, s, r);
      assert s.table in d.tables ==> TableAlike(d.tables[s.table], e.tables[s.table]);
    } else {
      OtherStepAlike(d, e, s);
    }
  }

  lemma {:induction false} BatchAlike(start: Db, steps: seq<Step>, others: seq<Step>)
    requires SameButData(steps, others)
    ensures ExecAll(start, steps).Some? <==> ExecAll(start, others).Some?
    ensures ExecAll(start, steps).Some? ==> DbAlike(ExecAll(start, steps).value, ExecAll(start, others).value)
    ensures ExecAll(start, steps).Some? ==> TallyAll(start, steps) == TallyAll(start, others)
  {
    if steps != [] {
      var n := |steps| - 1;
      BatchAlike(start, steps[..n], others[..n]);
      if ExecAll(start, steps[..n]).Some? {
        assert StepAlike(steps[n], others[n]);
        ExecAlike(ExecAll(start, steps[..n]).value, ExecAll(start, others[..n]).value, steps[n], others[n],
                  TallyAll(start, steps[..n]));
      }
    }
  }

  lemma VisibleAlike(d: Db, e: Db, k: Key)
    requires DbAlike(d, e)
    ensures k in Visible(d.tables) <==> k in Visible(e.tables)
    ensures NewRow(d.tables, k) <==> NewRow(e.tables, k)
  {
    VisibleLook(d.tables, k);
    VisibleLook(e.tables, k);
    if k.table in d.tables {
      assert TableAlike(d.tables[k.table], e.tables[k.table]);
    }
  }

  lemma SchemaAlike(before: Tables, d: Db, e: Db)
    requires DbAlike(d, e)
    ensures SyncSkipped(before, d) <==> SyncSkipped(before, e)
    ensures LostTables(before, d) == LostTables(before, e)
  {
    forall t | t in d.tables ensures d.tables[t].(rows := map[]) == e.tables[t].(rows := map[]) {
      assert TableAlike(d.tables[t], e.tables[t]);
    }
    assert Signature(d.tables) == Signature(e.tables);
    assert Tracked(d.tables) == Tracked(e.tables);
  }

  lemma SyncedAlike(before: Tables, d: Db, e: Db)
    requires DbAlike(d, e)
    ensures SyncedDb(before, d).log == SyncedDb(before, e).log
    ensures Broken(before, d) <==> Broken(before, e)
  {
    SchemaAlike(before, d, e);
    var log, log' := SyncedDb(before, d).log, SyncedDb(before, e).log;
    forall k ensures SameEntry(log, log', k) {
      VisibleAlike(d, e, k);
      SyncLogEntry(d, SyncSkipped(before, d), LostTables(before, d), k);
      SyncLogEntry(e, SyncSkipped(before, e), LostTables(before, e), k);
    }
    LogExtensional(log, log');
  }

  lemma PrunedAlike(b: Db, c: Db, cap: nat)
    requires b.log == c.log && b.clock == c.clock && b.historyStartsAt == c.historyStartsAt && ClocksBounded(b)
    ensures ClocksBounded(c) && Pruned(b, cap).historyStartsAt == Pruned(c, cap).historyStartsAt
  {
  }

  /** Whatever the data, the commit starts the history at the same clock. */
  lemma CommittedAlike(start: Db, d: Db, e: Db, cap: nat)
    requires DbAlike(d, e) && ClocksBounded(Bumped(start.tables, d))
    ensures ClocksBounded(Bumped(start.tables, e))
    ensures Committed(start.tables, d, cap).historyStartsAt == Committed(start.tables, e, cap).historyStartsAt
  {
    SyncedAlike(start.tables, d, e);
    PrunedAlike(Bumped(start.tables, d), Bumped(start.tables, e), cap);
  }

  lemma AccountedTells(start: Db, db: Db, a: Account, k: Key)
    requires Mid(start, db, a) && LostTables(start.tables, db) == {} && Accounted(start, db, a, k)
    ensures !Missed(start, db, a, k)
  {
    if k !in a.wrote && !NewRow(db.tables, k) {
      UnwrittenRow(start, db, a, k);
    }
  }

  /** Every variation of an accounted batch is told whole. */
  lemma AccountedSuffices(start: Db, steps: seq<Step>, cap: nat, db: Db, after: Db, others: seq<Step>, db': Db,
                          after': Db)
    requires Shaped(start) && Outcome(start, steps, cap, db, after) && after.historyStartsAt <= start.clock
    requires SameButData(steps, others) && Outcome(start, others, cap, db', after')
    requires forall k :: Accounted(start, db, TallyAll(start, steps), k)
    ensures TellsAll(start, after')
  {
    var a := TallyAll(start, steps);
    BatchAlike(start, steps, others);
    BatchFollows(start, others);
    CommittedAlike(start, db, db', cap);
    UnwipedLosesNothing(start, db', cap, after');
    forall k ensures !Missed(start, db', a, k) {
      assert Accounted(start, db, a, k);
      VisibleAlike(db, db', k);
      AccountedTells(start, db', a, k);
    }
    TellsAllIff(start, others, cap, db', a, after');
  }

  // ---- and only then ----

  function RecastOp(op: RowOp, d: Data): RowOp {
    match op
    case Insert(t, id, _) => Insert(t, id, d)
    case Update(t, id, newId, _) => Update(t, id, newId, d)
    case Remove(t, id) => op
  }

  function RecastStep(s: Step, d: Data): Step {
    match s
    case Write(op) => Write(RecastOp(op, d))
    case Alter(t, columns, rows) => Alter(t, columns, map id | id in rows :: d)
    case _ => s
  }

  /** The same batch writing one data everywhere. */
  function Recast(steps: seq<Step>, d: Data): seq<Step> {
    seq(|steps|, i requires 0 <= i < |steps| => RecastStep(steps[i], d))
  }

  lemma RecastAlike(steps: seq<Step>, d: Data)
    ensures SameButData(steps, Recast(steps, d))
  {
    forall i | 0 <= i < |steps| ensures StepAlike(steps[i], Recast(steps, d)[i]) {
    }
  }

  /** A row written or rewritten holds that data. */
  ghost predicate PaintedRow(db: Db, a: Account, d: Data, t: string, id: string) {
    t in db.tables && id in db.tables[t].rows && db.tables[t].logsAs.Some? ==>
      var l := db.tables[t].logsAs.value;
      (Key(l, id) in a.wrote || l in a.altered ==> db.tables[t].rows[id] == d)
  }

  ghost predicate Painted(db: Db, a: Account, d: Data) {
    forall t, id :: PaintedRow(db, a, d, t, id)
  }

  lemma PaintRow(db: Db, a: Account, s: Step, d: Data, next: Db, t: string, id: string)
    requires Painted(db, a, d) && OneTablePerName(db.tables) && Exec(db, RecastStep(s, d)) == Some(next)
    ensures PaintedRow(next, Tally(db, a, RecastStep(s, d)), d, t, id)
  {
    var r := RecastStep(s, d);
    if t in next.tables && next.tables[t].logsAs.Some? {
      TableCameFrom(db, r, next, t);
      assert PaintedRow(db, a, d, Was(r, t), id);
      if r.Write? && r.op.table == t && id != r.op.id && !(r.op.Update? && id == r.op.newId) {
        WrittenElsewhere(db.tables[t], r.op, id);
      }
    }
  }

  lemma PaintStep(db: Db, a: Account, s: Step, d: Data, next: Db)
    requires Painted(db, a, d) && OneTablePerName(db.tables) && Exec(db, RecastStep(s, d)) == Some(next)
    ensures Painted(next, Tally(db, a, RecastStep(s, d)), d)
  {
    forall t, id ensures PaintedRow(next, Tally(db, a, RecastStep(s, d)), d, t, id) {
      PaintRow(db, a, s, d, next, t, id);
    }
  }

  lemma {:induction false} RecastPaints(start: Db, steps: seq<Step>, d: Data)
    requires Shaped(start) && ExecAll(start, Recast(steps, d)).Some?
    ensures Painted(ExecAll(start, Recast(steps, d)).value, TallyAll(start, Recast(steps, d)), d)
  {
    if steps != [] {
      var n, all := |steps| - 1, Recast(steps, d);
      assert all[..n] == Recast(steps[..n], d);
      RecastPaints(start, steps[..n], d);
      BatchFollows(start, all[..n]);
      PaintStep(ExecAll(start, all[..n]).value, TallyAll(start, all[..n]), steps[n], d, ExecAll(start, all).value);
    }
  }

  function OtherThan(d: Data): (e: Data)
    ensures e != d
  {
    if d == map[] then
      var e: Data := map["" := Null];
      assert "" in e;
      e
    else map[]
  }

  /** A row there before and after, written or rewritten with no entry right about it, can be left with other data. */
  lemma RecastMisses(start: Db, db: Db, a: Account, db': Db, k: Key, d: Data)
    requires DbAlike(db, db') && Painted(db', a, d) && !Accounted(start, db, a, k) && !Missed(start, db, a, k)
    requires k in Visible(start.tables) ==> d != Visible(start.tables)[k]
    ensures Missed(start, db', a, k)
  {
    VisibleAlike(db, db', k);
    VisibleLook(db.tables, k);
    VisibleLook(db'.tables, k);
    assert Key(k.table, k.id) == k && PaintedRow(db', a, d, k.table, k.id);
  }

  /** A variation of the batch whose answer gets an unaccounted key wrong. */
  lemma UnaccountedFails(start: Db, steps: seq<Step>, cap: nat, db: Db, after: Db, k: Key)
      returns (others: seq<Step>, db': Db, after': Db)
    requires Sane(start, cap) && Outcome(start, steps, cap, db, after) && after.historyStartsAt <= start.clock
    requires !Accounted(start, db, TallyAll(start, steps), k)
    ensures SameButData(steps, others) && Outcome(start, others, cap, db', after') && !TellsAll(start, after')
  {
    var a := TallyAll(start, steps);
    if Missed(start, db, a, k) {
      others, db', after' := steps, db, after;
      Itself(steps);
      TellsAllIff(start, steps, cap, db, a, after);
    } else {
      var d := OtherThan(if k in Visible(start.tables) then Visible(start.tables)[k] else map[]);
      others := Recast(steps, d);
      db', after' := Varied(start, steps, others, cap, db, after);
      RecastPaints(start, steps, d);
      RecastMisses(start, db, a, db', k, d);
      TellsAllIff(start, others, cap, db', a, after');
    }
  }

  lemma Itself(steps: seq<Step>)
    ensures SameButData(steps, steps)
  {
  }

  lemma Varied(start: Db, steps: seq<Step>, others: seq<Step>, cap: nat, db: Db, after: Db)
      returns (db': Db, after': Db)
    requires Outcome(start, steps, cap, db, after) && exists d :: others == Recast(steps, d)
    ensures SameButData(steps, others) && Outcome(start, others, cap, db', after') && DbAlike(db, db')
    ensures TallyAll(start, others) == TallyAll(start, steps) && after'.historyStartsAt == after.historyStartsAt
  {
    var d :| others == Recast(steps, d);
    RecastAlike(steps, d);
    BatchAlike(start, steps, others);
    db' := ExecAll(start, others).value;
    CommittedAlike(start, db, db', cap);
    after' := Committed(start.tables, db', cap);
  }

  /** The answer tells all of the batch, whatever data its statements write and its ALTERs leave. */
  ghost predicate ToldWhatever(start: Db, steps: seq<Step>, cap: nat) {
    forall others, db, after :: SameButData(steps, others) && Outcome(start, others, cap, db, after) ==>
      TellsAll(start, after)
  }

  ghost predicate AllAccounted(start: Db, db: Db, a: Account) {
    forall k :: Accounted(start, db, a, k)
  }

  /**
   * Exactly when an answer that does not wipe tells the whole of a batch, whatever the data: every key is accounted
   * for.
   */
  lemma AnswerCompleteIff(start: Db, steps: seq<Step>, cap: nat, maxPull: nat, db: Db, a: Account, after: Db)
    requires Sane(start, cap) && Outcome(start, steps, cap, db, after) && !WipesAll(after, start.clock, maxPull)
    requires a == TallyAll(start, steps)
    ensures ToldWhatever(start, steps, cap) <==> AllAccounted(start, db, a)
  {
    if AllAccounted(start, db, a) {
      forall others, db', after' | SameButData(steps, others) && Outcome(start, others, cap, db', after')
        ensures TellsAll(start, after')
      {
        AccountedSuffices(start, steps, cap, db, after, others, db', after');
      }
    } else {
      var k :| !Accounted(start, db, a, k);
      var others, db', after' := UnaccountedFails(start, steps, cap, db, after, k);
    }
  }

  /** A row of an altered table that is there before and after is logged in the batch. */
  ghost predicate AlterLogged(start: Db, db: Db, a: Account, k: Key) {
    k.table in a.altered && k in Visible(start.tables) && k in Visible(db.tables) ==> k in a.landed
  }

  ghost predicate AltersLogged(start: Db, db: Db, a: Account) {
    forall k :: AlterLogged(start, db, a, k)
  }

  /**
   * Of an orderly batch that loses no table: whatever the data, if and only if what its ALTERs left is logged in it.
   */
  lemma AlterSafeIff(start: Db, steps: seq<Step>, cap: nat, maxPull: nat, db: Db, a: Account, after: Db)
    requires Sane(start, cap) && Outcome(start, steps, cap, db, after) && !WipesAll(after, start.clock, maxPull)
    requires a == TallyAll(start, steps) && Orderly(start, db, a)
    ensures ToldWhatever(start, steps, cap) <==> AltersLogged(start, db, a)
  {
    AnswerCompleteIff(start, steps, cap, maxPull, db, a, after);
    BatchFollows(start, steps);
    UnwipedLosesNothing(start, db, cap, after);
    OrderlyAllAccounted(start, db, a);
  }

  lemma OrderlyAllAccounted(start: Db, db: Db, a: Account)
    requires Mid(start, db, a) && LostTables(start.tables, db) == {} && Orderly(start, db, a)
    ensures AllAccounted(start, db, a) <==> AltersLogged(start, db, a)
  {
    forall k ensures Accounted(start, db, a, k) <==> AlterLogged(start, db, a, k) {
      OrderlyAccounted(start, db, a, k);
    }
  }

  lemma OrderlyAccounted(start: Db, db: Db, a: Account, k: Key)
    requires Mid(start, db, a) && LostTables(start.tables, db) == {} && Orderly(start, db, a)
    ensures Accounted(start, db, a, k) <==> AlterLogged(start, db, a, k)
  {
    TrackedInside(start, db, a, k.table);
    VisibleLook(start.tables, k);
    if k !in a.wrote && !NewRow(db.tables, k) {
      UnwrittenRow(start, db, a, k);
    }
  }
}
