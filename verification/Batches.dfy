/**
 * What a batch does to the log: what each of its statements wrote, what of it was logged, and exactly when the answer
 * from just before it tells the whole of it.
 */
module Batches {
  import opened Options
  import opened RemoteData
  import opened ChangeLog

  // ---- accounts of a batch ----

  /**
   * The keys whose rows a batch wrote, the tables (by the name they are logged under) an ALTER rewrote, and for each
   * key an entry landed for, what the last one says: `None` where it only took the key's entry away.
   */
  datatype Account = Account(wrote: set<Key>, altered: set<string>, landed: map<Key, Option<Op>>)

  const NOTHING := Account({}, {}, map[])

  function OpKeys(l: string, op: RowOp): set<Key> {
    {Key(l, op.id)} + if op.Update? then {Key(l, op.newId)} else {}
  }

  function LandedOn(landed: map<Key, Option<Op>>, l: string, c: Collation, op: RowOp): map<Key, Option<Op>> {
    match op
    case Insert(_, id, _) => landed[Key(l, id) := Some(PutOp)]
    case Update(_, id, newId, _) =>
      var gone := if Canon(c, id) != Canon(c, newId) then Some(DeleteOp) else None;
      landed[Key(l, id) := gone][Key(l, newId) := Some(PutOp)]
    case Remove(_, id) => landed[Key(l, id) := Some(DeleteOp)]
  }

  /** The name a table's rows are logged under, if at all. */
  function LogName(tables: Tables, t: string): Option<string> {
    if t in tables then tables[t].logsAs else None
  }

  function Tally(db: Db, a: Account, s: Step): Account {
    match s
    case Write(op) =>
      var l := LogName(db.tables, op.table);
      if l.None? then a else a.(wrote := a.wrote + OpKeys(l.value, op))
    case Land(op) =>
      var l := LogName(db.tables, op.table);
      if l.None? then a else a.(landed := LandedOn(a.landed, l.value, db.tables[op.table].collation, op))
    case Alter(t, _, _) =>
      var l := LogName(db.tables, t);
      if l.None? then a else a.(altered := a.altered + {l.value})
    case _ => a
  }

  function TallyAll(start: Db, steps: seq<Step>): Account {
    if steps == [] then NOTHING
    else
      var init, mid := steps[..|steps| - 1], ExecAll(start, steps[..|steps| - 1]);
      if mid.None? then NOTHING else Tally(mid.value, TallyAll(start, init), steps[|steps| - 1])
  }

  // ---- what holds inside a batch ----

  /** A row no statement wrote is as it was, unless an ALTER rewrote its table. */
  ghost predicate RowFollowed(start: Db, db: Db, a: Account, t: string, id: string)
    requires t in db.tables && db.tables[t].logsAs.Some? && db.tables[t].logsAs.value in start.tables
  {
    var l := db.tables[t].logsAs.value;
    Key(l, id) !in a.wrote ==>
      && (id in db.tables[t].rows <==> id in start.tables[l].rows)
      && (l !in a.altered && id in db.tables[t].rows ==> db.tables[t].rows[id] == start.tables[l].rows[id])
  }

  ghost predicate TableFollowed(start: Db, db: Db, a: Account, t: string)
    requires t in db.tables && db.tables[t].logsAs.Some?
  {
    var l := db.tables[t].logsAs.value;
    && l in start.tables && start.tables[l].keyed && db.tables[t].keyed
    && forall id :: RowFollowed(start, db, a, t, id)
  }

  /** A key's entry is the last that landed for it in the batch, or the one from before. */
  ghost predicate EntryFollowed(start: Db, db: Db, a: Account, k: Key) {
    if k in a.landed then
      if a.landed[k].Some? then k in db.log && db.log[k] == Entry(Next(start.clock), a.landed[k].value)
        else k !in db.log
    else SameEntry(db.log, start.log, k)
  }

  ghost predicate OneTablePerName(tables: Tables) {
    forall t, u :: t in tables && u in tables && tables[t].logsAs.Some? && tables[t].logsAs == tables[u].logsAs ==>
      t == u
  }

  ghost predicate LandsSomething(a: Account) {
    a.landed != map[] ==> exists k :: k in a.landed && a.landed[k].Some?
  }

  ghost predicate OfTracked(start: Db, a: Account, k: Key) {
    k in a.wrote || k in a.landed ==> k.table in start.tables && start.tables[k.table].keyed
  }

  /** Inside a batch: every table with triggers came from one that had them, rows and entries are as accounted for. */
  ghost predicate Following(start: Db, db: Db, a: Account) {
    && db.clock == start.clock && db.historyStartsAt == start.historyStartsAt
    && (forall t :: t in db.tables && db.tables[t].logsAs.Some? ==> TableFollowed(start, db, a, t))
    && OneTablePerName(db.tables)
    && (forall k :: EntryFollowed(start, db, a, k))
    && (forall k :: OfTracked(start, a, k))
    && LandsSomething(a)
  }

  /** Where a table of the next state was before the step. */
  function Was(s: Step, t: string): string {
    if s.Rename? && t == s.newName then s.table else t
  }

  lemma WrittenElsewhere(t: Table, op: RowOp, id: string)
    requires Written(t, op).Some? && id != op.id && !(op.Update? && id == op.newId)
    ensures var rows := Written(t, op).value; (id in rows <==> id in t.rows) && (id in rows ==> rows[id] == t.rows[id])
  {
  }

  lemma RowFollows(start: Db, db: Db, a: Account, s: Step, next: Db, t: string, id: string)
    requires Exec(db, s) == Some(next) && t in next.tables && next.tables[t].logsAs.Some?
    requires Was(s, t) in db.tables && db.tables[Was(s, t)].logsAs == next.tables[t].logsAs
    requires next.tables[t].logsAs.value in start.tables
    requires RowFollowed(start, db, a, Was(s, t), id) && OneTablePerName(db.tables)
    ensures RowFollowed(start, next, Tally(db, a, s), t, id)
  {
    if s.Write? && s.op.table == t && Key(next.tables[t].logsAs.value, id) !in Tally(db, a, s).wrote {
      assert Key(next.tables[t].logsAs.value, id) !in OpKeys(next.tables[t].logsAs.value, s.op);
      WrittenElsewhere(db.tables[t], s.op, id);
    }
  }

  lemma TableCameFrom(db: Db, s: Step, next: Db, t: string)
    requires Exec(db, s) == Some(next) && t in next.tables && next.tables[t].logsAs.Some?
    ensures Was(s, t) in db.tables && db.tables[Was(s, t)].logsAs == next.tables[t].logsAs
    ensures db.tables[Was(s, t)].keyed == next.tables[t].keyed
    ensures db.tables[Was(s, t)].collation == next.tables[t].collation
  {
  }

  lemma TableFollows(start: Db, db: Db, a: Account, s: Step, next: Db, t: string)
    requires Following(start, db, a) && Exec(db, s) == Some(next) && t in next.tables && next.tables[t].logsAs.Some?
    ensures TableFollowed(start, next, Tally(db, a, s), t)
  {
    TableCameFrom(db, s, next, t);
    assert TableFollowed(start, db, a, Was(s, t));
    forall id ensures RowFollowed(start, next, Tally(db, a, s), t, id) {
      RowFollows(start, db, a, s, next, t, id);
    }
  }

  /** What an entry's landing does to the entry of one key. */
  lemma LandedEntry(log: Log, l: string, c: Collation, clock: nat, op: RowOp, landed: map<Key, Option<Op>>, k: Key)
    ensures var log', landed' := Landed(log, l, c, clock, op), LandedOn(landed, l, c, op);
            if k in OpKeys(l, op) then
              k in landed' &&
              (if landed'[k].Some? then k in log' && log'[k] == Entry(Next(clock), landed'[k].value) else k !in log')
            else SameEntry(log', log, k) && (k in landed' <==> k in landed) && (k in landed ==> landed'[k] == landed[k])
  {
  }

  lemma EntryFollows(start: Db, db: Db, a: Account, s: Step, next: Db, k: Key)
    requires Exec(db, s) == Some(next) && db.clock == start.clock && EntryFollowed(start, db, a, k)
    ensures EntryFollowed(start, next, Tally(db, a, s), k)
  {
    if s.Land? && db.tables[s.op.table].logsAs.Some? {
      var t := db.tables[s.op.table];
      LandedEntry(db.log, t.logsAs.value, t.collation, db.clock, s.op, a.landed, k);
    }
  }

  lemma TrackedFollows(start: Db, db: Db, a: Account, s: Step, next: Db, k: Key)
    requires Following(start, db, a) && Exec(db, s) == Some(next)
    ensures OfTracked(start, Tally(db, a, s), k)
  {
    assert OfTracked(start, a, k);
    if (s.Write? || s.Land?) && LogName(db.tables, s.op.table).Some? {
      var t := db.tables[s.op.table];
      assert TableFollowed(start, db, a, s.op.table);
      LandedEntry(db.log, t.logsAs.value, t.collation, db.clock, s.op, a.landed, k);
    }
  }

  lemma LandingSays(db: Db, a: Account, s: Step)
    requires LandsSomething(a)
    ensures LandsSomething(Tally(db, a, s))
  {
    if s.Land? && LogName(db.tables, s.op.table).Some? {
      var l := db.tables[s.op.table].logsAs.value;
      var k := Key(l, if s.op.Update? then s.op.newId else s.op.id);
      assert k in Tally(db, a, s).landed && Tally(db, a, s).landed[k].Some?;
    }
  }

  lemma ExecFollows(start: Db, db: Db, a: Account, s: Step, next: Db)
    requires Following(start, db, a) && Exec(db, s) == Some(next)
    ensures Following(start, next, Tally(db, a, s))
  {
    forall t | t in next.tables && next.tables[t].logsAs.Some? ensures TableFollowed(start, next, Tally(db, a, s), t) {
      TableFollows(start, db, a, s, next, t);
    }
    forall k ensures EntryFollowed(start, next, Tally(db, a, s), k) && OfTracked(start, Tally(db, a, s), k) {
      assert EntryFollowed(start, db, a, k);
      EntryFollows(start, db, a, s, next, k);
      TrackedFollows(start, db, a, s, next, k);
    }
    LandingSays(db, a, s);
    NamesStayApart(db, s, next);
  }

  lemma NamesStayApart(db: Db, s: Step, next: Db)
    requires OneTablePerName(db.tables) && Exec(db, s) == Some(next)
    ensures OneTablePerName(next.tables)
  {
    var after := next.tables;
    forall t, u | t in after && u in after && after[t].logsAs.Some? && after[t].logsAs == after[u].logsAs
      ensures t == u
    {
      TableCameFrom(db, s, next, t);
      TableCameFrom(db, s, next, u);
    }
  }

  /** Through any steps: a row not written is as it was, and an entry is the last that landed. */
  lemma {:induction false} BatchFollows(start: Db, steps: seq<Step>)
    requires Shaped(start) && ExecAll(start, steps).Some?
    ensures Following(start, ExecAll(start, steps).value, TallyAll(start, steps))
  {
    if steps != [] {
      var init := steps[..|steps| - 1];
      BatchFollows(start, init);
      ExecFollows(start, ExecAll(start, init).value, TallyAll(start, init), steps[|steps| - 1],
                  ExecAll(start, steps).value);
    }
  }

  // ---- the end of a batch ----

  ghost predicate Mid(start: Db, db: Db, a: Account) {
    Shaped(start) && Following(start, db, a)
  }

  /** The last entry to land for a key is right about its row. */
  ghost predicate Told(db: Db, a: Account, k: Key) {
    k in a.landed && a.landed[k] == Some(if k in Visible(db.tables) then PutOp else DeleteOp)
  }

  /** Whatever a batch wrote or logged of a table it did not lose, the last entry is right about it. */
  ghost predicate Orderly(start: Db, db: Db, a: Account) {
    forall k :: (k in a.wrote || k in a.landed) && k.table !in LostTables(start.tables, db) ==> Told(db, a, k)
  }

  /**
   * A row an ALTER changed without the log or the schema comparison noticing: no statement of the batch wrote it, and
   * its table ends the batch with the columns it began with (a column dropped and added back, say).
   */
  ghost predicate HiddenAlter(start: Db, db: Db, a: Account, k: Key) {
    && k.table in a.altered && k.table !in LostTables(start.tables, db) && k !in a.wrote && k !in a.landed
    && k in Visible(start.tables) && k in Visible(db.tables) && Visible(start.tables)[k] != Visible(db.tables)[k]
  }

  ghost predicate NoHiddenAlter(start: Db, db: Db, a: Account) {
    forall k :: !HiddenAlter(start, db, a, k)
  }

  /** A batch whose altered tables all end with other columns hides nothing. */
  lemma ShownAltersHideNothing(start: Db, db: Db, a: Account)
    requires a.altered <= LostTables(start.tables, db)
    ensures NoHiddenAlter(start, db, a)
  {
  }

  lemma TrackedInside(start: Db, db: Db, a: Account, t: string)
    requires Mid(start, db, a)
    ensures t in db.tables && db.tables[t].logsAs == Some(t) ==> t in Tracked(start.tables) && db.tables[t].keyed
    ensures t in Tracked(start.tables) && t !in LostTables(start.tables, db) ==>
              t in db.tables && db.tables[t].logsAs == Some(t)
  {
    if t in db.tables && db.tables[t].logsAs == Some(t) {
      assert TableFollowed(start, db, a, t);
    }
  }

  /** A log entry of a table that was not lost sits on a tracked table. */
  lemma EntryPlace(start: Db, db: Db, a: Account, k: Key)
    requires Mid(start, db, a) && k in db.log && k.table !in LostTables(start.tables, db)
    ensures k.table in db.tables && db.tables[k.table].logsAs == Some(k.table) && db.tables[k.table].keyed
    ensures db.log[k].clock <= Next(start.clock)
  {
    assert EntryFollowed(start, db, a, k) && OfTracked(start, a, k);
    TrackedInside(start, db, a, k.table);
  }

  /** What became of a row of a table tracked before and after, by name. */
  lemma TrackedRow(start: Db, db: Db, a: Account, k: Key)
    requires Mid(start, db, a) && k.table in db.tables && db.tables[k.table].logsAs == Some(k.table) && k !in a.wrote
    ensures k in Visible(db.tables) <==> k in Visible(start.tables)
    ensures k.table !in a.altered ==> Look(Visible(db.tables), k) == Look(Visible(start.tables), k)
  {
    TrackedInside(start, db, a, k.table);
    assert TableFollowed(start, db, a, k.table);
    assert RowFollowed(start, db, a, k.table, k.id);
    VisibleLook(db.tables, k);
    VisibleLook(start.tables, k);
    assert Key(k.table, k.id) == k;
  }

  /** After an orderly batch every entry of a table that was not lost is right about its row. */
  lemma EntryShape(start: Db, db: Db, a: Account, k: Key)
    requires Mid(start, db, a) && Truthful(start) && Orderly(start, db, a)
    requires k in db.log && k.table !in LostTables(start.tables, db)
    ensures db.log[k].op.PutOp? <==> k in Visible(db.tables)
  {
    assert EntryFollowed(start, db, a, k);
    EntryPlace(start, db, a, k);
    if k !in a.landed {
      TrackedRow(start, db, a, k);
    }
  }

  // ---- what every batch leaves ----

  lemma SyncedTables(start: Db, db: Db, a: Account, t: string)
    requires Mid(start, db, a) && t in db.tables
    ensures var d := SyncedDb(start.tables, db).tables;
            t in d && d[t].keyed == db.tables[t].keyed && d[t].logsAs == if d[t].keyed then Some(t) else None
  {
    if SyncSkipped(start.tables, db) {
      SameSignature(start, db);
    } else {
      TrackedInside(start, db, a, t);
    }
  }

  lemma SyncedEntryPlace(start: Db, db: Db, a: Account, k: Key)
    requires Mid(start, db, a) && k in SyncedDb(start.tables, db).log
    ensures var d := SyncedDb(start.tables, db);
            d.log[k].clock <= Next(start.clock) && k.table in d.tables && d.tables[k.table].keyed
  {
    SyncLogEntry(db, SyncSkipped(start.tables, db), LostTables(start.tables, db), k);
    if SyncSkipped(start.tables, db) {
      SameSignature(start, db);
    }
    if k in db.log && k.table !in LostTables(start.tables, db) {
      EntryPlace(start, db, a, k);
    }
    SyncedTables(start, db, a, k.table);
  }

  /** The trigger sync leaves the committed shape, one clock ahead. */
  lemma SyncedShaped(start: Db, db: Db, a: Account)
    requires Mid(start, db, a)
    ensures Shaped(Bumped(start.tables, db))
  {
    var d := Bumped(start.tables, db);
    forall t | t in d.tables ensures d.tables[t].logsAs == if d.tables[t].keyed then Some(t) else None {
      SyncedTables(start, db, a, t);
    }
    forall k | k in d.log ensures d.log[k].clock <= d.clock && k.table in d.tables && d.tables[k.table].keyed {
      SyncedEntryPlace(start, db, a, k);
    }
  }

  lemma ShapedBefore(d: Db, next: Db)
    requires Shaped(next) && next.tables == d.tables && next.log == d.log && next.clock == Next(d.clock)
    requires LoggedAt(d.log, Next(d.clock)) == {}
    ensures Shaped(d)
  {
    forall k | k in d.log ensures d.log[k].clock <= d.clock {
      assert k !in LoggedAt(d.log, Next(d.clock));
    }
  }

  lemma QuietShaped(start: Db, db: Db, a: Account)
    requires Mid(start, db, a) && !Bumps(start.tables, db)
    ensures Shaped(SyncedDb(start.tables, db))
  {
    SyncedShaped(start, db, a);
    ShapedBefore(SyncedDb(start.tables, db), Bumped(start.tables, db));
  }

  /** Whatever a batch did: entries on tracked tables only, none ahead of the clock, the markers within the cap. */
  lemma CommitShaped(start: Db, steps: seq<Step>, db: Db, cap: nat)
    requires Shaped(start) && start.historyStartsAt <= start.clock && |AllMarkers(start.log)| <= cap
    requires ExecAll(start, steps) == Some(db)
    ensures Shaped(Bumped(start.tables, db))
    ensures var c := Committed(start.tables, db, cap);
            Shaped(c) && |AllMarkers(c.log)| <= cap && c.historyStartsAt <= c.clock &&
            c.clock == start.clock + if Bumps(start.tables, db) then 1 else 0
  {
    var a := TallyAll(start, steps);
    BatchFollows(start, steps);
    SyncedShaped(start, db, a);
    if Bumps(start.tables, db) {
      PruneKeepsShape(Bumped(start.tables, db), cap);
    } else {
      QuietShaped(start, db, a);
      QuietLog(start, db, a);
    }
  }

  lemma UnbrokenLosesNothing(before: Tables, db: Db)
    requires !Broken(before, db)
    ensures LostTables(before, db) == {}
  {
    if SyncSkipped(before, db) {
      SameSignature(Db(before, map[], 0, 0), db);
    }
  }

  lemma NoNewRows(start: Db, db: Db, k: Key)
    requires Shaped(start) && SyncSkipped(start.tables, db)
    ensures !NewRow(db.tables, k)
  {
    SameSignature(start, db);
  }

  lemma LandedBumps(start: Db, db: Db, a: Account, k: Key)
    requires Mid(start, db, a) && k in a.landed && a.landed[k].Some?
    ensures Bumps(start.tables, db)
  {
    if !Broken(start.tables, db) {
      UnbrokenLosesNothing(start.tables, db);
      assert EntryFollowed(start, db, a, k);
      SyncLogEntry(db, SyncSkipped(start.tables, db), {}, k);
      assert k in LoggedAt(SyncedDb(start.tables, db).log, Next(db.clock));
    }
  }

  /** A batch that moves no clock logged nothing. */
  lemma QuietLog(start: Db, db: Db, a: Account)
    requires Mid(start, db, a) && !Bumps(start.tables, db)
    ensures SyncedDb(start.tables, db).log == start.log && a.landed == map[]
  {
    var log' := SyncedDb(start.tables, db).log;
    UnbrokenLosesNothing(start.tables, db);
    if a.landed != map[] {
      var k :| k in a.landed && a.landed[k].Some?;
      LandedBumps(start, db, a, k);
    }
    forall k ensures SameEntry(log', start.log, k) {
      assert EntryFollowed(start, db, a, k);
      SyncLogEntry(db, SyncSkipped(start.tables, db), {}, k);
      assert k !in LoggedAt(log', Next(db.clock));
      if SyncSkipped(start.tables, db) {
        NoNewRows(start, db, k);
      }
    }
    LogExtensional(log', start.log);
  }

  /** The backfill never meets an entry that is already there. */
  lemma BackfillCollidesNever(start: Db, db: Db, a: Account, k: Key)
    requires Mid(start, db, a) && LostTables(start.tables, db) == {} && NewRow(db.tables, k)
    ensures k !in db.log
  {
    if k in db.log {
      EntryPlace(start, db, a, k);
    }
  }

  // ---- what an orderly batch keeps ----

  ghost predicate Good(start: Db, db: Db, a: Account) {
    Mid(start, db, a) && Truthful(start) && Orderly(start, db, a)
  }

  lemma SyncedTruthful(start: Db, db: Db, a: Account)
    requires Good(start, db, a)
    ensures Truthful(SyncedDb(start.tables, db))
  {
    var d := SyncedDb(start.tables, db);
    SyncKeepsVisible(start.tables, db);
    forall k | k in d.log ensures d.log[k].op.PutOp? <==> k in Visible(d.tables) {
      SyncLogEntry(db, SyncSkipped(start.tables, db), LostTables(start.tables, db), k);
      VisibleLook(db.tables, k);
      if SyncSkipped(start.tables, db) {
        SameSignature(start, db);
      }
      if k in db.log && k.table !in LostTables(start.tables, db) {
        EntryShape(start, db, a, k);
      }
    }
  }

  /** With the history unbroken, a key this batch did not log kept its row and its entry. */
  lemma UnloggedKept(start: Db, db: Db, a: Account, k: Key)
    requires Good(start, db, a) && LostTables(start.tables, db) == {}
    requires var d := SyncedDb(start.tables, db); k in d.log ==> d.log[k].clock <= start.clock
    ensures Look(Visible(db.tables), k) == Look(Visible(start.tables), k) || HiddenAlter(start, db, a, k)
    ensures SameEntry(SyncedDb(start.tables, db).log, start.log, k)
  {
    SyncLogEntry(db, SyncSkipped(start.tables, db), {}, k);
    if SyncSkipped(start.tables, db) {
      NoNewRows(start, db, k);
    }
    assert EntryFollowed(start, db, a, k);
    assert k !in a.landed && k !in a.wrote;
    UnwrittenRow(start, db, a, k);
  }

  lemma UnwrittenRow(start: Db, db: Db, a: Account, k: Key)
    requires Mid(start, db, a) && LostTables(start.tables, db) == {} && k !in a.wrote && !NewRow(db.tables, k)
    ensures k in Visible(db.tables) <==> k in Visible(start.tables)
    ensures k.table !in a.altered ==> Look(Visible(db.tables), k) == Look(Visible(start.tables), k)
  {
    TrackedInside(start, db, a, k.table);
    VisibleLook(db.tables, k);
    VisibleLook(start.tables, k);
    if k.table in Tracked(start.tables) {
      TrackedRow(start, db, a, k);
    }
  }

  /** After an unbroken batch, a key unlogged since an earlier clock still holds what it held then. */
  lemma UnbrokenSince(start: Db, db: Db, a: Account, then_: Rows, s: nat, k: Key)
    requires Good(start, db, a) && NoHiddenAlter(start, db, a) && !Broken(start.tables, db) && s <= start.clock
    requires (k in start.log ==> start.log[k].clock <= s) ==> Look(then_, k) == Look(Visible(start.tables), k)
    requires var log' := SyncedDb(start.tables, db).log; k in log' ==> log'[k].clock <= s
    ensures Look(then_, k) == Look(Visible(db.tables), k)
  {
    UnbrokenLosesNothing(start.tables, db);
    UnloggedKept(start, db, a, k);
  }

  lemma SinceKept(start: Db, history: seq<Rows>, db: Db, a: Account, d: Db, s: nat)
    requires Good(start, db, a) && NoHiddenAlter(start, db, a)
    requires Faithful(start, history) && !Broken(start.tables, db)
    requires start.historyStartsAt <= s <= start.clock
    requires d.log == SyncedDb(start.tables, db).log && Visible(d.tables) == Visible(db.tables)
    ensures UnloggedUnchanged(d, history, s)
  {
    assert UnloggedUnchanged(start, history, s);
    forall k | k in d.log ==> d.log[k].clock <= s ensures Look(history[s], k) == Look(Visible(d.tables), k) {
      UnbrokenSince(start, db, a, history[s], s, k);
    }
  }

  lemma HistoryGrows(d: Db, history: seq<Rows>)
    requires |history| == d.clock >= 1 && d.historyStartsAt <= d.clock
    requires forall s :: d.historyStartsAt <= s < d.clock ==> UnloggedUnchanged(d, history, s)
    ensures Faithful(d, history + [Visible(d.tables)])
  {
    var h := history + [Visible(d.tables)];
    forall s | d.historyStartsAt <= s <= d.clock ensures UnloggedUnchanged(d, h, s) {
      if s < d.clock {
        assert UnloggedUnchanged(d, history, s) && h[s] == history[s];
      }
    }
  }

  /** An unbroken batch extends the history soundly; a broken one starts it anew. */
  lemma BumpedFaithful(start: Db, history: seq<Rows>, db: Db, a: Account)
    requires Good(start, db, a) && NoHiddenAlter(start, db, a) && Faithful(start, history)
    ensures Faithful(Bumped(start.tables, db), history + [Visible(db.tables)])
  {
    var d := Bumped(start.tables, db);
    SyncKeepsVisible(start.tables, db);
    if !Broken(start.tables, db) {
      forall s | d.historyStartsAt <= s < d.clock ensures UnloggedUnchanged(d, history, s) {
        SinceKept(start, history, db, a, d, s);
      }
    }
    HistoryGrows(d, history);
  }

  lemma QuietRows(start: Db, db: Db, a: Account)
    requires Good(start, db, a) && NoHiddenAlter(start, db, a) && !Bumps(start.tables, db)
    ensures Visible(db.tables) == Visible(start.tables)
  {
    UnbrokenLosesNothing(start.tables, db);
    QuietLog(start, db, a);
    forall k ensures Look(Visible(db.tables), k) == Look(Visible(start.tables), k) {
      UnloggedKept(start, db, a, k);
    }
    LookExtensional(Visible(db.tables), Visible(start.tables));
  }

  lemma SameLogFaithful(start: Db, history: seq<Rows>, d: Db)
    requires Faithful(start, history) && Visible(d.tables) == Visible(start.tables)
    requires d.log == start.log && d.clock == start.clock && d.historyStartsAt == start.historyStartsAt
    ensures Faithful(d, history)
  {
    forall s | d.historyStartsAt <= s <= d.clock ensures UnloggedUnchanged(d, history, s) {
      assert UnloggedUnchanged(start, history, s);
    }
  }

  /** An orderly batch that moves no clock changed no row. */
  lemma QuietKeeps(start: Db, history: seq<Rows>, cap: nat, db: Db, a: Account)
    requires Good(start, db, a) && NoHiddenAlter(start, db, a)
    requires Inv(start, history, cap) && !Bumps(start.tables, db)
    ensures Inv(SyncedDb(start.tables, db), history, cap)
    ensures Visible(db.tables) == Visible(start.tables)
  {
    var d := SyncedDb(start.tables, db);
    QuietLog(start, db, a);
    QuietRows(start, db, a);
    SyncKeepsVisible(start.tables, db);
    QuietShaped(start, db, a);
    SyncedTruthful(start, db, a);
    SameLogFaithful(start, history, d);
  }

  /** The rows at each clock after a batch: one more clock if it moved, else the same ones. */
  function Extended(history: seq<Rows>, start: Db, db: Db): seq<Rows> {
    if Bumps(start.tables, db) then history + [Visible(db.tables)] else history
  }

  /** Every orderly batch that hides no ALTER keeps the invariant. */
  lemma CommitKeeps(start: Db, history: seq<Rows>, cap: nat, steps: seq<Step>, db: Db)
    requires Inv(start, history, cap) && ExecAll(start, steps) == Some(db)
    requires Orderly(start, db, TallyAll(start, steps)) && NoHiddenAlter(start, db, TallyAll(start, steps))
    ensures ClocksBounded(Bumped(start.tables, db))
    ensures Inv(Committed(start.tables, db, cap), Extended(history, start, db), cap)
    ensures Visible(Committed(start.tables, db, cap).tables) == Visible(db.tables)
  {
    var a := TallyAll(start, steps);
    BatchFollows(start, steps);
    SyncedShaped(start, db, a);
    SyncKeepsVisible(start.tables, db);
    if Bumps(start.tables, db) {
      SyncedTruthful(start, db, a);
      BumpedFaithful(start, history, db, a);
      PruneKeeps(Bumped(start.tables, db), history + [Visible(db.tables)], cap);
    } else {
      QuietKeeps(start, history, cap, db, a);
    }
  }

  // ---- whole batches ----

  /** `end` and `history'` are what a whole successful batch makes of `start` and its history. */
  ghost predicate Ran(start: Db, history: seq<Rows>, steps: seq<Step>, cap: nat, end: Db, history': seq<Rows>) {
    && ExecAll(start, steps).Some?
    && var db := ExecAll(start, steps).value;
    && ClocksBounded(Bumped(start.tables, db))
    && end == Committed(start.tables, db, cap)
    && history' == Extended(history, start, db)
  }

  /** A batch hides nothing: its log entries are right in the end, and no ALTER changed a row unseen. */
  ghost predicate HidesNothing(start: Db, steps: seq<Step>) {
    ExecAll(start, steps).Some? ==>
      var db, a := ExecAll(start, steps).value, TallyAll(start, steps);
      Orderly(start, db, a) && NoHiddenAlter(start, db, a)
  }

  lemma RanKeeps(start: Db, history: seq<Rows>, steps: seq<Step>, cap: nat, end: Db, history': seq<Rows>)
    requires Ran(start, history, steps, cap, end, history')
    requires Inv(start, history, cap) && HidesNothing(start, steps)
    ensures Inv(end, history', cap)
  {
    CommitKeeps(start, history, cap, steps, ExecAll(start, steps).value);
  }

  /** The log tells every change since any clock it answers for. */
  ghost predicate Complete(db: Db, history: seq<Rows>) {
    Truthful(db) && Faithful(db, history)
  }

  /** What holds after every batch, right or wrong. */
  ghost predicate Sane(db: Db, cap: nat) {
    Shaped(db) && db.historyStartsAt <= db.clock && |AllMarkers(db.log)| <= cap
  }

  lemma RanSane(start: Db, history: seq<Rows>, steps: seq<Step>, cap: nat, db: Db, end: Db, history': seq<Rows>)
    requires Sane(start, cap) && |history| == Next(start.clock) && ExecAll(start, steps) == Some(db)
    requires ClocksBounded(Bumped(start.tables, db))
    requires end == Committed(start.tables, db, cap) && history' == Extended(history, start, db)
    ensures Sane(end, cap) && |history'| == end.clock + 1
    ensures Ran(start, history, steps, cap, end, history')
    ensures Complete(start, history) && HidesNothing(start, steps) ==> Complete(end, history')
  {
    CommitShaped(start, steps, db, cap);
    if Complete(start, history) && HidesNothing(start, steps) {
      RanKeeps(start, history, steps, cap, end, history');
    }
  }

  /** The state the installation leaves: triggers on every table with a row id, an empty log, clock 0. */
  function Installed(tables: Tables): Db {
    Db(Install(DropStale(tables)), map[], 0, 0)
  }

  lemma FaithfulStart(db: Db, now: Rows)
    requires db.clock == 0 && db.historyStartsAt == 0 && now == Visible(db.tables)
    ensures Faithful(db, [now])
  {
    assert UnloggedUnchanged(db, [now], 0);
  }

  lemma InstalledInv(tables: Tables, cap: nat)
    requires forall t :: t in tables ==> tables[t].logsAs.None?
    ensures Inv(Installed(tables), [Visible(tables)], cap)
  {
    DropStaleKeepsVisible(tables);
    DropStaleKeepsVisible(DropStale(tables));
    FaithfulStart(Installed(tables), Visible(tables));
    assert AllMarkers(map[]) == {};
  }
}
