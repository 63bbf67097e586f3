/**
 * Change capture over one source's tables: the last change per key, pruned.
 *
 * A table carries the triggers installed on it (`logsAs` is the table name they log under, which a rename does not
 * change). A batch is a sequence of steps. A statement writes a row in one step and the trigger's log entry for it
 * lands in another: in between, the table's own triggers and foreign key actions may write rows, even the same one, and
 * log them, and a trigger that raises IGNORE keeps the entry from landing at all. After the batch the schema is
 * compared, triggers are re-synced, the clock moves and old delete markers are pruned.
 */
module ChangeLog {
  import opened Options
  import opened RemoteData

  /** How a key column compares: SQLite's three collations. */
  datatype Collation = Binary | NoCase | RTrim

  function LowerAscii(c: char): char {
    if 'A' <= c <= 'Z' then (c as int + 32) as char else c
  }

  function WithoutTrailing(s: string): string {
    if s != [] && s[|s| - 1] == ' ' then WithoutTrailing(s[..|s| - 1]) else s
  }

  /** What of an id a collation compares: two ids are one key where it is the same. */
  function Canon(c: Collation, id: string): string {
    match c
    case Binary => id
    case NoCase => seq(|id|, i requires 0 <= i < |id| => LowerAscii(id[i]))
    case RTrim => WithoutTrailing(id)
  }

  /**
   * One user table. `columns` is its CREATE statement less its name, `collation` its key column's; `keyed` is false for
   * a table with no single row id.
   */
  datatype Table = Table(
    columns: string,
    keyed: bool,
    collation: Collation,
    logsAs: Option<string>,
    rows: map<string, Data>)
  type Tables = map<string, Table>

  datatype Op = PutOp | DeleteOp
  datatype Entry = Entry(clock: nat, op: Op)
  type Log = map<Key, Entry>

  datatype Db = Db(tables: Tables, log: Log, clock: nat, historyStartsAt: nat)

  /** One row written by a statement, a trigger or a foreign key action. */
  datatype RowOp =
    | Insert(table: string, id: string, data: Data)
    | Update(table: string, id: string, newId: string, data: Data)
    | Remove(table: string, id: string)

  /** What a batch does, step by step. `Abort` is a statement SQLite (or the byte cap) refuses. */
  datatype Step =
    | Write(op: RowOp)
    | Land(op: RowOp)
    | Create(table: string, columns: string, keyed: bool, collation: Collation)
    | Drop(table: string)
    | Rename(table: string, newName: string)
    | Alter(table: string, columns: string, rows: map<string, Data>)
    | Abort

  /** The rows a snapshot of every table would serve. */
  function Visible(tables: Tables): Rows {
    map t, id | t in tables && tables[t].keyed && id in tables[t].rows :: Key(t, id) := tables[t].rows[id]
  }

  lemma VisibleLook(tables: Tables, k: Key)
    ensures Look(Visible(tables), k) ==
            if k.table in tables && tables[k.table].keyed && k.id in tables[k.table].rows
            then Some(tables[k.table].rows[k.id]) else None
  {
    if k.table in tables && tables[k.table].keyed && k.id in tables[k.table].rows {
      assert Key(k.table, k.id) == k && k in Visible(tables);
    }
  }

  /** The clock a batch is logged at, one past the clock it started from. */
  function Next(clock: nat): nat {
    clock + 1
  }

  // ---- the triggers' log steps ----

  /** Delete-then-insert of one key's entry; with `when` false only the delete happens. */
  function Record(log: Log, k: Key, clock: nat, op: Op, when: bool): Log {
    if when then (log - {k})[k := Entry(Next(clock), op)] else log - {k}
  }

  /** The entry of one row written, as the table's trigger logs it: a changed key is one its collation tells apart. */
  function Landed(log: Log, l: string, c: Collation, clock: nat, op: RowOp): Log {
    match op
    case Insert(_, id, _) => Record(log, Key(l, id), clock, PutOp, true)
    case Update(_, id, newId, _) =>
      var moved := Record(log, Key(l, id), clock, DeleteOp, Canon(c, id) != Canon(c, newId));
      Record(moved, Key(l, newId), clock, PutOp, true)
    case Remove(_, id) => Record(log, Key(l, id), clock, DeleteOp, true)
  }

  function WithRows(tables: Tables, t: string, rows: map<string, Data>): Tables
    requires t in tables
  {
    tables[t := tables[t].(rows := rows)]
  }

  /** A row other than `but` already has an id's key. */
  predicate Clashes(t: Table, id: string, but: set<string>) {
    exists r :: r in t.rows && r !in but && Canon(t.collation, r) == Canon(t.collation, id)
  }

  /** The rows a write leaves in its table, or `None` when SQLite refuses it. */
  function Written(t: Table, op: RowOp): Option<map<string, Data>> {
    match op
    case Insert(_, id, data) => if Clashes(t, id, {}) then None else Some(t.rows[id := data])
    case Update(_, id, newId, data) =>
      if id !in t.rows || Clashes(t, newId, {id}) then None else Some((t.rows - {id})[newId := data])
    case Remove(_, id) => if id !in t.rows then None else Some(t.rows - {id})
  }

  /** One step, or `None` when SQLite refuses it. */
  function Exec(db: Db, s: Step): Option<Db> {
    match s
    case Write(op) =>
      if op.table !in db.tables || Written(db.tables[op.table], op).None? then None
      else Some(db.(tables := WithRows(db.tables, op.table, Written(db.tables[op.table], op).value)))
    case Land(op) =>
      if op.table !in db.tables then None
      else if db.tables[op.table].logsAs.None? then Some(db)
      else
        var t := db.tables[op.table];
        Some(db.(log := Landed(db.log, t.logsAs.value, t.collation, db.clock, op)))
    case Create(t, columns, keyed, collation) =>
      if t in db.tables then None
      else Some(db.(tables := db.tables[t := Table(columns, keyed, collation, None, map[])]))
    case Drop(t) =>
      if t !in db.tables then None else Some(db.(tables := db.tables - {t}))
    case Rename(t, u) =>
      if t !in db.tables || u in db.tables then None else Some(db.(tables := (db.tables - {t})[u := db.tables[t]]))
    case Alter(t, columns, rows) =>
      if t !in db.tables || rows.Keys != db.tables[t].rows.Keys then None
      else Some(db.(tables := db.tables[t := db.tables[t].(columns := columns, rows := rows)]))
    case Abort => None
  }

  function ExecAll(db: Db, steps: seq<Step>): Option<Db> {
    if steps == [] then Some(db)
    else
      var mid := ExecAll(db, steps[..|steps| - 1]);
      if mid.None? then None else Exec(mid.value, steps[|steps| - 1])
  }

  // ---- trigger sync ----

  function Tracked(tables: Tables): map<string, string> {
    map t | t in tables && tables[t].logsAs == Some(t) :: tables[t].columns
  }

  datatype Shape = Shape(columns: string, keyed: bool, logsAs: Option<string>)

  /** Everything the schema signature covers: every table and the triggers on it. */
  function Signature(tables: Tables): map<string, Shape> {
    map t | t in tables :: Shape(tables[t].columns, tables[t].keyed, tables[t].logsAs)
  }

  function Lost(before: map<string, string>, now: map<string, string>): set<string> {
    set t | t in before && !(t in now && now[t] == before[t])
  }

  function DropStale(tables: Tables): Tables {
    map t | t in tables :: if tables[t].logsAs == Some(t) then tables[t] else tables[t].(logsAs := None)
  }

  function InstallOn(tables: Tables, t: string): Table
    requires t in tables
  {
    if tables[t].keyed then tables[t].(logsAs := Some(t)) else tables[t]
  }

  function Install(tables: Tables): Tables {
    map t | t in tables :: InstallOn(tables, t)
  }

  function ForgetTables(log: Log, lost: set<string>): Log {
    map k | k in log && k.table !in lost :: log[k]
  }

  /** The rows of one newly tracked table, logged whole. */
  function BackfillTable(log: Log, t: string, ids: set<string>, at: nat): Log {
    log + map id | id in ids :: Key(t, id) := Entry(at, PutOp)
  }

  /** The rows of every table that had no triggers, logged whole. */
  function Backfill(log: Log, tables: Tables, at: nat): Log {
    log + map k | k in Visible(tables) && tables[k.table].logsAs != Some(k.table) :: Entry(at, PutOp)
  }

  predicate SyncSkipped(before: Tables, db: Db) {
    Signature(db.tables) == Signature(before)
  }

  function LostTables(before: Tables, db: Db): set<string> {
    Lost(Tracked(before), Tracked(db.tables))
  }

  function BackfillUnless(lost: set<string>, log: Log, tables: Tables, at: nat): Log {
    if lost == {} then Backfill(log, tables, at) else log
  }

  /** The log after the sync: a lost table's entries go; with none lost, the rows of new tables are logged whole. */
  function SyncLog(db: Db, skipped: bool, lost: set<string>): Log {
    if skipped then db.log
    else BackfillUnless(lost, ForgetTables(db.log, lost), DropStale(db.tables), Next(db.clock))
  }

  /** The sync is skipped when the schema signature is what it was. */
  function SyncedDb(before: Tables, db: Db): Db {
    db.(tables := if SyncSkipped(before, db) then db.tables else Install(DropStale(db.tables)),
        log := SyncLog(db, SyncSkipped(before, db), LostTables(before, db)))
  }

  predicate Broken(before: Tables, db: Db) {
    !SyncSkipped(before, db) && LostTables(before, db) != {}
  }

  // ---- pruning and commit ----

  function Markers(log: Log, upTo: nat): set<Key> {
    set k | k in log && log[k].op.DeleteOp? && log[k].clock <= upTo
  }

  function AllMarkers(log: Log): set<Key> {
    set k | k in log && log[k].op.DeleteOp?
  }

  /** The least clock at or under which `over` delete markers sit: entry `over - 1` of the markers by clock. */
  function Cutoff(log: Log, over: nat, from: nat, bound: nat): (c: nat)
    requires from <= bound && over <= |Markers(log, bound)|
    requires from > 0 ==> |Markers(log, from - 1)| < over
    ensures c <= bound && over <= |Markers(log, c)|
    ensures c > 0 ==> |Markers(log, c - 1)| < over
    decreases bound - from
  {
    if over <= |Markers(log, from)| then from else Cutoff(log, over, from + 1, bound)
  }

  function PruneLog(log: Log, cutoff: nat): Log {
    map k | k in log && !(log[k].op.DeleteOp? && log[k].clock <= cutoff) :: log[k]
  }

  predicate ClocksBounded(db: Db) {
    forall k :: k in db.log ==> db.log[k].clock <= db.clock
  }

  lemma MarkersBounded(db: Db)
    requires ClocksBounded(db)
    ensures Markers(db.log, db.clock) == AllMarkers(db.log)
  {
  }

  function Pruned(db: Db, cap: nat): (d: Db)
    requires ClocksBounded(db)
    ensures d.tables == db.tables && d.clock == db.clock
  {
    var over := |AllMarkers(db.log)| - cap;
    if over <= 0 then db
    else
      MarkersBounded(db);
      var cutoff := Cutoff(db.log, over, 0, db.clock);
      db.(log := PruneLog(db.log, cutoff), historyStartsAt := Max(db.historyStartsAt, cutoff))
  }

  function LoggedAt(log: Log, clock: nat): set<Key> {
    set k | k in log && log[k].clock == clock
  }

  predicate Bumps(before: Tables, db: Db) {
    LoggedAt(SyncedDb(before, db).log, Next(db.clock)) != {} || Broken(before, db)
  }

  function Bumped(before: Tables, db: Db): Db {
    var next := Next(db.clock);
    SyncedDb(before, db).(clock := next, historyStartsAt := if Broken(before, db) then next else db.historyStartsAt)
  }

  /** What the end of a batch's transaction leaves. */
  function Committed(before: Tables, db: Db, cap: nat): Db
    requires ClocksBounded(Bumped(before, db))
  {
    if Bumps(before, db) then Pruned(Bumped(before, db), cap) else SyncedDb(before, db)
  }

  // ---- answers ----

  function LoggedSince(log: Log, since: nat): set<Key> {
    set k | k in log && log[k].clock > since
  }

  /** What `changesSince(since)` has to tell: keys logged deleted after it, and rows logged put after it and there. */
  function DeltaSince(db: Db, since: nat): Delta {
    map k | k in db.log && db.log[k].clock > since && (db.log[k].op.DeleteOp? || k in Visible(db.tables)) ::
      if db.log[k].op.PutOp? then Some(Visible(db.tables)[k]) else None
  }

  predicate WipesAll(db: Db, since: nat, maxPullChanges: nat) {
    since < db.historyStartsAt || since > db.clock || |LoggedSince(db.log, since)| > maxPullChanges
  }

  // ---- invariant of the committed states ----

  /** Every key with no entry after `since` holds what it held at `since`. */
  ghost predicate UnloggedUnchanged(db: Db, history: seq<Rows>, since: nat)
    requires since < |history|
  {
    forall k :: (k in db.log ==> db.log[k].clock <= since) ==> Look(history[since], k) == Look(Visible(db.tables), k)
  }

  /**
   * What every batch leaves: triggers on every table with a row id, entries of such tables only, none ahead of the
   * clock.
   */
  ghost predicate Shaped(db: Db) {
    && ClocksBounded(db)
    && (forall t :: t in db.tables ==> db.tables[t].logsAs == if db.tables[t].keyed then Some(t) else None)
    && (forall k :: k in db.log ==> k.table in db.tables && db.tables[k.table].keyed)
  }

  /** Every entry is right about its row: a put exactly where the row is there. */
  ghost predicate Truthful(db: Db) {
    forall k :: k in db.log ==> (db.log[k].op.PutOp? <==> k in Visible(db.tables))
  }

  /** `history[c]` is what the source's tables held at clock `c`. */
  ghost predicate Faithful(db: Db, history: seq<Rows>) {
    && |history| == Next(db.clock)
    && db.historyStartsAt <= db.clock
    && history[db.clock] == Visible(db.tables)
    && (forall s :: db.historyStartsAt <= s <= db.clock ==> UnloggedUnchanged(db, history, s))
  }

  ghost predicate Inv(db: Db, history: seq<Rows>, cap: nat) {
    Shaped(db) && Truthful(db) && Faithful(db, history) && |AllMarkers(db.log)| <= cap
  }

  /** Log completeness, and more: what an answer leaves out did not change at any clock since. */
  lemma DeltaSinceSound(db: Db, history: seq<Rows>, cap: nat, since: nat)
    requires Inv(db, history, cap)
    requires db.historyStartsAt <= since <= db.clock
    ensures Sound(history, since, db.clock, DeltaSince(db, since))
  {
    var d := DeltaSince(db, since);
    forall k, m | k !in d && since <= m <= db.clock ensures Look(history[m], k) == Look(history[db.clock], k) {
      assert UnloggedUnchanged(db, history, m);
    }
  }

  /**
   * Log completeness. From any clock inside the history, with no more keys logged since than a pull may carry, the
   * answer does not wipe and takes the rows at that clock to the rows as they are.
   */
  lemma LogCompleteness(db: Db, history: seq<Rows>, cap: nat, maxPull: nat, since: nat)
    requires Inv(db, history, cap)
    requires db.historyStartsAt <= since <= db.clock && |set k | k in db.log && db.log[k].clock > since| <= maxPull
    ensures !WipesAll(db, since, maxPull)
    ensures Patch(history[since], DeltaSince(db, since)) == Visible(db.tables)
  {
    DeltaSinceSound(db, history, cap, since);
    SoundPatch(history, since, db.clock, DeltaSince(db, since), since);
  }

  // ---- pruning ----

  /** Of two markers, one that stays is not older than one that goes. */
  ghost predicate DropsOlder(log: Log, left: Log, k: Key, j: Key) {
    k in log && j in log && log[k].op.DeleteOp? && log[j].op.DeleteOp? && k in left && j !in left ==>
      log[j].clock < log[k].clock
  }

  /** What pruning is for: the markers within the cap, whole clocks of the oldest gone and nothing else. */
  lemma PruneDropsOldest(db: Db, cap: nat, p: Db)
    requires ClocksBounded(db) && p == Pruned(db, cap)
    ensures |AllMarkers(p.log)| <= cap
    ensures forall k, j :: DropsOlder(db.log, p.log, k, j)
    ensures forall k :: k in p.log ==> k in db.log && p.log[k] == db.log[k]
    ensures forall k :: k in db.log && k !in p.log ==> db.log[k].op.DeleteOp? && db.log[k].clock <= p.historyStartsAt
    ensures db.historyStartsAt <= db.clock ==> p.historyStartsAt <= db.clock
  {
    var over := |AllMarkers(db.log)| - cap;
    if over > 0 {
      MarkersBounded(db);
      var cutoff := Cutoff(db.log, over, 0, db.clock);
      assert AllMarkers(p.log) == AllMarkers(db.log) - Markers(db.log, cutoff);
      assert Markers(db.log, cutoff) <= AllMarkers(db.log);
    }
  }

  lemma PruneKeepsShape(db: Db, cap: nat)
    requires Shaped(db)
    ensures Shaped(Pruned(db, cap)) && |AllMarkers(Pruned(db, cap).log)| <= cap
    ensures db.historyStartsAt <= db.clock ==> Pruned(db, cap).historyStartsAt <= db.clock
  {
    PruneDropsOldest(db, cap, Pruned(db, cap));
  }

  /** Pruning keeps the invariant and brings the markers under the cap. */
  lemma PruneKeeps(db: Db, history: seq<Rows>, cap: nat)
    requires Shaped(db) && Truthful(db) && Faithful(db, history)
    ensures Inv(Pruned(db, cap), history, cap)
  {
    PruneKeepsShape(db, cap);
    if |AllMarkers(db.log)| > cap {
      var p := Pruned(db, cap);
      forall s | p.historyStartsAt <= s <= p.clock ensures UnloggedUnchanged(p, history, s) {
        assert UnloggedUnchanged(db, history, s);
      }
    }
  }

  /** Pruning changes no answer from the new start of the history on. */
  lemma PruneKeepsAnswers(db: Db, cap: nat, since: nat)
    requires ClocksBounded(db) && Pruned(db, cap).historyStartsAt <= since
    ensures DeltaSince(Pruned(db, cap), since) == DeltaSince(db, since)
    ensures forall maxPull :: WipesAll(Pruned(db, cap), since, maxPull) == WipesAll(db, since, maxPull)
  {
    if |AllMarkers(db.log)| > cap {
      MarkersBounded(db);
      var cutoff := Cutoff(db.log, |AllMarkers(db.log)| - cap, 0, db.clock);
      assert cutoff <= since;
    }
    assert DeltaSince(Pruned(db, cap), since) == DeltaSince(db, since);
    assert LoggedSince(Pruned(db, cap).log, since) == LoggedSince(db.log, since);
  }

  // ---- the sync, key by key ----

  lemma DropStaleKeepsVisible(tables: Tables)
    ensures Visible(DropStale(tables)) == Visible(tables)
    ensures Visible(Install(tables)) == Visible(tables)
  {
    forall k
      ensures Look(Visible(DropStale(tables)), k) == Look(Visible(tables), k)
      ensures Look(Visible(Install(tables)), k) == Look(Visible(tables), k)
    {
      VisibleLook(DropStale(tables), k);
      VisibleLook(Install(tables), k);
      VisibleLook(tables, k);
    }
    LookExtensional(Visible(DropStale(tables)), Visible(tables));
    LookExtensional(Visible(Install(tables)), Visible(tables));
  }

  lemma SyncKeepsVisible(before: Tables, db: Db)
    ensures Visible(SyncedDb(before, db).tables) == Visible(db.tables)
  {
    DropStaleKeepsVisible(db.tables);
    DropStaleKeepsVisible(DropStale(db.tables));
  }

  /** A visible row of a table that has no triggers of its own: what the backfill logs. */
  predicate NewRow(tables: Tables, k: Key) {
    k.table in tables && tables[k.table].keyed && k.id in tables[k.table].rows &&
      tables[k.table].logsAs != Some(k.table)
  }

  predicate SameEntry(a: Log, b: Log, k: Key) {
    (k in a <==> k in b) && (k in a ==> a[k] == b[k])
  }

  lemma LogExtensional(a: Log, b: Log)
    requires forall k :: SameEntry(a, b, k)
    ensures a == b
  {
    forall k ensures k in a <==> k in b {
      assert SameEntry(a, b, k);
    }
    forall k | k in a ensures a[k] == b[k] {
      assert SameEntry(a, b, k);
    }
  }

  lemma BackfilledEntry(log: Log, tables: Tables, at: nat, k: Key)
    ensures
      var log' := Backfill(log, DropStale(tables), at);
      if NewRow(tables, k) then k in log' && log'[k] == Entry(at, PutOp) else SameEntry(log', log, k)
  {
    DropStaleKeepsVisible(tables);
    VisibleLook(tables, k);
  }

  lemma ForgottenEntry(log: Log, lost: set<string>, k: Key)
    ensures if k.table in lost then k !in ForgetTables(log, lost) else SameEntry(ForgetTables(log, lost), log, k)
  {
  }

  /** The log after the sync, key by key. */
  lemma SyncLogEntry(db: Db, skipped: bool, lost: set<string>, k: Key)
    ensures
      var log' := SyncLog(db, skipped, lost);
      if !skipped && lost == {} && NewRow(db.tables, k) then k in log' && log'[k] == Entry(Next(db.clock), PutOp)
      else if !skipped && k.table in lost then k !in log'
      else SameEntry(log', db.log, k)
  {
    ForgottenEntry(db.log, lost, k);
    if lost == {} {
      BackfilledEntry(ForgetTables(db.log, lost), db.tables, Next(db.clock), k);
    }
  }

  lemma SameSignature(start: Db, db: Db)
    requires Signature(db.tables) == Signature(start.tables)
    ensures LostTables(start.tables, db) == {}
    ensures forall t :: t in db.tables <==> t in start.tables
    ensures forall t :: t in db.tables ==>
              db.tables[t].logsAs == start.tables[t].logsAs && db.tables[t].keyed == start.tables[t].keyed
  {
    var a, b := Signature(db.tables), Signature(start.tables);
    assert forall t :: t in a <==> t in db.tables;
    assert forall t :: t in b <==> t in start.tables;
    forall t | t in db.tables
      ensures db.tables[t].logsAs == start.tables[t].logsAs && db.tables[t].keyed == start.tables[t].keyed
      ensures db.tables[t].columns == start.tables[t].columns
    {
      assert a[t] == b[t];
    }
  }

  /** The sync of a schema whose tables are as they were, though something else in it changed, does nothing. */
  lemma IdleSync(start: Db, db: Db)
    requires Shaped(start) && SyncSkipped(start.tables, db)
    ensures Install(DropStale(db.tables)) == db.tables && SyncLog(db, false, LostTables(start.tables, db)) == db.log
  {
    SameSignature(start, db);
    var log' := SyncLog(db, false, {});
    forall k ensures SameEntry(log', db.log, k) {
      SyncLogEntry(db, false, {}, k);
    }
    LogExtensional(log', db.log);
  }

  lemma SyncLogSteps(db: Db, lost: set<string>, dropped: Tables, forgotten: Log, filled: Log, at: nat)
    requires dropped == DropStale(db.tables) && forgotten == ForgetTables(db.log, lost)
    requires filled == BackfillUnless(lost, forgotten, dropped, at) && at == Next(db.clock)
    ensures filled == SyncLog(db, false, lost)
  {
  }

  lemma DropStaleKeepsTracked(tables: Tables)
    ensures Tracked(DropStale(tables)) == Tracked(tables)
  {
  }

  /** Entry `k` of a log backfilled for every table but those in `todo`. */
  ghost predicate Filled(before: Log, tables: Tables, at: nat, todo: set<string>, log: Log, k: Key) {
    if NewRow(tables, k) && k.table !in todo then k in log && log[k] == Entry(at, PutOp) else SameEntry(log, before, k)
  }

  /** The log once table `t` is dealt with. */
  function FillTable(log: Log, tables: Tables, at: nat, t: string): Log
    requires t in tables
  {
    if tables[t].keyed && tables[t].logsAs != Some(t) then BackfillTable(log, t, tables[t].rows.Keys, at) else log
  }

  lemma FillOneTable(before: Log, tables: Tables, at: nat, todo: set<string>, log: Log, t: string)
    requires t in todo && t in tables
    requires forall k :: Filled(before, tables, at, todo, log, k)
    ensures forall k :: Filled(before, tables, at, todo - {t}, FillTable(log, tables, at, t), k)
  {
    forall k ensures Filled(before, tables, at, todo - {t}, FillTable(log, tables, at, t), k) {
      assert Filled(before, tables, at, todo, log, k);
      assert Key(k.table, k.id) == k;
    }
  }

  lemma FilledIsBackfill(before: Log, tables: Tables, at: nat, log: Log)
    requires forall k :: Filled(before, tables, at, {}, log, k)
    ensures log == Backfill(before, tables, at)
  {
    var filled := Backfill(before, tables, at);
    forall k ensures SameEntry(log, filled, k) {
      assert Filled(before, tables, at, {}, log, k);
      VisibleLook(tables, k);
    }
    LogExtensional(log, filled);
  }

  lemma {:induction false} ExecAllConcat(db: Db, a: seq<Step>, b: seq<Step>)
    ensures ExecAll(db, a + b) == if ExecAll(db, a).None? then None else ExecAll(ExecAll(db, a).value, b)
  {
    if b == [] {
      assert a + b == a;
    } else {
      var init := b[..|b| - 1];
      assert (a + b)[..|a + b| - 1] == a + init;
      ExecAllConcat(db, a, init);
    }
  }
}
