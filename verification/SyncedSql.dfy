/** The source object: one write funnel over its tables, and the answers it gives its followers. */
module SyncedSql {
  import opened Options
  import opened RemoteData
  import opened ChangeLog
  import opened Batches
  import opened Answers

  /** A batch's outcome; a failure names the statement that failed. */
  datatype Outcome = Done | Failed(statement: nat)

  function Flat(statements: seq<seq<Step>>): seq<Step> {
    if statements == [] then []
    else Flat(statements[..|statements| - 1]) + statements[|statements| - 1]
  }

  function Only(d: Delta, keys: set<Key>): Delta {
    map k | k in keys && k in d :: d[k]
  }

  ghost predicate Tells(changes: seq<RemoteChange>, d: Delta, keys: set<Key>) {
    keys <= d.Keys && Lists(changes, Only(d, keys))
  }

  lemma TellOne(changes: seq<RemoteChange>, d: Delta, keys: set<Key>, c: RemoteChange)
    requires Tells(changes, d, keys) && c.key in d && c.key !in keys && d[c.key] == ValueOf(c)
    ensures Tells(changes + [c], d, keys + {c.key})
  {
    assert (changes + [c])[..|changes|] == changes;
    assert Only(d, keys + {c.key}) == Only(d, keys)[c.key := ValueOf(c)];
    assert Only(d, keys + {c.key}).Keys == Only(d, keys).Keys + {c.key};
  }

  ghost predicate Partition(told: set<Key>, rest: set<Key>, d: Delta) {
    told + rest == d.Keys && told !! rest
  }

  lemma MoveOne(told: set<Key>, todo: set<Key>, later: set<Key>, d: Delta, k: Key)
    requires Partition(told, todo + later, d) && k in todo && todo !! later
    ensures Partition(told + {k}, todo - {k} + later, d)
  {
  }

  lemma TellsAll(changes: seq<RemoteChange>, d: Delta, told: set<Key>)
    requires Tells(changes, d, told) && Partition(told, {}, d)
    ensures Lists(changes, d)
  {
    assert Only(d, told) == d;
  }

  function MarkersSince(log: Log, since: nat): set<Key> {
    set k | k in log && log[k].op.DeleteOp? && log[k].clock > since
  }

  function PutsSince(log: Log, since: nat): set<Key> {
    set k | k in log && log[k].op.PutOp? && log[k].clock > since
  }

  /** The keys whose rows are there: what the join of the log with the tables finds. */
  function Joined(tables: Tables, keys: set<Key>): set<Key> {
    set k | k in keys && k.table in tables && tables[k.table].keyed && k.id in tables[k.table].rows
  }

  lemma DeltaParts(db: Db, since: nat, d: Delta)
    requires d == DeltaSince(db, since)
    ensures Partition(MarkersSince(db.log, since), Joined(db.tables, PutsSince(db.log, since)), d)
  {
    forall k ensures k in d <==> k in MarkersSince(db.log, since) + Joined(db.tables, PutsSince(db.log, since)) {
      VisibleLook(db.tables, k);
    }
  }

  ghost predicate JoinedIs(db: Db, since: nat, todo: set<Key>, rest: set<Key>) {
    todo <= PutsSince(db.log, since) && rest == Joined(db.tables, todo)
  }

  lemma JoinOne(db: Db, since: nat, todo: set<Key>, rest: set<Key>, k: Key)
    requires JoinedIs(db, since, todo, rest) && k in todo
    ensures JoinedIs(db, since, todo - {k}, rest - {k})
    ensures k in rest <==> k.table in db.tables && db.tables[k.table].keyed && k.id in db.tables[k.table].rows
    ensures rest <= Joined(db.tables, PutsSince(db.log, since))
  {
  }

  lemma PassOver(told: set<Key>, rest: set<Key>, d: Delta, k: Key)
    requires Partition(told, rest, d) && k !in rest
    ensures Partition(told, rest - {k}, d)
  {
    assert rest - {k} == rest;
  }

  lemma DeltaMarker(db: Db, since: nat, k: Key, d: Delta)
    requires d == DeltaSince(db, since) && k in MarkersSince(db.log, since)
    ensures k in d && d[k] == None
  {
  }

  /** Some markers told, `todo` and the puts still to tell. */
  ghost predicate MarkersTold(db: Db, since: nat, d: Delta, todo: set<Key>, puts: set<Key>, told: set<Key>,
                              out: seq<RemoteChange>) {
    && d == DeltaSince(db, since) && todo <= MarkersSince(db.log, since) && todo !! puts
    && Partition(told, todo + puts, d) && Tells(out, d, told)
  }

  lemma NoMarkerTold(db: Db, since: nat, d: Delta, puts: set<Key>)
    requires d == DeltaSince(db, since) && Partition(MarkersSince(db.log, since), puts, d)
    ensures MarkersTold(db, since, d, MarkersSince(db.log, since), puts, {}, [])
  {
  }

  lemma TellMarker(db: Db, since: nat, d: Delta, todo: set<Key>, puts: set<Key>, told: set<Key>, out: seq<RemoteChange>,
                   k: Key)
    requires MarkersTold(db, since, d, todo, puts, told, out) && k in todo
    ensures MarkersTold(db, since, d, todo - {k}, puts, told + {k}, out + [Delete(k)])
  {
    DeltaMarker(db, since, k, d);
    TellOne(out, d, told, Delete(k));
    MoveOne(told, todo, puts, d, k);
  }

  lemma MarkersDone(db: Db, since: nat, d: Delta, puts: set<Key>, told: set<Key>, out: seq<RemoteChange>)
    requires MarkersTold(db, since, d, {}, puts, told, out)
    ensures Tells(out, d, told) && Partition(told, puts, d)
  {
    assert {} + puts == puts;
  }

  /** A logged put of a row that is there is told as that row. */
  lemma DeltaPut(db: Db, since: nat, k: Key, d: Delta)
    requires d == DeltaSince(db, since) && k in Joined(db.tables, PutsSince(db.log, since))
    ensures k in d && d[k] == Some(db.tables[k.table].rows[k.id])
  {
    VisibleLook(db.tables, k);
  }

  lemma TellJoined(db: Db, since: nat, d: Delta, rest: set<Key>, told: set<Key>, out: seq<RemoteChange>, k: Key)
    requires d == DeltaSince(db, since) && k in rest && rest <= Joined(db.tables, PutsSince(db.log, since))
    requires Partition(told, rest, d) && Tells(out, d, told)
    ensures Partition(told + {k}, rest - {k}, d)
    ensures Tells(out + [Put(k, db.tables[k.table].rows[k.id])], d, told + {k})
  {
    DeltaPut(db, since, k, d);
    TellOne(out, d, told, Put(k, db.tables[k.table].rows[k.id]));
  }

  /** Two states of a log answer alike from a clock. */
  ghost predicate SameAnswer(a: Db, b: Db, since: nat) {
    DeltaSince(a, since) == DeltaSince(b, since) && forall maxPull ::
      WipesAll(a, since, maxPull) == WipesAll(b, since, maxPull)
  }

  /** A push tells of the clock just reached, and what it carries inline is the whole of the batch since `since`. */
  ghost predicate AnnouncesBatch(db: Db, history: seq<Rows>, since: nat, p: RemotePush<string>) {
    && p.clock == db.clock == Next(since)
    && (p.changes.Some? ==> Lists(p.changes.value, DeltaSince(db, since)) && TellsSince(db, since, p.changes.value))
    && (Complete(db, history) && p.changes.Some? ==> Sound(history, since, db.clock, DeltaOf(p.changes.value)))
  }

  lemma InlineAnnounces(db: Db, history: seq<Rows>, cap: nat, since: nat, p: RemotePush<string>)
    requires Sane(db, cap) && p.clock == db.clock == Next(since)
    requires p.changes.Some? ==> db.historyStartsAt < db.clock && Lists(p.changes.value, DeltaSince(db, since))
    ensures AnnouncesBatch(db, history, since, p)
  {
    if p.changes.Some? {
      ListsTells(db, since, p.changes.value);
    }
    if Complete(db, history) && p.changes.Some? {
      DeltaSinceSound(db, history, cap, since);
    }
  }

  /** What a source answers a pull: a wipe exactly where it must, and else all that was logged since. */
  ghost predicate Responds(r: RemoteChanges<string>, epoch: string, db: Db, since: nat, maxPull: nat) {
    && r.epoch == epoch && r.clock == db.clock && r.wipeAll == WipesAll(db, since, maxPull)
    && if r.wipeAll then r.changes == [] else Lists(r.changes, DeltaSince(db, since))
  }

  lemma InstalledSane(existing: Tables, cap: nat, db: Db, history: seq<Rows>)
    requires forall t :: t in existing ==> existing[t].logsAs.None?
    requires db == Installed(existing) && history == [Visible(existing)]
    ensures Sane(db, cap) && Complete(db, history) && |history| == Next(db.clock)
  {
    InstalledInv(existing, cap);
  }

  class SyncedSql {
    const epoch: string
    const maxTombstones: nat
    const maxInlineChanges: nat
    const maxPullChanges: nat
    const notifies: bool
    var tables: Tables
    var log: Log
    var clock: nat
    var historyStartsAt: nat
    var pushed: seq<RemotePush<string>>
    /** The rows the tables held at each clock so far. */
    ghost var history: seq<Rows>

    function View(): Db
      reads `tables, `log, `clock, `historyStartsAt
    {
      Db(tables, log, clock, historyStartsAt)
    }

    ghost predicate Valid()
      reads `tables, `log, `clock, `historyStartsAt, `history
    {
      Sane(View(), maxTombstones) && |history| == Next(clock)
    }

    /** The log tells every change since any clock it answers for. */
    ghost predicate Complete()
      reads `tables, `log, `clock, `historyStartsAt, `history
    {
      Batches.Complete(View(), history)
    }

    constructor (epoch: string, maxTombstones: nat, maxInlineChanges: nat, maxPullChanges: nat, notifies: bool,
                 existing: Tables)
      requires forall t :: t in existing ==> existing[t].logsAs.None?
      ensures Valid() && Complete() && View() == Installed(existing) && history == [Visible(existing)] && pushed == []
      ensures this.epoch == epoch && this.maxTombstones == maxTombstones && this.notifies == notifies
      ensures this.maxInlineChanges == maxInlineChanges && this.maxPullChanges == maxPullChanges
    {
      this.epoch := epoch;
      this.maxTombstones := maxTombstones;
      this.maxInlineChanges := maxInlineChanges;
      this.maxPullChanges := maxPullChanges;
      this.notifies := notifies;
      tables, log, clock, historyStartsAt := Install(DropStale(existing)), map[], 0, 0;
      pushed := [];
      history := [Visible(existing)];
      new;
      InstalledSane(existing, maxTombstones, Installed(existing), [Visible(existing)]);
      assert View() == Installed(existing);
    }

    // ---- triggers ----

    method Record(k: Key, op: Op, when: bool)
      modifies `log
      ensures log == ChangeLog.Record(old(log), k, clock, op, when)
    {
      log := log - {k};
      if when {
        log := log[k := Entry(Next(clock), op)];
      }
    }

    /** The entry of one row written. */
    method Log(l: string, collation: Collation, op: RowOp)
      modifies `log
      ensures log == Landed(old(log), l, collation, clock, op)
    {
      match op
      case Insert(_, id, _) =>
        Record(Key(l, id), PutOp, true);
      case Update(_, id, newId, _) =>
        Record(Key(l, id), DeleteOp, Canon(collation, id) != Canon(collation, newId));
        Record(Key(l, newId), PutOp, true);
      case Remove(_, id) =>
        Record(Key(l, id), DeleteOp, true);
    }

    /** One row or schema step, or the entry a trigger logs for a row. */
    method Exec(s: Step) returns (ok: bool)
      modifies `tables, `log
      ensures ok <==> ChangeLog.Exec(old(View()), s).Some?
      ensures View() == if ok then ChangeLog.Exec(old(View()), s).value else old(View())
    {
      ok := true;
      match s
      case Write(op) =>
        if op.table !in tables { return false; }
        var written := Written(tables[op.table], op);
        if written.None? { return false; }
        tables := WithRows(tables, op.table, written.value);
      case Land(op) =>
        if op.table !in tables { return false; }
        if tables[op.table].logsAs.Some? {
          Log(tables[op.table].logsAs.value, tables[op.table].collation, op);
        }
      case Create(t, columns, keyed, collation) =>
        if t in tables { return false; }
        tables := tables[t := Table(columns, keyed, collation, None, map[])];
      case Drop(t) =>
        if t !in tables { return false; }
        tables := tables - {t};
      case Rename(t, u) =>
        if t !in tables || u in tables { return false; }
        tables := (tables - {t})[u := tables[t]];
      case Alter(t, columns, rows) =>
        if t !in tables || rows.Keys != tables[t].rows.Keys { return false; }
        tables := tables[t := tables[t].(columns := columns, rows := rows)];
      case Abort =>
        ok := false;
    }

    // ---- the trigger sync ----

    static method DropStaleTriggers(tables: Tables) returns (kept: Tables)
      ensures kept == DropStale(tables)
    {
      kept := tables;
      var todo := tables.Keys;
      while todo != {}
        invariant todo <= kept.Keys == tables.Keys
        invariant forall t :: t in kept ==> kept[t] == if t in todo then tables[t] else DropStale(tables)[t]
        decreases todo
      {
        var t :| t in todo;
        if kept[t].logsAs != Some(t) {
          kept := kept[t := kept[t].(logsAs := None)];
        }
        todo := todo - {t};
      }
    }

    static method ForgetLost(log: Log, lost: set<string>) returns (left: Log)
      ensures left == ForgetTables(log, lost)
    {
      left := log;
      var todo := lost;
      while todo != {}
        invariant todo <= lost
        invariant left == ForgetTables(log, lost - todo)
        decreases todo
      {
        var t :| t in todo;
        left := map k | k in left && k.table != t :: left[k];
        todo := todo - {t};
      }
      assert lost - todo == lost;
    }

    /** Installs the triggers tables lack and, with no table lost, logs the rows those tables hold. */
    static method InstallMissing(tables: Tables, log: Log, lost: set<string>, at: nat) returns (installed: Tables,
                                 filled: Log)
      ensures installed == Install(tables)
      ensures filled == BackfillUnless(lost, log, tables, at)
    {
      installed, filled := tables, log;
      var backfill := lost == {};
      var todo := tables.Keys;
      while todo != {}
        invariant todo <= installed.Keys == tables.Keys
        invariant forall t :: t in installed ==> installed[t] == if t in todo then tables[t] else InstallOn(tables, t)
        invariant !backfill ==> filled == log
        invariant backfill ==> forall k :: Filled(log, tables, at, todo, filled, k)
        decreases todo
      {
        var t :| t in todo;
        ghost var was := filled;
        if backfill {
          FillOneTable(log, tables, at, todo, was, t);
        }
        if installed[t].logsAs != Some(t) && installed[t].keyed {
          if backfill {
            filled := BackfillTable(filled, t, installed[t].rows.Keys, at);
          }
          installed := installed[t := installed[t].(logsAs := Some(t))];
        }
        assert backfill ==> filled == FillTable(was, tables, at, t);
        todo := todo - {t};
      }
      if backfill {
        FilledIsBackfill(log, tables, at, filled);
      }
    }

    method Sync(before: map<string, string>, backfillAt: nat) returns (broken: bool)
      requires backfillAt == Next(clock)
      modifies `tables, `log
      ensures tables == Install(DropStale(old(tables)))
      ensures log == SyncLog(old(View()), false, Lost(before, Tracked(old(tables))))
      ensures broken == (Lost(before, Tracked(old(tables))) != {})
    {
      var dropped := DropStaleTriggers(tables);
      DropStaleKeepsTracked(tables);
      var lost := Lost(before, Tracked(dropped));
      var forgotten := ForgetLost(log, lost);
      var installed, filled := InstallMissing(dropped, forgotten, lost, backfillAt);
      SyncLogSteps(View(), lost, dropped, forgotten, filled, backfillAt);
      tables, log := installed, filled;
      broken := lost != {};
    }

    // ---- answers ----

    static method ListMarkers(db: Db, since: nat, ghost delta: Delta, ghost puts: set<Key>)
        returns (out: seq<RemoteChange>, ghost told: set<Key>)
      requires delta == DeltaSince(db, since) && Partition(MarkersSince(db.log, since), puts, delta)
      ensures Tells(out, delta, told) && Partition(told, puts, delta)
    {
      out, told := [], {};
      var todo := MarkersSince(db.log, since);
      NoMarkerTold(db, since, delta, puts);
      while todo != {}
        invariant MarkersTold(db, since, delta, todo, puts, told, out)
        decreases todo
      {
        var k :| k in todo;
        TellMarker(db, since, delta, todo, puts, told, out, k);
        out, told, todo := out + [Delete(k)], told + {k}, todo - {k};
      }
      MarkersDone(db, since, delta, puts, told, out);
    }

    /** The changes after `since`: delete markers first, then the logged rows as they stand now, where they do. */
    static method ListDelta(db: Db, since: nat, ghost delta: Delta) returns (out: seq<RemoteChange>)
      requires delta == DeltaSince(db, since)
      ensures Lists(out, delta)
    {
      DeltaParts(db, since, delta);
      var todo := PutsSince(db.log, since);
      ghost var told, rest := {}, Joined(db.tables, todo);
      out, told := ListMarkers(db, since, delta, rest);
      while todo != {}
        invariant JoinedIs(db, since, todo, rest)
        invariant Partition(told, rest, delta) && Tells(out, delta, told)
        decreases todo
      {
        var k :| k in todo;
        JoinOne(db, since, todo, rest, k);
        if k.table in db.tables && db.tables[k.table].keyed && k.id in db.tables[k.table].rows {
          TellJoined(db, since, delta, rest, told, out, k);
          out, told := out + [Put(k, db.tables[k.table].rows[k.id])], told + {k};
        } else {
          PassOver(told, rest, delta, k);
        }
        todo, rest := todo - {k}, rest - {k};
      }
      TellsAll(out, delta, told);
    }

    method Changes(since: nat) returns (out: seq<RemoteChange>)
      ensures Lists(out, DeltaSince(View(), since)) && TellsSince(View(), since, out)
    {
      out := ListDelta(View(), since, DeltaSince(View(), since));
      ListsTells(View(), since, out);
    }

    method ChangesSince(since: nat) returns (r: RemoteChanges<string>)
      requires Valid()
      ensures Responds(r, epoch, View(), since, maxPullChanges)
      ensures r.wipeAll <==> !(historyStartsAt <= since <= clock &&
                               |set k | k in log && log[k].clock > since| <= maxPullChanges)
      ensures if r.wipeAll then r.changes == [] else TellsSince(View(), since, r.changes)
      ensures Complete() && !r.wipeAll ==> Sound(history, since, clock, DeltaOf(r.changes))
      ensures Complete() && !r.wipeAll ==> Replay(history[since], r.changes) == Visible(tables)
    {
      var backlog := set k | k in log && log[k].clock > since;
      assert backlog == LoggedSince(log, since);
      var wipeAll := since < historyStartsAt || since > clock || |backlog| > maxPullChanges;
      if wipeAll {
        return RemoteChanges(epoch, clock, [], true);
      }
      var changes := Changes(since);
      if Complete() {
        DeltaSinceSound(View(), history, maxTombstones, since);
        LogCompleteness(View(), history, maxTombstones, maxPullChanges, since);
        ReplayIsPatch(history[since], changes);
      }
      return RemoteChanges(epoch, clock, changes, false);
    }

    // ---- commit ----

    /** Drops the oldest delete markers past the cap, never splitting a clock, and starts the history after them. */
    method Prune()
      requires ClocksBounded(View())
      modifies `log, `historyStartsAt
      ensures View() == Pruned(old(View()), maxTombstones)
      ensures |AllMarkers(log)| <= maxTombstones
      ensures forall k, j :: DropsOlder(old(log), log, k, j)
      ensures forall since :: historyStartsAt <= since ==> SameAnswer(View(), old(View()), since)
    {
      PruneDropsOldest(View(), maxTombstones, Pruned(View(), maxTombstones));
      forall since | Pruned(View(), maxTombstones).historyStartsAt <= since
        ensures SameAnswer(Pruned(View(), maxTombstones), View(), since)
      {
        PruneKeepsAnswers(View(), maxTombstones, since);
      }
      var over := |AllMarkers(log)| - maxTombstones;
      if over <= 0 { return; }
      MarkersBounded(View());
      var cutoff := Cutoff(log, over, 0, clock);
      log := PruneLog(log, cutoff);
      historyStartsAt := Max(historyStartsAt, cutoff);
    }

    method Commit(before: Tables) returns (push: Option<RemotePush<string>>)
      requires Shaped(Bumped(before, View()))
      modifies `tables, `log, `clock, `historyStartsAt
      ensures View() == Committed(before, old(View()), maxTombstones)
      ensures push.Some? <==> notifies && Bumps(before, old(View()))
      ensures push.Some? ==> push.value.epoch == epoch && push.value.clock == Next(old(clock))
      ensures push.Some? && push.value.changes.Some? ==>
                && historyStartsAt < clock && Lists(push.value.changes.value, DeltaSince(View(), old(clock)))
                && TellsSince(View(), old(clock), push.value.changes.value)
      ensures push.Some? ==> (push.value.changes.Some? <==>
                historyStartsAt < clock && |LoggedAt(SyncedDb(before, old(View())).log, clock)| <= maxInlineChanges)
    {
      ghost var db := View();
      var now := clock;
      var next := Next(now);
      var broken := false;
      if Signature(tables) != Signature(before) {
        broken := Sync(Tracked(before), next);
      }
      assert View() == SyncedDb(before, db) && broken == Broken(before, db);
      var logged := |LoggedAt(log, next)|;
      if logged == 0 && !broken {
        return None;
      }
      clock := next;
      if broken {
        historyStartsAt := next;
      }
      assert View() == Bumped(before, db);
      Prune();
      PruneKeepsShape(Bumped(before, db), maxTombstones);
      if !notifies {
        return None;
      }
      if historyStartsAt < next && logged <= maxInlineChanges {
        var changes := Changes(now);
        return Some(RemotePush(epoch, next, Some(changes)));
      }
      return Some(RemotePush(epoch, next, None));
    }

    /** Runs a batch's statements in order; `failed` names the first that was refused. */
    method Run(statements: seq<seq<Step>>, readOnly: bool) returns (failed: Option<nat>)
      modifies `tables, `log
      ensures failed.None? ==> ExecAll(old(View()), Flat(statements)) == Some(View())
      ensures failed.None? && readOnly ==> View() == old(View())
      ensures failed.Some? ==> failed.value < |statements| && Refused(old(View()), statements, failed.value, readOnly)
    {
      ghost var start := View();
      var i := 0;
      while i < |statements|
        invariant i <= |statements|
        invariant ExecAll(start, Flat(statements[..i])) == Some(View())
        invariant readOnly ==> View() == start
      {
        assert statements[..i + 1][..i] == statements[..i];
        ghost var at := View();
        var ok := RunStatement(statements[i]);
        ExecAllConcat(start, Flat(statements[..i]), statements[i]);
        if !ok || (readOnly && statements[i] != []) {
          return Some(i);
        }
        i := i + 1;
      }
      assert statements[..i] == statements;
      return None;
    }

    method RunStatement(steps: seq<Step>) returns (ok: bool)
      modifies `tables, `log
      ensures if ok then ExecAll(old(View()), steps) == Some(View()) else ExecAll(old(View()), steps).None?
    {
      ghost var start := View();
      var j := 0;
      while j < |steps|
        invariant j <= |steps|
        invariant ExecAll(start, steps[..j]) == Some(View())
      {
        assert steps[..j + 1][..j] == steps[..j];
        assert steps == steps[..j + 1] + steps[j + 1..];
        ok := Exec(steps[j]);
        if !ok {
          ExecAllConcat(start, steps[..j + 1], steps[j + 1..]);
          return;
        }
        j := j + 1;
      }
      assert steps[..j] == steps;
      ok := true;
    }

    /** The end of a successful batch: its commit, then its push, if any, is handed on. */
    method Settle(before: Tables, ghost start: Db, ghost steps: seq<Step>)
      requires Sane(start, maxTombstones) && |history| == Next(start.clock)
      requires ExecAll(start, steps) == Some(View()) && before == start.tables && clock == start.clock
      modifies this
      ensures Valid()
      ensures Ran(start, old(history), steps, maxTombstones, View(), history)
      ensures Batches.Complete(start, old(history)) && HidesNothing(start, steps) ==> Complete()
      ensures !notifies || clock == old(clock) ==> pushed == old(pushed)
      ensures notifies && clock != old(clock) ==>
                |pushed| == |old(pushed)| + 1 && old(pushed) <= pushed && Announces(pushed[|old(pushed)|], old(clock))
    {
      ghost var db, past := View(), history;
      CommitShaped(start, steps, db, maxTombstones);
      var push := Commit(before);
      ghost var end, grown := View(), Extended(past, start, db);
      if push.Some? {
        pushed := pushed + [push.value];
      }
      history := grown;
      RanSane(start, past, steps, maxTombstones, db, end, grown);
      if push.Some? {
        InlineAnnounces(end, grown, maxTombstones, start.clock, push.value);
      }
      assert View() == end;
    }

    /**
     * One batch, in one transaction: a refused statement (or, read-only, one that wrote anything) rolls it all back;
     * else the log is synced and committed and the push, if any, goes out.
     */
    method Query(statements: seq<seq<Step>>, readOnly: bool) returns (outcome: Outcome)
      requires Valid()
      modifies this
      ensures Valid()
      ensures outcome.Failed? ==>
                outcome.statement < |statements| && Refused(old(View()), statements, outcome.statement, readOnly)
      ensures outcome.Failed? || readOnly ==> View() == old(View()) && history == old(history) && pushed == old(pushed)
      ensures outcome.Done? && !readOnly ==>
                Ran(old(View()), old(history), Flat(statements), maxTombstones, View(), history)
      ensures old(Complete()) && HidesNothing(old(View()), Flat(statements)) ==> Complete()
      ensures !notifies || clock == old(clock) ==> pushed == old(pushed)
      ensures notifies && clock != old(clock) ==>
                |pushed| == |old(pushed)| + 1 && old(pushed) <= pushed && Announces(pushed[|old(pushed)|], old(clock))
    {
      var savedTables, savedLog := tables, log;
      ghost var start := View();
      var failed := Run(statements, readOnly);
      if failed.Some? {
        tables, log := savedTables, savedLog;
        return Failed(failed.value);
      }
      if !readOnly {
        Settle(savedTables, start, Flat(statements));
      }
      return Done;
    }

    ghost predicate Announces(p: RemotePush<string>, since: nat)
      reads `tables, `log, `clock, `historyStartsAt, `history
    {
      p.epoch == epoch && AnnouncesBatch(View(), history, since, p)
    }
  }

  /** Statement `i` is the first one SQLite refuses or, read-only, that writes. */
  ghost predicate Refused(db: Db, statements: seq<seq<Step>>, i: nat, readOnly: bool)
    requires i < |statements|
  {
    && ExecAll(db, Flat(statements[..i])).Some?
    && (readOnly ==> ExecAll(db, Flat(statements[..i])) == Some(db))
    && (ExecAll(db, Flat(statements[..i + 1])).None? || (readOnly && statements[i] != []))
  }
}
