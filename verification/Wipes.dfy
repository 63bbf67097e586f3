/** Exactly when an answer wipes: after which batches the history starts anew, moves its start or goes on. */
module Wipes {
  import opened Options
  import opened RemoteData
  import opened ChangeLog
  import opened Batches
  import opened LogExactness

  // ---- pruning ----

  /** So many delete markers from a marker's clock on that it has to go. */
  ghost predicate OverCap(log: Log, cap: nat, k: Key) {
    k in log && log[k].op.DeleteOp? &&
    |set j | j in log && log[j].op.DeleteOp? && log[j].clock >= log[k].clock| > cap
  }

  /** Markers at or after a clock are all but those before it. */
  lemma FromClock(log: Log, all: set<Key>, from: set<Key>, c: nat)
    requires all == AllMarkers(log) && c > 0
    requires from == set j | j in log && log[j].op.DeleteOp? && log[j].clock >= c
    ensures |from| == |all| - |Markers(log, c - 1)|
  {
    assert from == all - Markers(log, c - 1) && Markers(log, c - 1) <= all;
  }

  lemma FromStart(log: Log, from: set<Key>)
    requires from == set j | j in log && log[j].op.DeleteOp? && log[j].clock >= 0
    ensures from == AllMarkers(log)
  {
  }

  lemma MarkersGrow(log: Log, a: nat, b: nat)
    requires a <= b
    ensures Markers(log, a) <= Markers(log, b) && |Markers(log, a)| <= |Markers(log, b)|
  {
    var rest := Markers(log, b) - Markers(log, a);
    assert Markers(log, b) == Markers(log, a) + rest;
  }

  /** A marker is over the cap exactly at or before the cutoff. */
  lemma OverCapIff(db: Db, cap: nat, cutoff: nat, k: Key)
    requires ClocksBounded(db) && |AllMarkers(db.log)| > cap
    requires cutoff <= db.clock && |Markers(db.log, cutoff)| >= |AllMarkers(db.log)| - cap
    requires cutoff > 0 ==> |Markers(db.log, cutoff - 1)| < |AllMarkers(db.log)| - cap
    requires k in db.log && db.log[k].op.DeleteOp?
    ensures OverCap(db.log, cap, k) <==> db.log[k].clock <= cutoff
  {
    var c := db.log[k].clock;
    var from := set j | j in db.log && db.log[j].op.DeleteOp? && db.log[j].clock >= c;
    if c == 0 {
      FromStart(db.log, from);
    } else {
      FromClock(db.log, AllMarkers(db.log), from, c);
      if c <= cutoff {
        MarkersGrow(db.log, c - 1, cutoff - 1);
      } else {
        MarkersGrow(db.log, cutoff, c - 1);
      }
    }
  }

  /** The cutoff is some marker's clock. */
  lemma CutoffIsAMarkers(log: Log, over: nat, cutoff: nat)
    requires 0 < over <= |Markers(log, cutoff)| && (cutoff > 0 ==> |Markers(log, cutoff - 1)| < over)
    ensures exists k :: k in log && log[k].op.DeleteOp? && log[k].clock == cutoff
  {
    var before := if cutoff > 0 then Markers(log, cutoff - 1) else {};
    SomeLeft(before, Markers(log, cutoff));
    var k :| k in Markers(log, cutoff) && k !in before;
    assert k in log && log[k].op.DeleteOp? && log[k].clock == cutoff;
  }

  lemma SomeLeft(less: set<Key>, more: set<Key>)
    requires |less| < |more|
    ensures exists k :: k in more && k !in less
  {
    if forall k :: k in more ==> k in less {
      FewerFrom(more, less);
      assert false;
    }
  }

  /** Pruning, exactly: a marker goes if and only if it is over the cap, and no other entry goes. */
  lemma PruneDropsIff(db: Db, cap: nat, p: Db, k: Key)
    requires ClocksBounded(db) && p == Pruned(db, cap) && k in db.log
    ensures k !in p.log <==> OverCap(db.log, cap, k)
  {
    if |AllMarkers(db.log)| > cap {
      MarkersBounded(db);
      var cutoff := Cutoff(db.log, |AllMarkers(db.log)| - cap, 0, db.clock);
      if db.log[k].op.DeleteOp? {
        OverCapIff(db, cap, cutoff, k);
      }
    } else if OverCap(db.log, cap, k) {
      var from := set j | j in db.log && db.log[j].op.DeleteOp? && db.log[j].clock >= db.log[k].clock;
      FewerFrom(from, AllMarkers(db.log));
    }
  }

  lemma FewerFrom(part: set<Key>, all: set<Key>)
    requires part <= all
    ensures |part| <= |all|
  {
    assert all == part + (all - part);
  }

  lemma NoneOverCap(log: Log, cap: nat)
    requires |AllMarkers(log)| <= cap
    ensures forall k :: !OverCap(log, cap, k)
  {
    forall k ensures !OverCap(log, cap, k) {
      if k in log {
        var from := set j | j in log && log[j].op.DeleteOp? && log[j].clock >= log[k].clock;
        FewerFrom(from, AllMarkers(log));
      }
    }
  }

  /** Pruning moves the start of the history past a clock if and only if a marker later than it was over the cap. */
  lemma PruneStartIff(db: Db, cap: nat, p: Db, since: nat)
    requires ClocksBounded(db) && p == Pruned(db, cap) && db.historyStartsAt <= since
    ensures since < p.historyStartsAt <==> exists k :: OverCap(db.log, cap, k) && db.log[k].clock > since
  {
    if |AllMarkers(db.log)| > cap {
      var over := |AllMarkers(db.log)| - cap;
      MarkersBounded(db);
      OverStartIff(db, cap, over, Cutoff(db.log, over, 0, db.clock), since);
    } else {
      NoneOverCap(db.log, cap);
    }
  }

  lemma OverStartIff(db: Db, cap: nat, over: nat, cutoff: nat, since: nat)
    requires ClocksBounded(db) && |AllMarkers(db.log)| > cap && over == |AllMarkers(db.log)| - cap
    requires cutoff <= db.clock && |Markers(db.log, cutoff)| >= over
    requires cutoff > 0 ==> |Markers(db.log, cutoff - 1)| < over
    ensures since < cutoff <==> exists k :: OverCap(db.log, cap, k) && db.log[k].clock > since
  {
    if since < cutoff {
      CutoffIsAMarkers(db.log, over, cutoff);
      var m :| m in db.log && db.log[m].op.DeleteOp? && db.log[m].clock == cutoff;
      OverCapIff(db, cap, cutoff, m);
    } else {
      forall k | OverCap(db.log, cap, k) ensures db.log[k].clock <= since {
        OverCapIff(db, cap, cutoff, k);
      }
    }
  }

  // ---- batches ----

  /** A table with a row id that a batch dropped, renamed or gave other columns. */
  ghost predicate Unmade(start: Db, db: Db, t: string) {
    && t in start.tables && start.tables[t].keyed
    && !(t in db.tables && db.tables[t].logsAs == Some(t) && db.tables[t].columns == start.tables[t].columns)
  }

  /** The history breaks if and only if a batch unmade a table it found. */
  lemma BrokenIff(start: Db, db: Db)
    requires Shaped(start)
    ensures Broken(start.tables, db) <==> exists t :: Unmade(start, db, t)
  {
    var lost := LostTables(start.tables, db);
    forall t ensures t in lost <==> Unmade(start, db, t) {
      assert t in Tracked(start.tables) <==> t in start.tables && start.tables[t].keyed;
    }
    if SyncSkipped(start.tables, db) {
      SameSignature(start, db);
      assert forall t :: !Unmade(start, db, t);
    }
    if t :| Unmade(start, db, t) {
      assert t in lost;
    }
  }

  /** Something of a batch is in the log: an entry its triggers landed, or a row of a table it created. */
  ghost predicate Tells(db: Db, a: Account, k: Key) {
    (k in a.landed && a.landed[k].Some?) || NewRow(db.tables, k)
  }

  /** The clock moves if and only if a batch unmade a table, landed an entry or created a table with a row in it. */
  lemma ClockMovesIff(start: Db, steps: seq<Step>, cap: nat, db: Db, a: Account, after: Db)
    requires Shaped(start) && Outcome(start, steps, cap, db, after) && a == TallyAll(start, steps)
    ensures after.clock ==
            start.clock + if (exists t :: Unmade(start, db, t)) || (exists k :: Tells(db, a, k)) then 1 else 0
  {
    BatchFollows(start, steps);
    BrokenIff(start, db);
    if !Broken(start.tables, db) {
      UnbrokenLosesNothing(start.tables, db);
      BumpsTells(start, db, a);
    }
  }

  lemma BumpsTells(start: Db, db: Db, a: Account)
    requires Mid(start, db, a) && !Broken(start.tables, db)
    ensures Bumps(start.tables, db) <==> exists k :: Tells(db, a, k)
  {
    var log := SyncedDb(start.tables, db).log;
    UnbrokenLosesNothing(start.tables, db);
    forall k ensures k in LoggedAt(log, Next(db.clock)) <==> Tells(db, a, k) {
      EntryOfBatch(start, db, a, k);
      if k in log {
        SyncedEntryPlace(start, db, a, k);
      }
    }
    if k :| Tells(db, a, k) {
      assert k in LoggedAt(log, Next(db.clock));
    }
  }

  /** Where the history is cut past a clock: by a table unmade, or by so many delete markers later than it. */
  ghost predicate Forgotten(start: Db, db: Db, cap: nat, since: nat) {
    || (exists t :: Unmade(start, db, t))
    || (exists k :: OverCap(SyncedDb(start.tables, db).log, cap, k) && SyncedDb(start.tables, db).log[k].clock > since)
  }

  /**
   * Exactly when the answer after a batch, from a clock inside the history before it, wipes: if the batch dropped,
   * renamed or altered a table it found, or a delete marker later than that clock is over the cap, or more keys are
   * logged since than a pull may carry; and in no other case.
   */
  lemma WipesIff(start: Db, steps: seq<Step>, cap: nat, maxPull: nat, db: Db, after: Db, since: nat)
    requires Sane(start, cap) && Outcome(start, steps, cap, db, after)
    requires start.historyStartsAt <= since <= start.clock
    ensures WipesAll(after, since, maxPull) <==>
            Forgotten(start, db, cap, since) || |set k | k in after.log && after.log[k].clock > since| > maxPull
  {
    BatchFollows(start, steps);
    BrokenIff(start, db);
    ForgottenIff(start, db, TallyAll(start, steps), cap, after, since);
  }

  lemma ForgottenIff(start: Db, db: Db, a: Account, cap: nat, after: Db, since: nat)
    requires Mid(start, db, a) && |AllMarkers(start.log)| <= cap && start.historyStartsAt <= since <= start.clock
    requires ClocksBounded(Bumped(start.tables, db)) && after == Committed(start.tables, db, cap)
    ensures since <= after.clock && (since < after.historyStartsAt <==> Forgotten(start, db, cap, since))
  {
    BrokenIff(start, db);
    if !Bumps(start.tables, db) {
      QuietLog(start, db, a);
      NoneOverCap(start.log, cap);
    } else if !Broken(start.tables, db) {
      PruneStartIff(Bumped(start.tables, db), cap, after, since);
    }
  }
}
