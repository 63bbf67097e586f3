/**
 * One document's op-log under appends and compactions by many nodes. An append takes its number before it commits; a
 * compaction reads the log, inserts a baseline, deletes what it superseded and commits, each a step of its own, with
 * other nodes' steps in between. The log seen by a step is what had committed by then.
 */
module Compaction {
  import opened Lattices

  /**
   * How far a node's compaction has come; `upTo` is the last number it read and `base` the fold of what it read. `late`
   * is a record, for the proofs, of the appends it read past: they had taken a number up to that one and not committed.
   */
  datatype Pass<D> =
    | Rest
    | HasRead(upTo: nat, base: D, late: set<nat>)
    | Inserted(upTo: nat, base: D, late: set<nat>, seqNo: nat)
    | Cleared(upTo: nat, base: D, late: set<nat>, seqNo: nat, doomed: set<nat>)

  /**
   * `next` is the next number of the sequence all documents share; `inflight` the appends that have taken one and not
   * committed; `total` the join of everything ever committed by an append; `shipped` every row that ever committed;
   * `replicas` each node's document in memory.
   */
  datatype World<D> = World(
    next: nat,
    log: Log<D>,
    inflight: Log<D>,
    passes: map<nat, Pass<D>>,
    total: D,
    shipped: set<D>,
    replicas: map<nat, D>)

  ghost predicate Init<D>(l: Lattice<D>, w: World<D>) {
    && w.next == 0 && w.log == map[] && w.inflight == map[] && w.total == l.bot && w.shipped == {}
    && (forall i :: i in w.passes ==> w.passes[i] == Rest)
    && (forall i :: i in w.replicas ==> w.replicas[i] == l.bot)
  }

  /** The sequence moves on: an append takes a number, or another document does. */
  ghost predicate Takes<D>(w: World<D>, v: World<D>, u: D) {
    v == w.(next := w.next + 1, inflight := w.inflight[w.next := u])
  }

  ghost predicate Elsewhere<D>(w: World<D>, v: World<D>) {
    v == w.(next := w.next + 1)
  }

  ghost predicate Appends<D>(l: Lattice<D>, w: World<D>, v: World<D>, k: nat) {
    && k in w.inflight
    && v == w.(log := w.log[k := w.inflight[k]], inflight := w.inflight - {k}, total := l.join(w.total, w.inflight[k]),
               shipped := w.shipped + {w.inflight[k]})
  }

  ghost predicate Aborts<D>(w: World<D>, v: World<D>, k: nat) {
    v == w.(inflight := w.inflight - {k})
  }

  predicate Idle<D>(w: World<D>, i: nat) {
    i in w.passes && w.passes[i].Rest?
  }

  /** The last number in a log. */
  ghost predicate IsLast<D>(log: Log<D>, k: nat) {
    k in log && forall j :: j in log ==> j <= k
  }

  /** The appends that took a number up to one and are still to commit. */
  function Behind<D>(w: World<D>, last: nat): set<nat> {
    set k | k in w.inflight && k <= last
  }

  /** A compaction reads the log; one of fewer than two rows has nothing to fold down. */
  ghost predicate Reads<D>(l: Lattice<D>, w: World<D>, v: World<D>, i: nat, last: nat) {
    && Idle(w, i) && |w.log| >= 2 && IsLast(w.log, last)
    && v == w.(passes := w.passes[i := HasRead(last, Fold(l, w.log, w.next), Behind(w, last))])
  }

  /** The baseline takes a number; it is not in the log until the compaction commits. */
  ghost predicate Inserts<D>(w: World<D>, v: World<D>, i: nat) {
    && i in w.passes && w.passes[i].HasRead?
    && v == w.(next := w.next + 1,
               passes := w.passes[i := Inserted(w.passes[i].upTo, w.passes[i].base, w.passes[i].late, w.next)])
  }

  /** The rows up to the last one read, as they stand committed now, are to go. */
  ghost predicate Deletes<D>(w: World<D>, v: World<D>, i: nat) {
    && i in w.passes && w.passes[i].Inserted?
    && var p := w.passes[i];
    v == w.(passes := w.passes[i := Cleared(p.upTo, p.base, p.late, p.seqNo, set k | k in w.log && k <= p.upTo)])
  }

  /** The baseline and the deletions land together. */
  ghost predicate Commits<D>(w: World<D>, v: World<D>, i: nat) {
    && i in w.passes && w.passes[i].Cleared?
    && var p := w.passes[i];
    v == w.(log := (w.log - p.doomed)[p.seqNo := p.base], passes := w.passes[i := Rest],
            shipped := w.shipped + {p.base})
  }

  ghost predicate RollsBack<D>(w: World<D>, v: World<D>, i: nat) {
    i in w.passes && v == w.(passes := w.passes[i := Rest])
  }

  /** A node folds any row that ever committed: again, late, or after its log was trimmed. */
  ghost predicate Folds<D>(l: Lattice<D>, w: World<D>, v: World<D>, i: nat, u: D) {
    i in w.replicas && u in w.shipped && v == w.(replicas := w.replicas[i := l.join(w.replicas[i], u)])
  }

  /** Any step. */
  ghost predicate Next<D(!new)>(l: Lattice<D>, w: World<D>, v: World<D>) {
    || (exists u :: Takes(w, v, u))
    || Elsewhere(w, v)
    || (exists k :: Appends(l, w, v, k))
    || (exists k :: Aborts(w, v, k))
    || (exists i, last :: Reads(l, w, v, i, last))
    || (exists i :: Inserts(w, v, i))
    || (exists i :: Deletes(w, v, i))
    || (exists i :: Commits(w, v, i))
    || (exists i :: RollsBack(w, v, i))
    || (exists i, u :: Folds(l, w, v, i, u))
  }

  ghost predicate StepAt<D(!new)>(l: Lattice<D>, worlds: seq<World<D>>, i: nat)
    requires i + 1 < |worlds|
  {
    Next(l, worlds[i], worlds[i + 1])
  }

  ghost predicate Run<D(!new)>(l: Lattice<D>, worlds: seq<World<D>>) {
    && |worlds| > 0 && Init(l, worlds[0])
    && forall i: nat :: i + 1 < |worlds| ==> StepAt(l, worlds, i)
  }

  /** No compaction under way has read past an append still to commit. */
  ghost predicate NoneLate<D>(w: World<D>) {
    forall i :: i in w.passes && !w.passes[i].Rest? ==> w.passes[i].late == {}
  }

  ghost predicate NeverLate<D>(worlds: seq<World<D>>) {
    forall i :: 0 <= i < |worlds| ==> NoneLate(worlds[i])
  }

  // ---- the invariant ----

  /** A compaction whose baseline has a number and is not yet in the log. */
  predicate Pending<D>(p: Pass<D>) {
    p.Inserted? || p.Cleared?
  }

  /** Numbers are taken once and lie behind the next one. */
  ghost predicate Numbered<D>(w: World<D>) {
    && (forall k :: k in w.log || k in w.inflight ==> k < w.next)
    && (forall k :: k in w.inflight ==> k !in w.log)
    && (forall i :: i in w.passes && Pending(w.passes[i]) ==>
          w.passes[i].seqNo < w.next && w.passes[i].seqNo !in w.log && w.passes[i].seqNo !in w.inflight)
    && (forall i, j :: i in w.passes && j in w.passes && Pending(w.passes[i]) && Pending(w.passes[j]) && i != j ==>
          w.passes[i].seqNo != w.passes[j].seqNo)
  }

  /** What a compaction may delete, now or once it commits, is in what it folded, or was late. */
  ghost predicate Covers<D>(l: Lattice<D>, w: World<D>, p: Pass<D>) {
    p.Rest? ||
    (&& p.upTo < w.next
     && Below(l, p.base, w.total)
     && (forall k :: k in w.log && k <= p.upTo && k !in p.late ==> Below(l, w.log[k], p.base))
     && (forall k :: k in w.inflight && k <= p.upTo ==> k in p.late)
     && (forall j :: j in w.passes && Pending(w.passes[j]) && w.passes[j].seqNo <= p.upTo ==>
       Below(l, w.passes[j].base, p.base))
     && (Pending(p) ==> p.seqNo > p.upTo)
     && (p.Cleared? ==> forall k :: k in p.doomed ==> k <= p.upTo))
  }

  /** The log folds to the join of everything appended. */
  ghost predicate Intact<D>(l: Lattice<D>, w: World<D>) {
    Fold(l, w.log, w.next) == w.total
  }

  ghost predicate Inv<D(!new)>(l: Lattice<D>, w: World<D>) {
    && Numbered(w)
    && Intact(l, w)
    && (forall i :: i in w.passes ==> Covers(l, w, w.passes[i]))
    && (forall u :: u in w.shipped ==> Below(l, u, w.total))
    && (forall i :: i in w.replicas ==> Below(l, w.replicas[i], w.total))
  }

  // ---- every step keeps it ----

  lemma InTotal<D(!new)>(l: Lattice<D>, w: World<D>, k: nat)
    requires Laws(l) && Inv(l, w) && k in w.log
    ensures Below(l, w.log[k], w.total)
  {
    InFold(l, w.log, w.next, k);
  }

  lemma InitInv<D(!new)>(l: Lattice<D>, w: World<D>)
    requires Laws(l) && Init(l, w)
    ensures Inv(l, w)
  {
    BelowSelf(l, l.bot);
  }

  lemma TakesInv<D(!new)>(l: Lattice<D>, w: World<D>, v: World<D>, u: D)
    requires Inv(l, w) && Takes(w, v, u)
    ensures Inv(l, v)
  {
    FoldPast(l, w.log, w.next, v.next);
    forall i | i in v.passes ensures Covers(l, v, v.passes[i]) {
      assert Covers(l, w, w.passes[i]);
    }
  }

  lemma ElsewhereInv<D(!new)>(l: Lattice<D>, w: World<D>, v: World<D>)
    requires Inv(l, w) && Elsewhere(w, v)
    ensures Inv(l, v)
  {
    FoldPast(l, w.log, w.next, v.next);
    forall i | i in v.passes ensures Covers(l, v, v.passes[i]) {
      assert Covers(l, w, w.passes[i]);
    }
  }

  /** An append adds exactly its update to what the log folds to. */
  lemma AppendFolds<D(!new)>(l: Lattice<D>, w: World<D>, k: nat, u: D, more: D)
    requires Laws(l) && Inv(l, w) && k !in w.log && k < w.next && more == l.join(w.total, u)
    ensures Fold(l, w.log[k := u], w.next) == more
  {
    FoldWith(l, w.log, w.next, k, u);
    assert LawsAt(l, w.total, u, u);
  }

  lemma AppendsCovers<D(!new)>(l: Lattice<D>, w: World<D>, v: World<D>, k: nat, i: nat)
    requires Laws(l) && Inv(l, w) && Appends(l, w, v, k) && i in w.passes
    ensures Covers(l, v, v.passes[i])
  {
    var p := w.passes[i];
    assert Covers(l, w, p);
    if !p.Rest? {
      BelowJoin(l, w.total, w.inflight[k]);
      BelowTrans(l, p.base, w.total, v.total);
    }
  }

  lemma AppendsInv<D(!new)>(l: Lattice<D>, w: World<D>, v: World<D>, k: nat)
    requires Laws(l) && Inv(l, w) && Appends(l, w, v, k)
    ensures Inv(l, v)
  {
    var u := w.inflight[k];
    AppendFolds(l, w, k, u, v.total);
    BelowJoin(l, w.total, u);
    forall i | i in v.passes ensures Covers(l, v, v.passes[i]) {
      AppendsCovers(l, w, v, k, i);
    }
    forall x | x in v.shipped ensures Below(l, x, v.total) {
      if x in w.shipped {
        BelowTrans(l, x, w.total, v.total);
      }
    }
    forall i | i in v.replicas ensures Below(l, v.replicas[i], v.total) {
      BelowTrans(l, w.replicas[i], w.total, v.total);
    }
  }

  lemma AbortsNumbered<D(!new)>(l: Lattice<D>, w: World<D>, v: World<D>, k: nat)
    requires Inv(l, w) && Aborts(w, v, k)
    ensures Numbered(v)
  {
  }

  lemma AbortsCovers<D(!new)>(l: Lattice<D>, w: World<D>, v: World<D>, k: nat, i: nat)
    requires Inv(l, w) && Aborts(w, v, k) && i in w.passes
    ensures Covers(l, v, v.passes[i])
  {
    assert Covers(l, w, w.passes[i]);
  }

  lemma AbortsInv<D(!new)>(l: Lattice<D>, w: World<D>, v: World<D>, k: nat)
    requires Inv(l, w) && Aborts(w, v, k)
    ensures Inv(l, v)
  {
    AbortsNumbered(l, w, v, k);
    forall i | i in v.passes ensures Covers(l, v, v.passes[i]) {
      AbortsCovers(l, w, v, k, i);
    }
  }

  lemma ReadsInv<D(!new)>(l: Lattice<D>, w: World<D>, v: World<D>, i: nat, last: nat)
    requires Laws(l) && Inv(l, w) && Reads(l, w, v, i, last)
    ensures Inv(l, v)
  {
    forall j | j in v.passes ensures Covers(l, v, v.passes[j]) {
      if j != i {
        ReadsCovers(l, w, v, i, last, j);
      } else {
        ReadCovers(l, w, v, i, last);
      }
    }
  }

  /** What a compaction has just read folds to all appended. */
  lemma ReadCovers<D(!new)>(l: Lattice<D>, w: World<D>, v: World<D>, i: nat, last: nat)
    requires Laws(l) && Inv(l, w) && Reads(l, w, v, i, last)
    ensures Covers(l, v, v.passes[i])
  {
    BelowSelf(l, w.total);
    forall k | k in w.log ensures Below(l, w.log[k], w.total) {
      InTotal(l, w, k);
    }
    forall j | j in w.passes && Pending(w.passes[j]) ensures Below(l, w.passes[j].base, w.total) {
      assert Covers(l, w, w.passes[j]);
    }
  }

  lemma ReadsCovers<D(!new)>(l: Lattice<D>, w: World<D>, v: World<D>, i: nat, last: nat, j: nat)
    requires Inv(l, w) && Reads(l, w, v, i, last) && j in w.passes && j != i
    ensures Covers(l, v, v.passes[j])
  {
    assert Covers(l, w, w.passes[j]);
  }

  lemma InsertsCovers<D(!new)>(l: Lattice<D>, w: World<D>, v: World<D>, i: nat, j: nat)
    requires Inv(l, w) && Inserts(w, v, i) && j in w.passes
    ensures Covers(l, v, v.passes[j])
  {
    assert Covers(l, w, w.passes[j]) && Covers(l, w, w.passes[i]);
  }

  lemma InsertsInv<D(!new)>(l: Lattice<D>, w: World<D>, v: World<D>, i: nat)
    requires Inv(l, w) && Inserts(w, v, i)
    ensures Inv(l, v)
  {
    FoldPast(l, w.log, w.next, v.next);
    forall j | j in v.passes ensures Covers(l, v, v.passes[j]) {
      InsertsCovers(l, w, v, i, j);
    }
  }

  lemma DeletesCovers<D(!new)>(l: Lattice<D>, w: World<D>, v: World<D>, i: nat, j: nat)
    requires Inv(l, w) && Deletes(w, v, i) && j in w.passes
    ensures Covers(l, v, v.passes[j])
  {
    assert Covers(l, w, w.passes[j]) && Covers(l, w, w.passes[i]);
  }

  lemma DeletesNumbered<D(!new)>(l: Lattice<D>, w: World<D>, v: World<D>, i: nat)
    requires Inv(l, w) && Deletes(w, v, i)
    ensures Numbered(v)
  {
  }

  lemma DeletesInv<D(!new)>(l: Lattice<D>, w: World<D>, v: World<D>, i: nat)
    requires Inv(l, w) && Deletes(w, v, i)
    ensures Inv(l, v)
  {
    DeletesNumbered(l, w, v, i);
    forall j | j in v.passes ensures Covers(l, v, v.passes[j]) {
      DeletesCovers(l, w, v, i, j);
    }
  }

  /** What a commit leaves of the log but for its baseline. */
  function Kept<D>(w: World<D>, p: Pass<D>): Log<D>
    requires p.Cleared?
  {
    w.log - p.doomed
  }

  /** Every late append a compaction is to delete is in its baseline or in the rows that stay. */
  ghost predicate Spared<D>(l: Lattice<D>, w: World<D>, i: nat) {
    i in w.passes && w.passes[i].Cleared? ==>
      var p := w.passes[i];
      forall k :: k in p.late && k in p.doomed && k in w.log ==>
                    Below(l, w.log[k], l.join(p.base, Fold(l, Kept(w, p), w.next)))
  }

  /** A commit leaves the log folding to its baseline joined with the rows that stay, which is below the whole. */
  lemma CommitFolds<D(!new)>(l: Lattice<D>, w: World<D>, v: World<D>, i: nat)
    requires Laws(l) && Inv(l, w) && Commits(w, v, i)
    ensures var p := w.passes[i];
            && Fold(l, v.log, v.next) == l.join(p.base, Fold(l, Kept(w, p), w.next))
            && Below(l, Fold(l, v.log, v.next), w.total)
  {
    var p := w.passes[i];
    assert Covers(l, w, p);
    FoldWith(l, Kept(w, p), w.next, p.seqNo, p.base);
    forall k | k in v.log && k < v.next ensures Below(l, v.log[k], w.total) {
      if k != p.seqNo {
        InTotal(l, w, k);
      }
    }
    FoldBelow(l, v.log, v.next, w.total);
  }

  lemma SparedSuffices<D(!new)>(l: Lattice<D>, w: World<D>, v: World<D>, i: nat)
    requires Laws(l) && Inv(l, w) && Commits(w, v, i) && Spared(l, w, i)
    ensures Intact(l, v)
  {
    var p, left := w.passes[i], Fold(l, v.log, v.next);
    CommitFolds(l, w, v, i);
    assert Covers(l, w, p);
    BelowJoin(l, p.base, Fold(l, Kept(w, p), w.next));
    forall k | k in w.log && k < w.next ensures Below(l, w.log[k], left) {
      if k !in p.doomed {
        InFold(l, v.log, v.next, k);
      } else if k !in p.late {
        BelowTrans(l, w.log[k], p.base, left);
      }
    }
    FoldsBelow(l, w.log, v.log, w.next);
    BelowBoth(l, left, w.total);
  }

  /**
   * Exactly when a compaction loses nothing, whatever was done between its read and its commit: if and only if every
   * append it read past, that committed in time to be deleted, is in its baseline or in the rows that stay.
   */
  lemma ReadPastIff<D(!new)>(l: Lattice<D>, w: World<D>, v: World<D>, i: nat)
    requires Laws(l) && Inv(l, w) && Commits(w, v, i)
    ensures Intact(l, v) <==> Spared(l, w, i)
  {
    var p := w.passes[i];
    CommitFolds(l, w, v, i);
    if Spared(l, w, i) {
      SparedSuffices(l, w, v, i);
    }
    if Intact(l, v) {
      forall k | k in p.late && k in p.doomed && k in w.log
        ensures Below(l, w.log[k], l.join(p.base, Fold(l, Kept(w, p), w.next)))
      {
        InTotal(l, w, k);
      }
    }
  }

  lemma CommitsCovers<D(!new)>(l: Lattice<D>, w: World<D>, v: World<D>, i: nat, j: nat)
    requires Inv(l, w) && Commits(w, v, i) && j in w.passes
    ensures Covers(l, v, v.passes[j])
  {
    assert Covers(l, w, w.passes[j]);
  }

  lemma CommitsNumbered<D(!new)>(l: Lattice<D>, w: World<D>, v: World<D>, i: nat)
    requires Inv(l, w) && Commits(w, v, i)
    ensures Numbered(v)
  {
  }

  lemma CommitsInv<D(!new)>(l: Lattice<D>, w: World<D>, v: World<D>, i: nat)
    requires Laws(l) && Inv(l, w) && Commits(w, v, i) && Spared(l, w, i)
    ensures Inv(l, v)
  {
    SparedSuffices(l, w, v, i);
    CommitsNumbered(l, w, v, i);
    assert Covers(l, w, w.passes[i]);
    forall j | j in v.passes ensures Covers(l, v, v.passes[j]) {
      CommitsCovers(l, w, v, i, j);
    }
  }

  lemma RollsBackCovers<D(!new)>(l: Lattice<D>, w: World<D>, v: World<D>, i: nat, j: nat)
    requires Inv(l, w) && RollsBack(w, v, i) && j in w.passes
    ensures Covers(l, v, v.passes[j])
  {
    assert Covers(l, w, w.passes[j]);
  }

  lemma RollsBackNumbered<D(!new)>(l: Lattice<D>, w: World<D>, v: World<D>, i: nat)
    requires Inv(l, w) && RollsBack(w, v, i)
    ensures Numbered(v)
  {
  }

  lemma RollsBackInv<D(!new)>(l: Lattice<D>, w: World<D>, v: World<D>, i: nat)
    requires Inv(l, w) && RollsBack(w, v, i)
    ensures Inv(l, v)
  {
    RollsBackNumbered(l, w, v, i);
    forall j | j in v.passes ensures Covers(l, v, v.passes[j]) {
      RollsBackCovers(l, w, v, i, j);
    }
  }

  lemma FoldsInv<D(!new)>(l: Lattice<D>, w: World<D>, v: World<D>, i: nat, u: D)
    requires Laws(l) && Inv(l, w) && Folds(l, w, v, i, u)
    ensures Inv(l, v)
  {
    JoinBelow(l, w.replicas[i], u, w.total);
    forall j | j in v.passes ensures Covers(l, v, v.passes[j]) {
      assert Covers(l, w, w.passes[j]);
    }
  }

  /** A step that, if it commits a compaction, loses nothing by it. */
  ghost predicate SparesAt<D>(l: Lattice<D>, w: World<D>, v: World<D>) {
    forall i :: Commits(w, v, i) ==> Spared(l, w, i)
  }

  lemma StepInv<D(!new)>(l: Lattice<D>, w: World<D>, v: World<D>)
    requires Laws(l) && Inv(l, w) && Next(l, w, v) && SparesAt(l, w, v)
    ensures Inv(l, v)
  {
    if u :| Takes(w, v, u) {
      TakesInv(l, w, v, u);
    } else if Elsewhere(w, v) {
      ElsewhereInv(l, w, v);
    } else if k :| Appends(l, w, v, k) {
      AppendsInv(l, w, v, k);
    } else if k :| Aborts(w, v, k) {
      AbortsInv(l, w, v, k);
    } else if i, last :| Reads(l, w, v, i, last) {
      ReadsInv(l, w, v, i, last);
    } else {
      PassStepInv(l, w, v);
    }
  }

  lemma PassStepInv<D(!new)>(l: Lattice<D>, w: World<D>, v: World<D>)
    requires Laws(l) && Inv(l, w) && SparesAt(l, w, v)
    requires (exists i :: Inserts(w, v, i)) || (exists i :: Deletes(w, v, i)) || (exists i :: Commits(w, v, i)) ||
             (exists i :: RollsBack(w, v, i)) || (exists i, u :: Folds(l, w, v, i, u))
    ensures Inv(l, v)
  {
    if i :| Inserts(w, v, i) {
      InsertsInv(l, w, v, i);
    } else if i :| Deletes(w, v, i) {
      DeletesInv(l, w, v, i);
    } else if i :| Commits(w, v, i) {
      CommitsInv(l, w, v, i);
    } else if i :| RollsBack(w, v, i) {
      RollsBackInv(l, w, v, i);
    } else {
      var i, u :| Folds(l, w, v, i, u);
      FoldsInv(l, w, v, i, u);
    }
  }

  // ---- over whole runs ----

  /** Every compaction committed so far spared what it read past. */
  ghost predicate AllSpared<D>(l: Lattice<D>, worlds: seq<World<D>>) {
    forall k: nat :: k + 1 < |worlds| ==> SparesAt(l, worlds[k], worlds[k + 1])
  }

  ghost predicate AllIntact<D>(l: Lattice<D>, worlds: seq<World<D>>) {
    forall k :: 0 <= k < |worlds| ==> Intact(l, worlds[k])
  }

  lemma IntactSpares<D(!new)>(l: Lattice<D>, w: World<D>, v: World<D>)
    requires Laws(l) && Inv(l, w) && Intact(l, v)
    ensures SparesAt(l, w, v)
  {
    forall i | Commits(w, v, i) ensures Spared(l, w, i) {
      ReadPastIff(l, w, v, i);
    }
  }

  lemma {:induction false} RunInv<D(!new)>(l: Lattice<D>, worlds: seq<World<D>>, i: nat)
    requires Laws(l) && Run(l, worlds) && i < |worlds| && (AllSpared(l, worlds) || AllIntact(l, worlds))
    ensures Inv(l, worlds[i])
  {
    if i == 0 {
      InitInv(l, worlds[0]);
    } else {
      var k := i - 1;
      RunInv(l, worlds, k);
      assert StepAt(l, worlds, k);
      if AllIntact(l, worlds) {
        IntactSpares(l, worlds[k], worlds[k + 1]);
      }
      StepInv(l, worlds[k], worlds[k + 1]);
    }
  }

  /**
   * Exactly when nothing is ever lost: over any run, appends and any number of nodes' compactions interleaved as they
   * like, the log always folds to all appended if and only if every compaction that committed spared what it read past.
   */
  lemma NothingLostIff<D(!new)>(l: Lattice<D>, worlds: seq<World<D>>)
    requires Laws(l) && Run(l, worlds)
    ensures AllIntact(l, worlds) <==> AllSpared(l, worlds)
  {
    if AllSpared(l, worlds) || AllIntact(l, worlds) {
      forall k | 0 <= k < |worlds| ensures Inv(l, worlds[k]) {
        RunInv(l, worlds, k);
      }
      if AllIntact(l, worlds) {
        forall k: nat | k + 1 < |worlds| ensures SparesAt(l, worlds[k], worlds[k + 1]) {
          IntactSpares(l, worlds[k], worlds[k + 1]);
        }
      }
    }
  }

  lemma NeverLateSpares<D(!new)>(l: Lattice<D>, worlds: seq<World<D>>)
    requires NeverLate(worlds)
    ensures AllSpared(l, worlds)
  {
    forall k: nat | k + 1 < |worlds| ensures SparesAt(l, worlds[k], worlds[k + 1]) {
      assert NoneLate(worlds[k]);
    }
  }

  /**
   * Compaction keeps the document. However appends and several nodes' compactions interleave, as long as none reads
   * past an append still to commit, what is left of the log folds to the join of everything ever appended, and a node
   * that missed rows since trimmed has all of it once it folds what is left.
   */
  lemma CompactionKeepsMeaning<D(!new)>(l: Lattice<D>, worlds: seq<World<D>>, i: nat)
    requires Laws(l) && Run(l, worlds) && NeverLate(worlds) && i < |worlds|
    ensures Fold(l, worlds[i].log, worlds[i].next) == worlds[i].total
    ensures forall node :: node in worlds[i].replicas ==>
              l.join(worlds[i].replicas[node], Fold(l, worlds[i].log, worlds[i].next)) == worlds[i].total
  {
    NeverLateSpares(l, worlds);
    RunInv(l, worlds, i);
  }

  /**
   * The shortest way to lose an update: a compaction reads past one append, which commits before the compaction
   * deletes. The log still folds to everything appended exactly when that update was in it anyway.
   */
  lemma ReadPastExample<D(!new)>(l: Lattice<D>, w: World<D>, read: World<D>, appended: World<D>, inserted: World<D>,
                                 cleared: World<D>, done: World<D>, i: nat, last: nat, k: nat)
    requires Laws(l) && Inv(l, w) && k in w.inflight && k < last
    requires Reads(l, w, read, i, last) && Appends(l, read, appended, k) && Inserts(appended, inserted, i)
    requires Deletes(inserted, cleared, i) && Commits(cleared, done, i)
    ensures Intact(l, done) <==> Below(l, w.inflight[k], w.total)
  {
    var u := w.inflight[k];
    assert done.log == map[w.next := w.total];
    FoldOnly(l, done.log, w.next, w.total);
    assert done.total == l.join(w.total, u);
    assert LawsAt(l, u, w.total, u);
  }

  lemma FoldOnly<D(!new)>(l: Lattice<D>, log: Log<D>, k: nat, u: D)
    requires Laws(l) && log == map[k := u]
    ensures Fold(l, log, k + 1) == u
  {
    FoldNothing(l, log, k);
    assert LawsAt(l, u, u, u);
  }
}
