/** A node over the central op-log: folding documents, appending, compacting, and following the replicated feed. */
module OpLog {
  import opened Options
  import opened Lattices

  datatype DocId = DocId(n: string, id: string)

  /** A row of the op-log; a baseline stands for everything up to it. */
  datatype Row<D> = Row(doc: DocId, update: D, baseline: bool)

  /** One document's part of the op-log. */
  function LogOf<D>(updates: map<nat, Row<D>>, doc: DocId): Log<D> {
    map k | k in updates && updates[k].doc == doc :: updates[k].update
  }

  /** A change of the local replica: rows a re-sync delivers in part lack their document or their update. */
  datatype FeedRow<D> = FeedRow(removed: bool, doc: Option<DocId>, update: Option<D>, baseline: bool)

  predicate Whole<D>(r: FeedRow<D>) {
    !r.removed && r.doc.Some? && r.update.Some?
  }

  function DocIn<D>(l: Lattice<D>, docs: map<DocId, D>, doc: DocId): D {
    if doc in docs then docs[doc] else l.bot
  }

  /** The updates a feed brings one document, in order. */
  function Brought<D>(feed: seq<FeedRow<D>>, doc: DocId): seq<D> {
    if feed == [] then []
    else
      var last := feed[|feed| - 1];
      if Whole(last) && last.doc.value == doc then Brought(feed[..|feed| - 1], doc) + [last.update.value]
      else Brought(feed[..|feed| - 1], doc)
  }

  /** Updates merged one by one. */
  function Merged<D>(l: Lattice<D>, start: D, updates: seq<D>): D {
    if updates == [] then start else l.join(Merged(l, start, updates[..|updates| - 1]), updates[|updates| - 1])
  }

  datatype Fan<D> = Fan(doc: DocId, update: D)

  /** What a feed tells subscribers: every whole row that is not a baseline. */
  function Fans<D>(feed: seq<FeedRow<D>>): seq<Fan<D>> {
    if feed == [] then []
    else
      var last := feed[|feed| - 1];
      if Whole(last) && !last.baseline then Fans(feed[..|feed| - 1]) + [Fan(last.doc.value, last.update.value)]
      else Fans(feed[..|feed| - 1])
  }

  // ---- convergence ----

  lemma {:induction false} MergedAbove<D(!new)>(l: Lattice<D>, start: D, updates: seq<D>)
    requires Laws(l)
    ensures Below(l, start, Merged(l, start, updates))
    ensures forall u :: u in updates ==> Below(l, u, Merged(l, start, updates))
  {
    var all := Merged(l, start, updates);
    if updates == [] {
      BelowSelf(l, start);
    } else {
      var before, last := Merged(l, start, updates[..|updates| - 1]), updates[|updates| - 1];
      MergedAbove(l, start, updates[..|updates| - 1]);
      BelowJoin(l, before, last);
      BelowTrans(l, start, before, all);
      forall u | u in updates ensures Below(l, u, all) {
        if u in updates[..|updates| - 1] {
          BelowTrans(l, u, before, all);
        }
      }
    }
  }

  lemma {:induction false} MergedBelow<D(!new)>(l: Lattice<D>, start: D, updates: seq<D>, top: D)
    requires Laws(l) && Below(l, start, top) && forall u :: u in updates ==> Below(l, u, top)
    ensures Below(l, Merged(l, start, updates), top)
  {
    if updates != [] {
      MergedBelow(l, start, updates[..|updates| - 1], top);
      JoinBelow(l, Merged(l, start, updates[..|updates| - 1]), updates[|updates| - 1], top);
    }
  }

  /** However the same updates come, in any order and any number of times, a document ends up the same. */
  lemma FeedsConverge<D(!new)>(l: Lattice<D>, start: D, a: seq<D>, b: seq<D>)
    requires Laws(l) && forall u :: u in a <==> u in b
    ensures Merged(l, start, a) == Merged(l, start, b)
  {
    MergedAbove(l, start, a);
    MergedAbove(l, start, b);
    MergedBelow(l, start, a, Merged(l, start, b));
    MergedBelow(l, start, b, Merged(l, start, a));
    BelowBoth(l, Merged(l, start, a), Merged(l, start, b));
  }

  // ---- appending and compacting ----

  lemma {:induction false} FoldSame<D>(l: Lattice<D>, a: Log<D>, b: Log<D>, n: nat)
    requires forall k :: k < n ==> (k in a <==> k in b) && (k in a ==> a[k] == b[k])
    ensures Fold(l, a, n) == Fold(l, b, n)
  {
    if n > 0 {
      FoldSame(l, a, b, n - 1);
    }
  }

  /** Appending a row adds its update to its document and nothing to any other. */
  lemma AppendFolds<D>(l: Lattice<D>, updates: map<nat, Row<D>>, next: nat, row: Row<D>, doc: DocId)
    requires forall k :: k in updates ==> k < next
    ensures var before := Fold(l, LogOf(updates, doc), next);
            Fold(l, LogOf(updates[next := row], doc), next + 1) ==
            if row.doc == doc then l.join(before, row.update) else before
  {
    FoldSame(l, LogOf(updates[next := row], doc), LogOf(updates, doc), next);
  }

  /** One document's rows up to a number, gone. */
  function Trimmed<D>(updates: map<nat, Row<D>>, doc: DocId, upTo: nat): map<nat, Row<D>> {
    map k | k in updates && !(updates[k].doc == doc && k <= upTo) :: updates[k]
  }

  /** A compaction nothing interrupts leaves every document's fold as it was. */
  lemma CompactFolds<D(!new)>(l: Lattice<D>, updates: map<nat, Row<D>>, next: nat, doc: DocId, upTo: nat, other: DocId)
    requires Laws(l) && (forall k :: k in updates ==> k < next) && upTo < next
    requires forall k :: k in LogOf(updates, doc) ==> k <= upTo
    ensures var base := Fold(l, LogOf(updates, doc), next);
            Fold(l, LogOf(Trimmed(updates[next := Row(doc, base, true)], doc, upTo), other), next + 1)
            == Fold(l, LogOf(updates, other), next)
  {
    var base := Fold(l, LogOf(updates, doc), next);
    var now := Trimmed(updates[next := Row(doc, base, true)], doc, upTo);
    if other == doc {
      forall k | k < next ensures k !in LogOf(now, doc) {
        assert k in LogOf(updates, doc) ==> k <= upTo;
      }
      FoldNothing(l, LogOf(now, doc), next);
      assert LawsAt(l, base, base, base);
    } else {
      FoldSame(l, LogOf(now, other), LogOf(updates, other), next);
    }
  }

  /** What a compaction leaves of its document's log: the baseline alone. */
  lemma LeftOver<D>(updates: map<nat, Row<D>>, next: nat, doc: DocId, base: D, upTo: nat)
    requires (forall k :: k in LogOf(updates, doc) ==> k <= upTo) && upTo < next
    ensures LogOf(Trimmed(updates[next := Row(doc, base, true)], doc, upTo), doc) == map[next := base]
  {
    var left := LogOf(Trimmed(updates[next := Row(doc, base, true)], doc, upTo), doc);
    forall k ensures k in left <==> k == next {
      assert k in LogOf(updates, doc) ==> k <= upTo;
    }
  }

  datatype Outcome = Done | NotFound | Conflict | Invalid

  /** The part of a log before a number. */
  function UpTo<D>(log: Log<D>, k: nat): Log<D> {
    map j | j in log && j < k :: log[j]
  }

  lemma UpToNext<D>(log: Log<D>, k: nat)
    ensures |UpTo(log, k + 1)| == |UpTo(log, k)| + if k in log then 1 else 0
  {
    if k in log {
      assert UpTo(log, k + 1) == UpTo(log, k)[k := log[k]];
    } else {
      assert UpTo(log, k + 1) == UpTo(log, k);
    }
  }

  class CrdtCollections<D(==, !new)> {
    const l: Lattice<D>
    const everyN: nat
    /** The central tables: which documents exist, their materialized state, and the op-log. */
    var meta: set<DocId>
    var data: map<DocId, D>
    var updates: map<nat, Row<D>>
    var next: nat
    /**
     * The node's own: documents in memory, appends counted since the last compaction, compactions running and all
     * those started, and what it fanned out.
     */
    var docs: map<DocId, D>
    var since: map<DocId, nat>
    var compacting: set<DocId>
    var started: seq<DocId>
    var fanned: seq<Fan<D>>

    ghost predicate Valid()
      reads this
    {
      Laws(l) && forall k :: k in updates ==> k < next
    }

    /** A document as the central op-log has it. */
    function Central(doc: DocId): D
      reads this
    {
      Fold(l, LogOf(updates, doc), next)
    }

    constructor (l: Lattice<D>, everyN: nat)
      requires Laws(l)
      ensures Valid() && this.l == l && this.everyN == everyN && meta == {} && updates == map[] && docs == map[]
      ensures fanned == []
    {
      this.l, this.everyN := l, everyN;
      meta, data, updates, next := {}, map[], map[], 0;
      docs, since, compacting, started, fanned := map[], map[], {}, [], [];
    }

    /** Folds a document's rows into a fresh copy, in their order. */
    method FoldScratch(doc: DocId) returns (d: D)
      ensures d == Central(doc)
    {
      d := l.bot;
      for k := 0 to next
        invariant d == Fold(l, LogOf(updates, doc), k)
      {
        if k in updates && updates[k].doc == doc {
          d := l.join(d, updates[k].update);
        }
      }
    }

    /** Folds a document's rows into the copy in memory. */
    method FoldFromCentral(doc: DocId) returns (d: D)
      requires Valid()
      modifies this`docs
      ensures Valid() && d == l.join(DocIn(l, old(docs), doc), Central(doc)) && docs == old(docs)[doc := d]
    {
      var start := DocIn(l, docs, doc);
      d := start;
      assert LawsAt(l, start, l.bot, start);
      for k := 0 to next
        invariant d == l.join(start, Fold(l, LogOf(updates, doc), k))
      {
        if k in updates && updates[k].doc == doc {
          assert LawsAt(l, start, Fold(l, LogOf(updates, doc), k), updates[k].update);
          d := l.join(d, updates[k].update);
        }
      }
      docs := docs[doc := d];
    }

    /** A write to a document that exists, validated on the authoritative state before anything is committed. */
    method Apply(doc: DocId, update: D, validate: Option<D -> bool>) returns (r: Outcome)
      requires Valid()
      modifies this`updates, this`next
      ensures Valid()
      ensures r == NotFound <==> doc !in meta
      ensures r == Invalid <==> doc in meta && validate.Some? && !validate.value(l.join(old(Central(doc)), update))
      ensures r == NotFound || r == Invalid || r == Done
      ensures r != Done ==> updates == old(updates) && next == old(next)
      ensures r == Done ==> updates == old(updates)[old(next) := Row(doc, update, false)] && next == old(next) + 1
      ensures r == Done ==> Central(doc) == l.join(old(Central(doc)), update)
      ensures forall other :: other != doc ==> Central(other) == old(Central(other))
    {
      if doc !in meta {
        return NotFound;
      }
      if validate.Some? {
        var scratch := FoldScratch(doc);
        if !validate.value(l.join(scratch, update)) {
          return Invalid;
        }
      }
      var more, at := updates[next := Row(doc, update, false)], next + 1;
      forall other
        ensures Fold(l, LogOf(more, other), at) ==
                if doc == other then l.join(Central(other), update) else Central(other)
      {
        AppendFolds(l, updates, next, Row(doc, update, false), other);
      }
      updates, next := more, at;
      return Done;
    }

    /** A new document and its seed land together. */
    method Create(doc: DocId, seed: D) returns (r: Outcome)
      requires Valid()
      modifies this
      ensures Valid() && (r == Conflict <==> doc in old(meta)) && (r == Conflict || r == Done)
      ensures r == Conflict ==> meta == old(meta) && updates == old(updates) && docs == old(docs)
      ensures r == Done ==> meta == old(meta) + {doc} && data == old(data)[doc := seed]
      ensures r == Done ==> Central(doc) == l.join(old(Central(doc)), seed)
      ensures r == Done ==> docs == old(docs)[doc := l.join(DocIn(l, old(docs), doc), seed)]
    {
      if doc in meta {
        return Conflict;
      }
      AppendFolds(l, updates, next, Row(doc, seed, false), doc);
      meta, data := meta + {doc}, data[doc := seed];
      updates := updates[next := Row(doc, seed, false)];
      next := next + 1;
      docs := docs[doc := l.join(DocIn(l, docs, doc), seed)];
      return Done;
    }

    /** Reads a document's rows in their order: what they fold to, how many there are, and the last one's number. */
    method ReadRows(doc: DocId) returns (base: D, rows: nat, maxSeq: nat)
      requires forall k :: k in updates ==> k < next
      ensures base == Central(doc) && rows == |LogOf(updates, doc)|
      ensures forall k :: k in LogOf(updates, doc) && k < next ==> k <= maxSeq
      ensures rows > 0 ==> maxSeq < next
    {
      base, rows, maxSeq := l.bot, 0, 0;
      ghost var log := LogOf(updates, doc);
      for k := 0 to next
        invariant base == Fold(l, log, k)
        invariant rows == |UpTo(log, k)| && (rows > 0 ==> maxSeq < k)
        invariant forall j :: j in log && j < k ==> j <= maxSeq
      {
        UpToNext(log, k);
        if k in updates && updates[k].doc == doc {
          base, rows, maxSeq := l.join(base, updates[k].update), rows + 1, k;
        }
      }
      assert UpTo(log, next) == log;
    }

    /** Folds a document's rows down to one baseline and trims them; every document means what it did. */
    method Compact(doc: DocId)
      requires Valid()
      modifies this`updates, this`next, this`data
      ensures Valid() && forall other :: Central(other) == old(Central(other))
      ensures |LogOf(old(updates), doc)| < 2 ==> updates == old(updates) && data == old(data)
      ensures |LogOf(old(updates), doc)| >= 2 ==> LogOf(updates, doc) == map[old(next) := old(Central(doc))]
      ensures |LogOf(old(updates), doc)| >= 2 ==> data == old(data)[doc := old(Central(doc))]
      ensures forall k :: k in old(updates) && old(updates)[k].doc != doc ==>
                k in updates && updates[k] == old(updates)[k]
    {
      var base, rows, maxSeq := ReadRows(doc);
      if rows < 2 {
        return;
      }
      var more := updates[next := Row(doc, base, true)];
      var less, at := Trimmed(more, doc, maxSeq), next + 1;
      forall other ensures Fold(l, LogOf(less, other), at) == Central(other) {
        CompactFolds(l, updates, next, doc, maxSeq, other);
      }
      LeftOver(updates, next, doc, base, maxSeq);
      updates := more;
      updates := less;
      next := at;
      data := data[doc := base];
    }

    /** Counts an append toward the next compaction; when enough have come starts one, unless one is still running. */
    method ScheduleCompact(doc: DocId)
      modifies this`since, this`compacting, this`started
      ensures var n := (if doc in old(since) then old(since)[doc] else 0) + 1;
              && since == old(since)[doc := if n >= everyN then 0 else n]
              && (if n >= everyN && doc !in old(compacting)
                  then started == old(started) + [doc] && compacting == old(compacting) + {doc}
                  else started == old(started) && compacting == old(compacting))
    {
      var n := (if doc in since then since[doc] else 0) + 1;
      since := since[doc := n];
      if n >= everyN {
        since := since[doc := 0];
        if doc in compacting {
          return;
        }
        compacting := compacting + {doc};
        started := started + [doc];
      }
    }

    /** A compaction that ran, or failed, lets the next one of its document start. */
    method Finish(doc: DocId)
      modifies this`compacting
      ensures compacting == old(compacting) - {doc}
    {
      compacting := compacting - {doc};
    }

    /** Merges one row into its document in memory, and fans out and counts it unless it is a baseline. */
    method FollowRow(doc: DocId, update: D, baseline: bool)
      modifies this`docs, this`fanned, this`since, this`compacting, this`started
      ensures docs == old(docs)[doc := l.join(DocIn(l, old(docs), doc), update)]
      ensures fanned == old(fanned) + if baseline then [] else [Fan(doc, update)]
    {
      docs := docs[doc := l.join(DocIn(l, docs, doc), update)];
      if !baseline {
        fanned := fanned + [Fan(doc, update)];
        ScheduleCompact(doc);
      }
    }

    /** Follows the feed, passing over removals and rows delivered in part. */
    method Follow(feed: seq<FeedRow<D>>)
      modifies this`docs, this`fanned, this`since, this`compacting, this`started
      ensures Follows(l, old(docs), docs, feed)
      ensures fanned == old(fanned) + Fans(feed)
    {
      for i := 0 to |feed|
        invariant Follows(l, old(docs), docs, feed[..i])
        invariant fanned == old(fanned) + Fans(feed[..i])
      {
        var r := feed[i];
        assert feed[..i + 1][..i] == feed[..i];
        ghost var before := docs;
        if Whole(r) {
          FollowRow(r.doc.value, r.update.value, r.baseline);
        }
        FollowsMore(l, old(docs), before, docs, feed[..i], feed[..i + 1], r);
      }
      assert feed[..|feed|] == feed;
    }
  }

  /** Every document holds what it did, merged with what the feed brought it. */
  ghost predicate Follows<D(!new)>(l: Lattice<D>, was: map<DocId, D>, now: map<DocId, D>, feed: seq<FeedRow<D>>) {
    forall doc :: DocIn(l, now, doc) == Merged(l, DocIn(l, was, doc), Brought(feed, doc))
  }

  lemma FollowsMore<D(!new)>(l: Lattice<D>, was: map<DocId, D>, before: map<DocId, D>, now: map<DocId, D>,
                             feed: seq<FeedRow<D>>, more: seq<FeedRow<D>>, r: FeedRow<D>)
    requires Follows(l, was, before, feed) && more == feed + [r]
    requires now == if Whole(r) then before[r.doc.value := l.join(DocIn(l, before, r.doc.value), r.update.value)]
             else before
    ensures Follows(l, was, now, more)
  {
    assert more[..|more| - 1] == feed;
    forall doc ensures DocIn(l, now, doc) == Merged(l, DocIn(l, was, doc), Brought(more, doc)) {
      assert DocIn(l, before, doc) == Merged(l, DocIn(l, was, doc), Brought(feed, doc));
      if Whole(r) && r.doc.value == doc {
        MergedOneMore(l, DocIn(l, was, doc), Brought(feed, doc), r.update.value);
      }
    }
  }

  lemma MergedOneMore<D>(l: Lattice<D>, start: D, updates: seq<D>, u: D)
    ensures Merged(l, start, updates + [u]) == l.join(Merged(l, start, updates), u)
  {
    assert (updates + [u])[..|updates|] == updates;
  }
}
