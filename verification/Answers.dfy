/** What a list of changes has to tell: every key logged after a clock, once, as the log and the tables have it. */
module Answers {
  import opened Options
  import opened RemoteData
  import opened ChangeLog

  /** `changes` tells exactly `d`, one change a key, in whatever order. */
  ghost predicate Lists(changes: seq<RemoteChange>, d: Delta) {
    DeltaOf(changes) == d && |changes| == |d|
  }

  /** A change that is due: its key is logged after the clock, deleted, or put and there with this data. */
  ghost predicate Due(db: Db, since: nat, c: RemoteChange) {
    && c.key in db.log && db.log[c.key].clock > since
    && match c
       case Delete(_) => db.log[c.key].op == DeleteOp
       case Put(k, data) =>
         && db.log[k].op == PutOp && k.table in db.tables && db.tables[k.table].keyed
         && k.id in db.tables[k.table].rows && db.tables[k.table].rows[k.id] == data
  }

  ghost predicate Told(changes: seq<RemoteChange>, k: Key) {
    exists c :: c in changes && c.key == k
  }

  /** All that is due, each key once, and nothing else. */
  ghost predicate TellsSince(db: Db, since: nat, changes: seq<RemoteChange>) {
    && (forall c :: c in changes ==> Due(db, since, c))
    && (forall i, j :: 0 <= i < j < |changes| ==> changes[i].key != changes[j].key)
    && (forall c :: Due(db, since, c) ==> Told(changes, c.key))
  }

  lemma {:induction false} DeltaKeys(changes: seq<RemoteChange>)
    ensures |DeltaOf(changes)| <= |changes|
    ensures forall k :: k in DeltaOf(changes) <==> Told(changes, k)
  {
    if changes != [] {
      var init, last := changes[..|changes| - 1], changes[|changes| - 1];
      assert changes == init + [last];
      DeltaKeys(init);
      Grown(DeltaOf(init), last.key, ValueOf(last));
      assert forall k :: Told(changes, k) <==> Told(init, k) || k == last.key by {
        assert last in changes && forall c :: c in init ==> c in changes;
      }
    }
  }

  lemma Grown(d: Delta, k: Key, v: Option<Data>)
    ensures |d[k := v]| == if k in d then |d| else |d| + 1
  {
    assert d[k := v].Keys == d.Keys + {k};
    assert |d| == |d.Keys| && |d[k := v]| == |d[k := v].Keys|;
  }

  /** A list as long as what it tells has each key once, with the value it tells. */
  lemma {:induction false} ListedOnce(changes: seq<RemoteChange>)
    requires |DeltaOf(changes)| == |changes|
    ensures forall i, j :: 0 <= i < j < |changes| ==> changes[i].key != changes[j].key
    ensures forall c :: c in changes ==> c.key in DeltaOf(changes) && DeltaOf(changes)[c.key] == ValueOf(c)
  {
    if changes != [] {
      var init, last := changes[..|changes| - 1], changes[|changes| - 1];
      assert changes == init + [last];
      DeltaKeys(init);
      Grown(DeltaOf(init), last.key, ValueOf(last));
      ListedOnce(init);
      forall i | 0 <= i < |init| ensures changes[i].key != last.key {
        assert init[i] in init && Told(init, init[i].key);
      }
    }
  }

  /** What lists the changes since a clock tells all that is due, once, and nothing else. */
  lemma ListsTells(db: Db, since: nat, changes: seq<RemoteChange>)
    requires Lists(changes, DeltaSince(db, since))
    ensures TellsSince(db, since, changes)
  {
    DeltaKeys(changes);
    ListedOnce(changes);
    forall c | c in changes ensures Due(db, since, c) {
      VisibleLook(db.tables, c.key);
    }
    forall c | Due(db, since, c) ensures Told(changes, c.key) {
      VisibleLook(db.tables, c.key);
      assert c.key in DeltaSince(db, since);
    }
  }
}
