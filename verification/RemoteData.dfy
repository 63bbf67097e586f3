/**
 * What a source and the nodes that follow it exchange: rows by key, changes to them, and the one notion the whole
 * replication argument rests on, a delta that is sound between two clocks of a history.
 */
module RemoteData {
  import opened Options

  datatype Value = Null | Number(n: real) | Text(s: string) | Blob(base64: string)
  type Data = map<string, Value>

  datatype Key = Key(table: string, id: string)
  type Rows = map<Key, Data>

  datatype RemoteChange = Put(key: Key, data: Data) | Delete(key: Key)

  /** The answer to `changesSince`. */
  datatype RemoteChanges<E> = RemoteChanges(epoch: E, clock: nat, changes: seq<RemoteChange>, wipeAll: bool)

  /** One committed batch, as its source announces it; no changes means "pull them". */
  datatype RemotePush<E> = RemotePush(epoch: E, clock: nat, changes: Option<seq<RemoteChange>>)

  function Look(rows: Rows, k: Key): Option<Data> {
    if k in rows then Some(rows[k]) else None
  }

  function ApplyChange(rows: Rows, c: RemoteChange): Rows {
    match c
    case Put(k, data) => rows[k := data]
    case Delete(k) => rows - {k}
  }

  /** Applying changes one by one, in order. */
  function Replay(rows: Rows, changes: seq<RemoteChange>): Rows {
    if changes == [] then rows
    else ApplyChange(Replay(rows, changes[..|changes| - 1]), changes[|changes| - 1])
  }

  /** The value each key ends up with; `None` for a deleted key. */
  type Delta = map<Key, Option<Data>>

  function ValueOf(c: RemoteChange): Option<Data> {
    if c.Put? then Some(c.data) else None
  }

  function DeltaOf(changes: seq<RemoteChange>): Delta {
    if changes == [] then map[]
    else
      var c := changes[|changes| - 1];
      DeltaOf(changes[..|changes| - 1])[c.key := ValueOf(c)]
  }

  function Patch(rows: Rows, d: Delta): Rows {
    map k | k in rows.Keys + d.Keys && (k in d ==> d[k].Some?) :: if k in d then d[k].value else rows[k]
  }

  lemma {:induction false} ReplayIsPatch(rows: Rows, changes: seq<RemoteChange>)
    ensures Replay(rows, changes) == Patch(rows, DeltaOf(changes))
  {
    if changes != [] {
      ReplayIsPatch(rows, changes[..|changes| - 1]);
    }
  }

  lemma {:induction false} DeltaOfConcat(a: seq<RemoteChange>, b: seq<RemoteChange>)
    ensures DeltaOf(a + b) == DeltaOf(a) + DeltaOf(b)
  {
    if b == [] {
      assert a + b == a;
    } else {
      var init := b[..|b| - 1];
      assert (a + b)[..|a + b| - 1] == a + init;
      DeltaOfConcat(a, init);
    }
  }

  lemma {:induction false} ReplayConcat(rows: Rows, a: seq<RemoteChange>, b: seq<RemoteChange>)
    ensures Replay(rows, a + b) == Replay(Replay(rows, a), b)
  {
    if b == [] {
      assert a + b == a;
    } else {
      var init := b[..|b| - 1];
      assert (a + b)[..|a + b| - 1] == a + init;
      ReplayConcat(rows, a, init);
    }
  }

  /**
   * `d` is sound from clock `from` to clock `to` of a history: a key it names ends at its value at `to`, and a key it
   * leaves out kept one value at every clock in between.
   */
  ghost predicate Sound(history: seq<Rows>, from: nat, to: nat, d: Delta) {
    && from <= to < |history|
    && (forall k :: k in d ==> d[k] == Look(history[to], k))
    && (forall k, m :: k !in d && from <= m <= to ==> Look(history[m], k) == Look(history[to], k))
  }

  /** A sound delta takes the rows at any clock it spans to the rows at its end. */
  lemma SoundPatch(history: seq<Rows>, from: nat, to: nat, d: Delta, at: nat)
    requires Sound(history, from, to, d) && from <= at <= to
    ensures Patch(history[at], d) == history[to]
  {
    var p := Patch(history[at], d);
    forall k ensures Look(p, k) == Look(history[to], k) {
      if k !in d {
        assert Look(history[at], k) == Look(history[to], k);
      }
    }
    LookExtensional(p, history[to]);
  }

  lemma LookExtensional(a: Rows, b: Rows)
    requires forall k :: Look(a, k) == Look(b, k)
    ensures a == b
  {
    forall k ensures k in a <==> k in b {
      assert Look(a, k) == Look(b, k);
    }
    forall k | k in a ensures a[k] == b[k] {
      assert Look(a, k) == Look(b, k);
    }
  }

  /** Sound deltas compose: the later one wins on the keys both name. */
  lemma SoundCompose(history: seq<Rows>, a: nat, b: nat, c: nat, d: Delta, e: Delta)
    requires Sound(history, a, b, d) && Sound(history, b, c, e)
    ensures Sound(history, a, c, d + e)
  {
    var de := d + e;
    forall k | k in de ensures de[k] == Look(history[c], k) {
      if k !in e {
        assert Look(history[b], k) == Look(history[c], k);
      }
    }
    forall k, m | k !in de && a <= m <= c ensures Look(history[m], k) == Look(history[c], k) {
      assert Look(history[b], k) == Look(history[c], k);
      if m <= b {
        assert Look(history[m], k) == Look(history[b], k);
      }
    }
  }

  /** A history only grows, so what was sound stays sound. */
  lemma SoundExtend(history: seq<Rows>, more: seq<Rows>, from: nat, to: nat, d: Delta)
    requires Sound(history, from, to, d)
    ensures Sound(history + more, from, to, d)
  {
    forall k, m | k !in d && from <= m <= to ensures Look((history + more)[m], k) == Look((history + more)[to], k) {
      assert Look(history[m], k) == Look(history[to], k);
    }
  }

  lemma SoundEmpty(history: seq<Rows>, at: nat)
    requires at < |history|
    ensures Sound(history, at, at, map[])
  {
  }
}
