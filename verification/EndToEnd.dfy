/**
 * A source, the network, its node and the subscribers behind it, each as modelled on its own, put together: every step
 * of the whole is a step of the replication state machine, so a subscriber's filtered view is the source's rows.
 */
module EndToEnd {
  import opened Options
  import opened Patterns
  import opened Sorting
  import opened RemoteData
  import opened ChangeLog
  import opened Batches
  import opened Answers
  import Source = SyncedSql
  import opened Query
  import opened RemoteKeys
  import opened Routing
  import opened RemoteSnapshot
  import opened SeededViews
  import Node = RemoteRows
  import Net = Replication

  // ---- the whole system ----

  /** The source followed, and the limits it and its node are set up with. */
  datatype Config = Config(fold: CaseFold, storeId: string, maxTombstones: nat, maxPull: nat, snapshotLimit: nat)

  /** The listener that routes changes to subscribers. */
  const ROUTER: nat := 0

  /**
   * A subscriber of the source: what it was told before its snapshot came, then its view. `whole` says that its
   * snapshot read all it needed; `told` is a record of the changes themselves, which the proofs follow.
   */
  datatype Subscription = Subscription(query: Query, pending: seq<RowChange>, view: Option<View>, whole: bool,
                                       told: Net.Subscriber)

  /**
   * `epochs` are the source's, oldest first, and `past` the rows at each clock of all but the last, which `db` and
   * `history` are of. `sent` holds every push ever sent; `reply` is an answer on its way.
   */
  datatype World = World(
    epochs: seq<string>,
    past: seq<seq<Rows>>,
    db: Db,
    history: seq<Rows>,
    sent: set<RemotePush<string>>,
    node: Node.NodeView,
    reply: Option<RemoteChanges<string>>,
    subs: map<nat, Subscription>)

  function Latest(w: World): string
    requires w.epochs != []
  {
    w.epochs[|w.epochs| - 1]
  }

  function SeenAt(c: Config, n: Node.NodeView): Option<Net.Seen<string>> {
    Node.SeenOf(n.stored, c.storeId)
  }

  /** What the router heard in a step. */
  function News(n: Node.NodeView, m: Node.NodeView): seq<RowChange> {
    if ROUTER in n.heard && ROUTER in m.heard && |n.heard[ROUTER]| <= |m.heard[ROUTER]|
      then m.heard[ROUTER][|n.heard[ROUTER]|..] else []
  }

  /** Before its snapshot a subscriber keeps what is routed; after it, its view takes it in. */
  function Tell(fold: CaseFold, sub: Subscription, news: seq<RowChange>, changes: seq<RemoteChange>): Subscription {
    var told := Net.Heard(sub.told, changes);
    if sub.view.None? then sub.(pending := sub.pending + news, told := told)
    else sub.(view := Some(RoutedAll(fold, sub.query.filter, sub.view.value, news)), told := told)
  }

  function TellAll(fold: CaseFold, subs: map<nat, Subscription>, news: seq<RowChange>,
                   changes: seq<RemoteChange>): map<nat, Subscription> {
    map i | i in subs :: Tell(fold, subs[i], news, changes)
  }

  function Started(sub: Subscription, clock: nat): Subscription {
    if sub.told.Waiting? then sub.(told := sub.told.(from := Some(clock))) else sub
  }

  /** What a subscriber that has waited since a clock of the node makes of the rows its snapshot read. */
  function Seeded(told: Net.Subscriber, epoch: nat, clock: nat, rows: Rows): Net.Subscriber {
    if told.Waiting? && told.from.Some? then Net.Seed(told, epoch, clock, rows) else told
  }

  // ---- its steps ----

  /** A batch of the source, with the push it sends where its clock moved. */
  ghost predicate Batch(c: Config, s: World, t: World, steps: seq<Step>, p: Option<RemotePush<string>>) {
    && s.epochs != []
    && Ran(s.db, s.history, steps, c.maxTombstones, t.db, t.history)
    && (p.Some? <==> t.db.clock != s.db.clock)
    && (p.Some? ==> p.value.epoch == Latest(s) && Source.AnnouncesBatch(t.db, t.history, s.db.clock, p.value))
    && t == s.(db := t.db, history := t.history, sent := s.sent + if p.Some? then {p.value} else {})
  }

  /** The source is reset: installed anew, over any tables, under an epoch no one has seen. */
  ghost predicate Reset(s: World, t: World, epoch: string, tables: Tables) {
    && epoch !in s.epochs && (forall name :: name in tables ==> tables[name].logsAs.None?)
    && t == s.(epochs := s.epochs + [epoch], past := s.past + [s.history], db := Installed(tables),
               history := [Visible(tables)])
  }

  /** A push reaches the node, once more or late perhaps, or a catch-up is asked for; either waits its turn. */
  ghost predicate Queue(c: Config, s: World, t: World, task: Node.Task) {
    && (task.Ingest? ==> task.push in s.sent)
    && t == s.(node := s.node.(queues := s.node.queues[c.storeId := Node.QueueOf(s.node.queues, c.storeId) + [task]]))
  }

  /** The node runs the source's oldest task; the server routes what its listener hears. */
  ghost predicate Turn(c: Config, s: World, t: World, since: Option<nat>) {
    && c.storeId !in s.node.pulling && Node.StepTo(s.node, t.node, c.storeId, since)
    && var decided := Node.Decide(SeenAt(c, s.node), Node.QueueOf(s.node.queues, c.storeId)[0]);
    t == s.(
      node := t.node,
      subs := if decided.Apply? then TellAll(c.fold, s.subs, News(s.node, t.node), decided.changes) else s.subs)
  }

  /** The source answers a pull from where it stands. */
  ghost predicate Reply(c: Config, s: World, t: World, a: RemoteChanges<string>) {
    && s.epochs != [] && c.storeId in s.node.pulling && s.reply.None?
    && Source.Responds(a, Latest(s), s.db, Node.Since(s.node.pulling[c.storeId]), c.maxPull)
    && t == s.(reply := Some(a))
  }

  /** The node takes the answer; subscribers of a source it wipes are closed. */
  ghost predicate Take(c: Config, s: World, t: World) {
    && s.reply.Some? && c.storeId in s.node.pulling && Node.AnswerTo(s.node, t.node, c.storeId, s.reply.value)
    && t == s.(node := t.node, reply := None, subs :=
                 if t.node.wiped != s.node.wiped then map[]
                 else if SeenAt(c, s.node).None? then map i | i in s.subs :: Started(s.subs[i], s.reply.value.clock)
                 else TellAll(c.fold, s.subs, News(s.node, t.node), s.reply.value.changes))
  }

  ghost predicate Register(c: Config, s: World, t: World, i: nat, q: Query) {
    && i !in s.subs
    && var from := if SeenAt(c, s.node).Some? then Some(SeenAt(c, s.node).value.clock) else None;
    t == s.(subs := s.subs[i := Subscription(q, [], None, false, Net.Waiting(from, []))])
  }

  /** A subscriber that pins the source gets its snapshot, the node having caught up at least once. */
  ghost predicate Snapshot(c: Config, s: World, t: World, i: nat, sources: Sources, order: seq<string>,
                           answer: seq<Json>) {
    && i in s.subs && s.subs[i].view.None? && SeenAt(c, s.node).Some?
    && var sub := s.subs[i];
    && WellOrdered(sources, order) && (forall st :: st in sources ==> WellListed(sources[st]))
    && c.storeId in sources && Shows(sources[c.storeId], Visible(s.db.tables))
    && Gives(c.fold, sources, order, sub.query, c.snapshotLimit, Some(answer)) && StoreOf(sub.query.filter) == c.storeId
    && t == s.(subs := s.subs[i := sub.(
                 pending := [],
                 view := Some(RoutedAll(c.fold, sub.query.filter, SeedView(answer), sub.pending)),
                 whole := Whole(sources, sub.query, c.snapshotLimit),
                 told := Seeded(sub.told, |s.past|, s.db.clock, Visible(s.db.tables)))])
  }

  ghost predicate Leave(s: World, t: World, i: nat) {
    t == s.(subs := s.subs - {i})
  }

  /** A step in which a batch of the source, if it is one, hides nothing. */
  ghost predicate Next(c: Config, s: World, t: World) {
    || (exists steps, p :: Batch(c, s, t, steps, p) && HidesNothing(s.db, steps))
    || (exists epoch, tables :: Reset(s, t, epoch, tables))
    || (exists task :: Queue(c, s, t, task))
    || (exists since :: Turn(c, s, t, since))
    || (exists a :: Reply(c, s, t, a))
    || Take(c, s, t)
    || (exists i, q :: Register(c, s, t, i, q))
    || (exists i, sources, order, answer :: Snapshot(c, s, t, i, sources, order, answer))
    || (exists i :: Leave(s, t, i))
  }

  /** The source as installed over some tables. */
  ghost predicate FirstInstalled(s: World, tables: Tables) {
    && (forall name :: name in tables ==> tables[name].logsAs.None?)
    && s.db == Installed(tables) && s.history == [Visible(tables)]
  }

  ghost predicate Init(c: Config, s: World) {
    && |s.epochs| == 1 && s.past == [] && s.sent == {} && s.reply.None? && s.subs == map[]
    && c.storeId !in s.node.stored && c.storeId !in s.node.pulling && Node.QueueOf(s.node.queues, c.storeId) == []
    && ROUTER in s.node.heard
    && exists tables :: FirstInstalled(s, tables)
  }

  /** The source's tables have no colon in their names, and it is far from the last clock a number holds. */
  ghost predicate Named(c: Config, s: World) {
    ':' !in c.storeId && (forall name :: name in s.db.tables ==> ':' !in name) && s.db.clock < Node.CURRENT
  }

  // ---- as the replication state machine sees it ----

  /** Epochs numbered from the oldest. */
  ghost function Number(epochs: seq<string>, e: string): nat {
    if e in epochs then
      var i :| 0 <= i < |epochs| && epochs[i] == e;
      i
    else |epochs|
  }

  ghost predicate Distinct(epochs: seq<string>) {
    forall i, j :: 0 <= i < j < |epochs| ==> epochs[i] != epochs[j]
  }

  lemma NumberAt(epochs: seq<string>, i: nat)
    requires Distinct(epochs) && i < |epochs|
    ensures Number(epochs, epochs[i]) == i
  {
  }

  lemma NumberKept(epochs: seq<string>, more: string, e: string)
    requires Distinct(epochs + [more]) && e in epochs
    ensures Number(epochs + [more], e) == Number(epochs, e) < |epochs|
  {
    var i :| 0 <= i < |epochs| && epochs[i] == e;
    var all := epochs + [more];
    forall j, k | 0 <= j < k < |epochs| ensures epochs[j] != epochs[k] {
      assert all[j] == epochs[j] && all[k] == epochs[k];
    }
    assert all[i] == e;
    NumberAt(all, i);
    NumberAt(epochs, i);
  }

  lemma NumberInjective(epochs: seq<string>, d: string, e: string)
    requires Distinct(epochs) && d in epochs && e in epochs
    ensures Number(epochs, d) == Number(epochs, e) <==> d == e
    ensures Number(epochs, e) < |epochs|
  {
  }

  ghost function PushOf(epochs: seq<string>, p: RemotePush<string>): Net.Push {
    RemotePush(Number(epochs, p.epoch), p.clock, p.changes)
  }

  ghost function AnswerOf(epochs: seq<string>, a: RemoteChanges<string>): Net.Answer {
    RemoteChanges(Number(epochs, a.epoch), a.clock, a.changes, a.wipeAll)
  }

  ghost function SeenNumbered(epochs: seq<string>, seen: Option<Net.Seen<string>>): Option<Net.Seen<nat>> {
    if seen.None? then None else Some(Net.Seen(Number(epochs, seen.value.epoch), seen.value.clock))
  }

  ghost function PullOf(c: Config, w: World): Net.Step {
    if c.storeId !in w.node.pulling then Net.Idle
    else if w.reply.None? then Net.Asked
    else Net.Answered(AnswerOf(w.epochs, w.reply.value))
  }

  ghost function PushesOf(epochs: seq<string>, sent: set<RemotePush<string>>): set<Net.Push> {
    set p | p in sent :: PushOf(epochs, p)
  }

  function ToldOf(subs: map<nat, Subscription>): map<nat, Net.Subscriber> {
    map i | i in subs :: subs[i].told
  }

  ghost function Abs(c: Config, w: World): Net.System {
    Net.System(w.past + [w.history], PushesOf(w.epochs, w.sent), SeenNumbered(w.epochs, SeenAt(c, w.node)),
               PullOf(c, w), ToldOf(w.subs))
  }

  // ---- what every step keeps ----

  ghost predicate TaskOk(w: World, task: Node.Task) {
    task.Ingest? ==> task.push in w.sent
  }

  ghost predicate PushOk(epochs: seq<string>, p: RemotePush<string>) {
    p.epoch in epochs && (p.changes.Some? ==> PlainChanges(p.changes.value))
  }

  /** Before its snapshot a subscriber keeps what was routed; after a whole one its view is the rows it was told of. */
  ghost predicate SubOk(c: Config, sub: Subscription) {
    match sub.told
    case Waiting(_, buffer) => sub.view.None? && sub.pending == Mapped(buffer, Changing(c.storeId)) &&
      PlainChanges(buffer)
    case Live(_, _, _, rows, _) =>
      && sub.view.Some? && PlainKeys(rows.Keys)
      && (sub.whole ==> ViewOf(Admitting(c.fold, sub.query.filter), AtPlaces(c.storeId, rows), sub.view.value))
  }

  ghost predicate NodeOk(c: Config, w: World) {
    && ROUTER in w.node.heard
    && (c.storeId in w.node.pulling ==> w.node.pulling[c.storeId] == SeenAt(c, w.node))
    && (SeenAt(c, w.node).Some? ==> SeenAt(c, w.node).value.epoch in w.epochs)
    && (forall task :: task in Node.QueueOf(w.node.queues, c.storeId) ==> TaskOk(w, task))
    && (w.reply.Some? ==>
      c.storeId in w.node.pulling && w.reply.value.epoch in w.epochs && PlainChanges(w.reply.value.changes))
  }

  ghost predicate Inv(c: Config, w: World) {
    && Distinct(w.epochs) && |w.epochs| == |w.past| + 1
    && ChangeLog.Inv(w.db, w.history, c.maxTombstones)
    && (forall p :: p in w.sent ==> PushOk(w.epochs, p))
    && NodeOk(c, w)
    && (forall i :: i in w.subs ==> SubOk(c, w.subs[i]))
  }

  // ---- plain names ----

  lemma {:induction false} ListedPlain(changes: seq<RemoteChange>, d: Delta)
    requires DeltaOf(changes) == d && PlainKeys(d.Keys)
    ensures PlainChanges(changes)
    decreases |changes|
  {
    if changes != [] {
      var init, c := changes[..|changes| - 1], changes[|changes| - 1];
      forall k | k in DeltaOf(init) ensures ':' !in k.table {
        assert k in d;
      }
      ListedPlain(init, DeltaOf(init));
      assert c.key in d;
    }
  }

  lemma AnswersPlain(c: Config, w: World, changes: seq<RemoteChange>, since: nat)
    requires Named(c, w) && Shaped(w.db) && Lists(changes, DeltaSince(w.db, since))
    ensures PlainChanges(changes)
  {
    ListedPlain(changes, DeltaSince(w.db, since));
  }

  lemma VisiblePlain(c: Config, w: World)
    requires Named(c, w)
    ensures PlainKeys(Visible(w.db.tables).Keys)
  {
  }

  // ---- each step is one of the state machine's ----

  lemma {:induction false} Above(s: set<nat>) returns (n: nat)
    ensures forall x :: x in s ==> x < n
  {
    n := 0;
    if s != {} {
      var x :| x in s;
      n := Above(s - {x});
      n := Max(n, x + 1);
      assert forall y :: y in s ==> y == x || y in s - {x};
    }
  }

  /** A step that changes nothing the state machine sees is one in which no one leaves. */
  lemma Stutters(a: Net.System, b: Net.System)
    requires a == b
    ensures Net.Next(a, b)
  {
    var n := Above(a.subscribers.Keys);
    assert a.subscribers - {n} == a.subscribers;
    assert Net.Leave(a, b, n);
  }

  lemma PushesKept(epochs: seq<string>, more: string, sent: set<RemotePush<string>>)
    requires Distinct(epochs + [more]) && forall p :: p in sent ==> p.epoch in epochs
    ensures PushesOf(epochs + [more], sent) == PushesOf(epochs, sent)
  {
    forall p | p in sent ensures PushOf(epochs + [more], p) == PushOf(epochs, p) {
      NumberKept(epochs, more, p.epoch);
    }
  }

  /** A batch touches nothing of the node and its subscribers. */
  lemma NodeKept(c: Config, s: World, t: World)
    requires NodeOk(c, s) && s.sent <= t.sent && t.node == s.node && t.reply == s.reply
    requires forall e :: e in s.epochs ==> e in t.epochs
    ensures NodeOk(c, t)
  {
    forall task | task in Node.QueueOf(t.node.queues, c.storeId) ensures TaskOk(t, task) {
      assert TaskOk(s, task);
    }
  }

  lemma BatchKeeps(c: Config, s: World, t: World, steps: seq<Step>, p: Option<RemotePush<string>>)
    requires Inv(c, s) && Batch(c, s, t, steps, p) && HidesNothing(s.db, steps) && Named(c, t)
    ensures Inv(c, t)
  {
    RanKeeps(s.db, s.history, steps, c.maxTombstones, t.db, t.history);
    NodeKept(c, s, t);
    forall q | q in t.sent ensures PushOk(t.epochs, q) {
      if q in s.sent {
        assert PushOk(s.epochs, q);
      } else if q.changes.Some? {
        AnswersPlain(c, t, q.changes.value, s.db.clock);
      }
    }
  }

  lemma LoudHistory(c: Config, s: World, t: World, steps: seq<Step>, p: RemotePush<string>)
    requires Inv(c, s) && Inv(c, t) && Batch(c, s, t, steps, Some(p))
    ensures t.history == s.history + [Visible(t.db.tables)] && p.clock == |s.history| == t.db.clock
  {
    assert t.history == Extended(s.history, s.db, ExecAll(s.db, steps).value);
    assert t.history[t.db.clock] == Visible(t.db.tables);
  }

  /** A push as the source announces it, its epoch numbered, is one the state machine may send. */
  lemma AnnouncedIsSound(epochs: seq<string>, past: seq<seq<Rows>>, db: Db, history: seq<Rows>, since: nat,
                         p: RemotePush<string>)
    requires Distinct(epochs) && |epochs| == |past| + 1 && p.epoch == epochs[|past|]
    requires Complete(db, history) && Source.AnnouncesBatch(db, history, since, p)
    ensures Net.PushSound(past + [history], PushOf(epochs, p)) && PushOf(epochs, p).epoch == |past|
  {
    NumberAt(epochs, |past|);
    assert (past + [history])[|past|] == history;
  }

  lemma LoudStep(c: Config, s: World, t: World, rows: Rows, p: RemotePush<string>)
    requires t == s.(db := t.db, history := s.history + [rows], sent := s.sent + {p}) && |s.history| == p.clock
    requires PushOf(s.epochs, p).epoch == |s.past| && Net.PushSound(t.past + [t.history], PushOf(t.epochs, p))
    ensures Net.Next(Abs(c, s), Abs(c, t))
  {
    var a, b := Abs(c, s), Abs(c, t);
    assert (s.past + [s.history])[|s.past| := t.history] == s.past + [t.history];
    assert PushesOf(s.epochs, s.sent + {p}) == PushesOf(s.epochs, s.sent) + {PushOf(s.epochs, p)};
    assert Net.Commit(a, b, rows, PushOf(s.epochs, p));
  }

  lemma BatchStep(c: Config, s: World, t: World, steps: seq<Step>, p: Option<RemotePush<string>>)
    requires Inv(c, s) && Batch(c, s, t, steps, p) && HidesNothing(s.db, steps) && Named(c, t)
    ensures Inv(c, t) && Net.Next(Abs(c, s), Abs(c, t))
  {
    BatchKeeps(c, s, t, steps, p);
    if p.Some? {
      AnnouncedIsSound(s.epochs, s.past, t.db, t.history, s.db.clock, p.value);
      LoudHistory(c, s, t, steps, p.value);
      LoudStep(c, s, t, Visible(t.db.tables), p.value);
    } else {
      QuietHistory(c, s, t, steps);
      Stutters(Abs(c, s), Abs(c, t));
    }
  }

  lemma QuietHistory(c: Config, s: World, t: World, steps: seq<Step>)
    requires Inv(c, s) && Inv(c, t) && Batch(c, s, t, steps, None)
    ensures t.history == s.history && t.sent == s.sent
  {
  }

  lemma DistinctGrows(epochs: seq<string>, epoch: string)
    requires Distinct(epochs) && epoch !in epochs
    ensures Distinct(epochs + [epoch])
  {
  }

  lemma ResetKeeps(c: Config, s: World, t: World, epoch: string, tables: Tables)
    requires Inv(c, s) && Reset(s, t, epoch, tables)
    ensures Inv(c, t)
  {
    InstalledInv(tables, c.maxTombstones);
    NodeKept(c, s, t);
    DistinctGrows(s.epochs, epoch);
    forall p | p in t.sent ensures PushOk(t.epochs, p) {
      assert PushOk(s.epochs, p);
    }
  }

  /** An older epoch keeps its number when a new one comes. */
  lemma ResetSeen(c: Config, s: World, t: World, epoch: string)
    requires NodeOk(c, s) && Distinct(s.epochs + [epoch]) && t.epochs == s.epochs + [epoch]
    requires t.node == s.node && t.reply == s.reply
    ensures SeenNumbered(t.epochs, SeenAt(c, t.node)) == SeenNumbered(s.epochs, SeenAt(c, s.node))
    ensures PullOf(c, t) == PullOf(c, s)
  {
    if SeenAt(c, s.node).Some? {
      NumberKept(s.epochs, epoch, SeenAt(c, s.node).value.epoch);
    }
    if s.reply.Some? {
      NumberKept(s.epochs, epoch, s.reply.value.epoch);
    }
  }

  lemma ResetStep(c: Config, s: World, t: World, epoch: string, tables: Tables)
    requires Inv(c, s) && Reset(s, t, epoch, tables)
    ensures Inv(c, t) && Net.Next(Abs(c, s), Abs(c, t))
  {
    ResetKeeps(c, s, t, epoch, tables);
    PushesKept(s.epochs, epoch, s.sent);
    ResetSeen(c, s, t, epoch);
    var a, b := Abs(c, s), Abs(c, t);
    assert b.histories == a.histories + [[Visible(tables)]];
    assert Net.Reset(a, b, Visible(tables));
  }

  lemma QueueStep(c: Config, s: World, t: World, task: Node.Task)
    requires Inv(c, s) && Queue(c, s, t, task)
    ensures Inv(c, t) && Net.Next(Abs(c, s), Abs(c, t))
  {
    forall other | other in Node.QueueOf(t.node.queues, c.storeId) ensures TaskOk(t, other) {
      assert other == task || TaskOk(s, other);
    }
    Stutters(Abs(c, s), Abs(c, t));
  }

  // ---- the node's turns ----

  /** Numbering the epochs changes none of the node's decisions. */
  lemma DecisionsNumbered(epochs: seq<string>, seen: Option<Net.Seen<string>>, p: RemotePush<string>,
                          a: RemoteChanges<string>)
    requires Distinct(epochs) && (seen.Some? ==> seen.value.epoch in epochs)
    ensures p.epoch in epochs ==> Net.Receive(SeenNumbered(epochs, seen), PushOf(epochs, p)) == Net.Receive(seen, p)
    ensures a.epoch in epochs ==> Net.Pulled(SeenNumbered(epochs, seen), AnswerOf(epochs, a)) == Net.Pulled(seen, a)
  {
    if seen.Some? {
      if p.epoch in epochs {
        NumberInjective(epochs, p.epoch, seen.value.epoch);
      }
      if a.epoch in epochs {
        NumberInjective(epochs, a.epoch, seen.value.epoch);
      }
    }
  }

  lemma NewsHeard(n: Node.NodeView, m: Node.NodeView, news: seq<RowChange>)
    requires ROUTER in n.heard && m.heard == Node.Told(n.heard, news)
    ensures News(n, m) == news && ROUTER in m.heard
  {
  }

  lemma {:induction false} ReplayPlain(rows: Rows, changes: seq<RemoteChange>)
    requires PlainKeys(rows.Keys) && PlainChanges(changes)
    ensures PlainKeys(Replay(rows, changes).Keys)
  {
    if changes != [] {
      var init, last := changes[..|changes| - 1], changes[|changes| - 1];
      assert last in changes && PlainChanges(init);
      ReplayPlain(rows, init);
    }
  }

  lemma TellKeeps(c: Config, sub: Subscription, changes: seq<RemoteChange>)
    requires SubOk(c, sub) && ':' !in c.storeId && PlainChanges(changes)
    ensures SubOk(c, Tell(c.fold, sub, Mapped(changes, Changing(c.storeId)), changes))
  {
    match sub.told
    case Waiting(_, buffer) =>
      MappedConcat(buffer, changes, Changing(c.storeId));
    case Live(_, _, _, rows, _) =>
      ReplayPlain(rows, changes);
      if sub.whole {
        RoutedKeeps(c.fold, sub.query.filter, c.storeId, rows, sub.view.value, changes);
      }
  }

  lemma TellAllKeeps(c: Config, subs: map<nat, Subscription>, changes: seq<RemoteChange>)
    requires (forall i :: i in subs ==> SubOk(c, subs[i])) && ':' !in c.storeId && PlainChanges(changes)
    ensures var told := TellAll(c.fold, subs, Mapped(changes, Changing(c.storeId)), changes);
            && (forall i :: i in told ==> SubOk(c, told[i]))
            && ToldOf(told) == Net.HeardAll(ToldOf(subs), changes)
  {
    var news := Mapped(changes, Changing(c.storeId));
    var told := TellAll(c.fold, subs, news, changes);
    forall i | i in subs ensures SubOk(c, told[i]) && told[i].told == Net.Heard(subs[i].told, changes) {
      TellKeeps(c, subs[i], changes);
    }
    assert ToldOf(told) == Net.HeardAll(ToldOf(subs), changes);
  }

  lemma TurnQueue(c: Config, s: World, t: World)
    requires NodeOk(c, s) && t.sent == s.sent && Node.QueueOf(s.node.queues, c.storeId) != []
    requires t.node.queues == s.node.queues[c.storeId := Node.QueueOf(s.node.queues, c.storeId)[1..]]
    ensures forall task :: task in Node.QueueOf(t.node.queues, c.storeId) ==> TaskOk(t, task)
  {
    forall task | task in Node.QueueOf(t.node.queues, c.storeId) ensures TaskOk(t, task) {
      assert task in Node.QueueOf(s.node.queues, c.storeId) && TaskOk(s, task);
    }
  }

  lemma IgnoreStep(c: Config, s: World, t: World, since: Option<nat>)
    requires Inv(c, s) && Turn(c, s, t, since)
    requires Node.Decide(SeenAt(c, s.node), Node.QueueOf(s.node.queues, c.storeId)[0]).Ignore?
    ensures Inv(c, t) && Net.Next(Abs(c, s), Abs(c, t))
  {
    TurnQueue(c, s, t);
    Stutters(Abs(c, s), Abs(c, t));
  }

  lemma AskStep(c: Config, s: World, t: World, since: Option<nat>, task: Node.Task)
    requires Inv(c, s) && Turn(c, s, t, since) && task == Node.QueueOf(s.node.queues, c.storeId)[0]
    requires Node.Decide(SeenAt(c, s.node), task).Pull?
    ensures Inv(c, t) && Net.Next(Abs(c, s), Abs(c, t))
  {
    TurnQueue(c, s, t);
    assert TaskOk(s, task);
    var a, b := Abs(c, s), Abs(c, t);
    assert a.pull == Net.Idle && b == a.(pull := Net.Asked);
    assert Net.CatchUp(a, b);
  }

  lemma ApplyKeeps(c: Config, s: World, t: World, since: Option<nat>, task: Node.Task, changes: seq<RemoteChange>)
    requires Inv(c, s) && Turn(c, s, t, since) && Named(c, s) && task == Node.QueueOf(s.node.queues, c.storeId)[0]
    requires Node.Decide(SeenAt(c, s.node), task) == Net.Apply(changes)
    ensures Inv(c, t) && ToldOf(t.subs) == Net.HeardAll(ToldOf(s.subs), changes)
  {
    TurnQueue(c, s, t);
    assert TaskOk(s, task) && PushOk(s.epochs, task.push);
    NewsHeard(s.node, t.node, Mapped(changes, Changing(c.storeId)));
    TellAllKeeps(c, s.subs, changes);
  }

  lemma ApplyStep(c: Config, s: World, t: World, since: Option<nat>, task: Node.Task, changes: seq<RemoteChange>)
    requires Inv(c, s) && Turn(c, s, t, since) && Named(c, s) && task == Node.QueueOf(s.node.queues, c.storeId)[0]
    requires Node.Decide(SeenAt(c, s.node), task) == Net.Apply(changes)
    ensures Inv(c, t) && Net.Next(Abs(c, s), Abs(c, t))
  {
    ApplyKeeps(c, s, t, since, task, changes);
    assert TaskOk(s, task) && PushOk(s.epochs, task.push);
    DecisionsNumbered(s.epochs, SeenAt(c, s.node), task.push, RemoteChanges("", 0, [], false));
    var a, b, p := Abs(c, s), Abs(c, t), PushOf(s.epochs, task.push);
    assert p in a.pushes && a.pull == Net.Idle;
    assert Net.Deliver(a, b, p);
  }

  lemma TurnStep(c: Config, s: World, t: World, since: Option<nat>)
    requires Inv(c, s) && Turn(c, s, t, since) && Named(c, s)
    ensures Inv(c, t) && Net.Next(Abs(c, s), Abs(c, t))
  {
    var task := Node.QueueOf(s.node.queues, c.storeId)[0];
    match Node.Decide(SeenAt(c, s.node), task)
    case Ignore => IgnoreStep(c, s, t, since);
    case Pull => AskStep(c, s, t, since, task);
    case Apply(changes) => ApplyStep(c, s, t, since, task, changes);
  }

  // ---- answers ----

  /** An answer of the source, its epoch numbered, is one the state machine may give; to a first pull it is a wipe. */
  lemma ResponseIsSound(c: Config, s: World, a: RemoteChanges<string>)
    requires Inv(c, s) && Named(c, s) && s.epochs != []
    requires Source.Responds(a, Latest(s), s.db, Node.Since(SeenAt(c, s.node)), c.maxPull)
    ensures AnswerOf(s.epochs, a).epoch == |s.past| && PlainChanges(a.changes)
    ensures Net.AnswerSound(s.past + [s.history], Net.SinceOf(SeenNumbered(s.epochs, SeenAt(c, s.node))),
                            AnswerOf(s.epochs, a))
  {
    var since := Node.Since(SeenAt(c, s.node));
    NumberAt(s.epochs, |s.past|);
    if !a.wipeAll {
      DeltaSinceSound(s.db, s.history, c.maxTombstones, since);
      AnswersPlain(c, s, a.changes, since);
    }
  }

  lemma ReplyStep(c: Config, s: World, t: World, a: RemoteChanges<string>)
    requires Inv(c, s) && Reply(c, s, t, a) && Named(c, s)
    ensures Inv(c, t) && Net.Next(Abs(c, s), Abs(c, t))
  {
    ResponseIsSound(c, s, a);
    forall task | task in Node.QueueOf(t.node.queues, c.storeId) ensures TaskOk(t, task) {
      assert TaskOk(s, task);
    }
    assert Net.Answers(Abs(c, s), Abs(c, t), AnswerOf(s.epochs, a));
  }

  lemma StartKeeps(c: Config, subs: map<nat, Subscription>, clock: nat)
    requires forall i :: i in subs ==> SubOk(c, subs[i])
    ensures var started := map i | i in subs :: Started(subs[i], clock);
            && (forall i :: i in started ==> SubOk(c, started[i]))
            && ToldOf(started) == Net.StartAll(ToldOf(subs), clock)
  {
  }

  /** What the answer does to the subscribers. */
  ghost predicate Taken(c: Config, s: World, t: World) {
    && s.reply.Some?
    && match Net.Pulled(SeenAt(c, s.node), s.reply.value) {
         case Learn => ToldOf(t.subs) == Net.StartAll(ToldOf(s.subs), s.reply.value.clock)
         case Wipe => t.subs == map[]
         case Emit(changes) => ToldOf(t.subs) == Net.HeardAll(ToldOf(s.subs), changes)
       }
  }

  lemma TakeSubs(c: Config, s: World, t: World)
    requires Inv(c, s) && Take(c, s, t) && Named(c, s)
    ensures (forall i :: i in t.subs ==> SubOk(c, t.subs[i])) && Taken(c, s, t)
  {
    match Net.Pulled(SeenAt(c, s.node), s.reply.value)
    case Learn =>
      StartKeeps(c, s.subs, s.reply.value.clock);
    case Wipe =>
      assert t.node.wiped != s.node.wiped;
    case Emit(changes) =>
      NewsHeard(s.node, t.node, Mapped(changes, Changing(c.storeId)));
      TellAllKeeps(c, s.subs, changes);
  }

  lemma TakeKeeps(c: Config, s: World, t: World)
    requires Inv(c, s) && Take(c, s, t) && Named(c, s)
    ensures Inv(c, t)
  {
    TakeSubs(c, s, t);
    forall task | task in Node.QueueOf(t.node.queues, c.storeId) ensures TaskOk(t, task) {
      assert TaskOk(s, task);
    }
  }

  lemma TakeSeen(c: Config, s: World, t: World)
    requires NodeOk(c, s) && Distinct(s.epochs) && Taken(c, s, t)
    requires Node.AnswerTo(s.node, t.node, c.storeId, s.reply.value)
    requires t == s.(node := t.node, reply := None, subs := t.subs)
    ensures Net.Applies(Abs(c, s), Abs(c, t))
  {
    var a, b, answer := Abs(c, s), Abs(c, t), AnswerOf(s.epochs, s.reply.value);
    DecisionsNumbered(s.epochs, SeenAt(c, s.node), RemotePush("", 0, None), s.reply.value);
    assert a.pull == Net.Answered(answer) && ToldOf(map[]) == map[];
    assert b == a.(pull := Net.Idle, seen := Some(Net.Seen(answer.epoch, answer.clock)), subscribers := ToldOf(t.subs));
  }

  lemma TakeStep(c: Config, s: World, t: World)
    requires Inv(c, s) && Take(c, s, t) && Named(c, s)
    ensures Inv(c, t) && Net.Next(Abs(c, s), Abs(c, t))
  {
    TakeKeeps(c, s, t);
    TakeSubs(c, s, t);
    TakeSeen(c, s, t);
  }

  // ---- subscribers ----

  lemma ToldUpdated(subs: map<nat, Subscription>, i: nat, sub: Subscription)
    ensures ToldOf(subs[i := sub]) == ToldOf(subs)[i := sub.told]
  {
  }

  lemma SubsUpdated(c: Config, s: World, t: World, i: nat, sub: Subscription)
    requires Inv(c, s) && t == s.(subs := s.subs[i := sub]) && SubOk(c, sub)
    ensures Inv(c, t) && Abs(c, t) == Abs(c, s).(subscribers := ToldOf(s.subs)[i := sub.told])
  {
    NodeKept(c, s, t);
    ToldUpdated(s.subs, i, sub);
  }

  lemma RegisterStep(c: Config, s: World, t: World, i: nat, q: Query)
    requires Inv(c, s) && Register(c, s, t, i, q)
    ensures Inv(c, t) && Net.Next(Abs(c, s), Abs(c, t))
  {
    SubsUpdated(c, s, t, i, t.subs[i]);
    assert Net.Register(Abs(c, s), Abs(c, t), i);
  }

  lemma LeaveStep(c: Config, s: World, t: World, i: nat)
    requires Inv(c, s) && Leave(s, t, i)
    ensures Inv(c, t) && Net.Next(Abs(c, s), Abs(c, t))
  {
    NodeKept(c, s, t);
    assert Net.Leave(Abs(c, s), Abs(c, t), i);
  }

  /** A snapshot's rows, with what was routed meanwhile, are the view of what the subscriber was told. */
  lemma SeededOk(c: Config, s: World, t: World, i: nat, sources: Sources, order: seq<string>, answer: seq<Json>)
    requires Inv(c, s) && Snapshot(c, s, t, i, sources, order, answer) && Named(c, s)
    requires s.subs[i].told.Waiting? && s.subs[i].told.from.Some?
    ensures SubOk(c, t.subs[i])
  {
    var sub, rows := s.subs[i], Visible(s.db.tables);
    assert SubOk(c, sub);
    VisiblePlain(c, s);
    ReplayPlain(rows, sub.told.buffer);
    if Whole(sources, sub.query, c.snapshotLimit) {
      SnapshotSeeds(c.fold, sources, order, sub.query, c.snapshotLimit, rows, answer);
      RoutedKeeps(c.fold, sub.query.filter, c.storeId, rows, SeedView(answer), sub.told.buffer);
    }
  }

  /** A subscriber waiting while the node has a clock started to wait at one. */
  lemma WaitedSince(c: Config, s: World, i: nat)
    requires Inv(c, s) && Net.Inv(Abs(c, s)) && i in s.subs && s.subs[i].view.None? && SeenAt(c, s.node).Some?
    ensures s.subs[i].told.Waiting? && s.subs[i].told.from.Some?
  {
    var a := Abs(c, s);
    assert SubOk(c, s.subs[i]);
    assert Net.Follows(a.histories, a.seen, a.subscribers[i]);
  }

  lemma SnapshotAt(a: Net.System, b: Net.System, i: nat, clock: nat, rows: Rows)
    requires |a.histories| > 0 && |Net.Current(a)| == clock + 1 && Net.Current(a)[clock] == rows
    requires i in a.subscribers && a.subscribers[i].Waiting? && a.subscribers[i].from.Some?
    requires b == a.(subscribers := a.subscribers[i := Net.Seed(a.subscribers[i], Net.Epoch(a), clock, rows)])
    ensures Net.Snapshot(a, b, i)
  {
  }

  lemma SnapshotStep(c: Config, s: World, t: World, i: nat, sources: Sources, order: seq<string>, answer: seq<Json>)
    requires Inv(c, s) && Net.Inv(Abs(c, s)) && Snapshot(c, s, t, i, sources, order, answer) && Named(c, s)
    ensures Inv(c, t) && Net.Next(Abs(c, s), Abs(c, t))
  {
    WaitedSince(c, s, i);
    SeededOk(c, s, t, i, sources, order, answer);
    SubsUpdated(c, s, t, i, t.subs[i]);
    SnapshotAt(Abs(c, s), Abs(c, t), i, s.db.clock, Visible(s.db.tables));
  }

  // ---- whole runs ----

  lemma InitKeeps(c: Config, s: World)
    requires Init(c, s)
    ensures Inv(c, s) && |s.history| == 1
  {
    var tables :| FirstInstalled(s, tables);
    InstalledInv(tables, c.maxTombstones);
  }

  lemma InitSeen(c: Config, s: World)
    requires s.past == [] && |s.history| == 1 && s.sent == {} && s.subs == map[]
    requires c.storeId !in s.node.stored && c.storeId !in s.node.pulling
    ensures Net.Init(Abs(c, s))
  {
    assert PushesOf(s.epochs, {}) == {} && ToldOf(map[]) == map[];
  }

  /** Every step of the whole system is one of the replication state machine. */
  lemma StepRefines(c: Config, s: World, t: World)
    requires Inv(c, s) && Net.Inv(Abs(c, s)) && Next(c, s, t) && Named(c, s) && Named(c, t)
    ensures Inv(c, t) && Net.Next(Abs(c, s), Abs(c, t))
  {
    if steps, p :| Batch(c, s, t, steps, p) && HidesNothing(s.db, steps) {
      BatchStep(c, s, t, steps, p);
    } else if epoch, tables :| Reset(s, t, epoch, tables) {
      ResetStep(c, s, t, epoch, tables);
    } else if task :| Queue(c, s, t, task) {
      QueueStep(c, s, t, task);
    } else if since :| Turn(c, s, t, since) {
      TurnStep(c, s, t, since);
    } else if a :| Reply(c, s, t, a) {
      ReplyStep(c, s, t, a);
    } else if Take(c, s, t) {
      TakeStep(c, s, t);
    } else if i, q :| Register(c, s, t, i, q) {
      RegisterStep(c, s, t, i, q);
    } else if i, sources, order, answer :| Snapshot(c, s, t, i, sources, order, answer) {
      SnapshotStep(c, s, t, i, sources, order, answer);
    } else {
      var i :| Leave(s, t, i);
      LeaveStep(c, s, t, i);
    }
  }

  ghost predicate NextAt(c: Config, states: seq<World>, i: nat)
    requires i + 1 < |states|
  {
    Next(c, states[i], states[i + 1])
  }

  ghost predicate NamedAt(c: Config, states: seq<World>, i: nat)
    requires i < |states|
  {
    Named(c, states[i])
  }

  ghost predicate Steps(c: Config, states: seq<World>) {
    forall i :: 0 <= i < |states| - 1 ==> NextAt(c, states, i)
  }

  ghost predicate AllNamed(c: Config, states: seq<World>) {
    forall i :: 0 <= i < |states| ==> NamedAt(c, states, i)
  }

  ghost predicate Run(c: Config, states: seq<World>) {
    states != [] && Init(c, states[0]) && Steps(c, states) && AllNamed(c, states)
  }

  /** The run as the state machine sees it, up to state `n`. */
  ghost function AbsTo(c: Config, states: seq<World>, n: nat): seq<Net.System>
    requires n < |states|
  {
    seq(n + 1, i requires 0 <= i <= n => Abs(c, states[i]))
  }

  lemma RunGrows(c: Config, states: seq<World>, k: nat, n: nat)
    requires k + 1 == n < |states| && Net.Run(AbsTo(c, states, k)) && Net.Next(Abs(c, states[k]), Abs(c, states[n]))
    ensures Net.Run(AbsTo(c, states, n))
  {
    var all, init := AbsTo(c, states, n), AbsTo(c, states, k);
    forall i | 0 <= i < |all| - 1 ensures Net.NextAt(all, i) {
      if i + 1 < |init| {
        assert Net.NextAt(init, i);
      }
    }
  }

  lemma RunStarts(c: Config, states: seq<World>)
    requires states != [] && Init(c, states[0])
    ensures Net.Run(AbsTo(c, states, 0)) && Inv(c, states[0])
  {
    InitKeeps(c, states[0]);
    InitSeen(c, states[0]);
  }

  lemma StepOf(c: Config, states: seq<World>, k: nat, n: nat)
    requires Steps(c, states) && k + 1 == n < |states|
    ensures Next(c, states[k], states[n])
  {
    assert NextAt(c, states, k);
  }

  lemma NamedOf(c: Config, states: seq<World>, k: nat)
    requires AllNamed(c, states) && k < |states|
    ensures Named(c, states[k])
  {
    assert NamedAt(c, states, k);
  }

  lemma RunStep(c: Config, states: seq<World>, k: nat, n: nat)
    requires k + 1 == n < |states| && Net.Run(AbsTo(c, states, k)) && Inv(c, states[k])
    requires Next(c, states[k], states[n]) && Named(c, states[k]) && Named(c, states[n])
    ensures Net.Run(AbsTo(c, states, n)) && Inv(c, states[n])
  {
    Net.RunInv(AbsTo(c, states, k), k);
    StepRefines(c, states[k], states[n]);
    RunGrows(c, states, k, n);
  }

  /** So every run of the whole system is a run of the replication state machine. */
  lemma {:induction false} RunRefines(c: Config, states: seq<World>, n: nat)
    requires Run(c, states) && n < |states|
    ensures Net.Run(AbsTo(c, states, n)) && Inv(c, states[n])
  {
    if n == 0 {
      RunStarts(c, states);
    } else {
      var k := n - 1;
      RunRefines(c, states, k);
      StepOf(c, states, k, n);
      NamedOf(c, states, k);
      NamedOf(c, states, n);
      RunStep(c, states, k, n);
    }
  }

  /**
   * In any run of the whole, a subscriber whose snapshot read all it needed holds exactly the rows its filter admits of
   * what the source held at the node's clock, of one epoch with its snapshot and once that clock has reached it.
   */
  lemma SubscriberSeesSource(c: Config, states: seq<World>, n: nat, i: nat)
    requires Run(c, states) && n < |states| && i in states[n].subs && states[n].subs[i].view.Some?
    requires states[n].subs[i].whole
    requires var s, told := states[n], states[n].subs[i].told;
             && told.Live? && SeenAt(c, s.node).Some?
             && told.epoch == Number(s.epochs, SeenAt(c, s.node).value.epoch) &&
               told.joined <= SeenAt(c, s.node).value.clock
    ensures var s, sub := states[n], states[n].subs[i];
            && Net.SeenExists(Abs(c, s))
            && ViewOf(Admitting(c.fold, sub.query.filter), AtPlaces(c.storeId, Net.AtNode(Abs(c, s))), sub.view.value)
  {
    RunRefines(c, states, n);
    var s := states[n];
    var systems := AbsTo(c, states, n);
    assert systems[n] == Abs(c, s);
    Net.ReplicaSafety(systems, n, i);
    assert SubOk(c, s.subs[i]);
  }

  /** When the node has caught up with the source, that is what its filter admits of the source's tables now. */
  lemma CaughtUpSeesTables(c: Config, states: seq<World>, n: nat, i: nat)
    requires Run(c, states) && n < |states| && i in states[n].subs && states[n].subs[i].view.Some?
    requires states[n].subs[i].whole
    requires var s, told := states[n], states[n].subs[i].told;
             && told.Live? && s.epochs != [] && SeenAt(c, s.node) == Some(Net.Seen(Latest(s), s.db.clock))
             && told.epoch == |s.epochs| - 1 && told.joined <= s.db.clock
    ensures var s, sub := states[n], states[n].subs[i];
            ViewOf(Admitting(c.fold, sub.query.filter), AtPlaces(c.storeId, Visible(s.db.tables)), sub.view.value)
  {
    RunRefines(c, states, n);
    NumberAt(states[n].epochs, |states[n].epochs| - 1);
    SubscriberSeesSource(c, states, n, i);
  }
}
