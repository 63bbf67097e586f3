/**
 * A source and the node that follows it, under lost, duplicated, delayed and reordered pushes, pulls that interleave
 * with new batches, and source resets. A step of the system is one atomic act of the source, the network, the node or
 * a subscriber; the state keeps, as a record, the rows every epoch held at every clock.
 */
module Replication {
  import opened Options
  import opened RemoteData

  /** The last clock the node applied, and the epoch it belongs to. */
  datatype Seen<E> = Seen(epoch: E, clock: nat)

  // ---- the node's decisions ----

  datatype Decision = Ignore | Apply(changes: seq<RemoteChange>) | Pull

  /** What the node does with a push, by what it has seen. */
  function Receive<E(==)>(seen: Option<Seen<E>>, push: RemotePush<E>): Decision {
    if seen.None? then Ignore
    else
      var sameEpoch := push.epoch == seen.value.epoch;
      if sameEpoch && push.clock <= seen.value.clock then Ignore
      else if !sameEpoch || push.clock != seen.value.clock + 1 || push.changes.None? then Pull
      else Apply(push.changes.value)
  }

  datatype Outcome = Learn | Emit(changes: seq<RemoteChange>) | Wipe

  /** What the node does with the answer to a pull it made having seen `seen`. */
  function Pulled<E(==)>(seen: Option<Seen<E>>, answer: RemoteChanges<E>): Outcome {
    if seen.None? then Learn
    else if answer.wipeAll || answer.epoch != seen.value.epoch then Wipe
    else Emit(answer.changes)
  }

  // ---- the system ----

  /** Epochs are numbered in the order the source takes them. */
  type Push = RemotePush<nat>
  type Answer = RemoteChanges<nat>

  /** A pull in progress: asked, having seen `from`; or answered and not yet applied. */
  datatype Step = Idle | Asked | Answered(answer: Answer)

  /**
   * A subscriber since the node's clock `since` (or since before its first). It buffers what the node emits until its
   * snapshot, read at the source's clock `joined`, seeds its rows; from then on it applies what the node emits.
   */
  datatype Subscriber =
    | Waiting(from: Option<nat>, buffer: seq<RemoteChange>)
    | Live(since: nat, epoch: nat, joined: nat, rows: Rows, emitted: seq<RemoteChange>)

  datatype System = System(
    histories: seq<seq<Rows>>,
    pushes: set<Push>,
    seen: Option<Seen<nat>>,
    pull: Step,
    subscribers: map<nat, Subscriber>)

  function Epoch(s: System): nat
    requires |s.histories| > 0
  {
    |s.histories| - 1
  }

  function Current(s: System): seq<Rows>
    requires |s.histories| > 0
  {
    s.histories[|s.histories| - 1]
  }

  /** What a source promises of a push: it names a clock that was, and carries all of that clock's batch or nothing. */
  ghost predicate PushSound(histories: seq<seq<Rows>>, p: Push) {
    && p.epoch < |histories|
    && 0 < p.clock < |histories[p.epoch]|
    && (p.changes.Some? ==> Sound(histories[p.epoch], p.clock - 1, p.clock, DeltaOf(p.changes.value)))
  }

  /** What a source promises of an answer: the whole story since `since`, up to a clock that was, or a wipe. */
  ghost predicate AnswerSound(histories: seq<seq<Rows>>, since: Option<nat>, a: Answer) {
    && a.epoch < |histories|
    && a.clock < |histories[a.epoch]|
    && (since.None? ==> a.wipeAll)
    && (!a.wipeAll ==> since.Some? && Sound(histories[a.epoch], since.value, a.clock, DeltaOf(a.changes)))
  }

  function SinceOf(seen: Option<Seen<nat>>): Option<nat> {
    if seen.None? then None else Some(seen.value.clock)
  }

  /** What one subscriber makes of the changes the node emits. */
  function Heard(sub: Subscriber, changes: seq<RemoteChange>): Subscriber {
    match sub
    case Waiting(from, buffer) => Waiting(from, buffer + changes)
    case Live(since, epoch, joined, rows, emitted) =>
      Live(since, epoch, joined, Replay(rows, changes), emitted + changes)
  }

  function HeardAll(subs: map<nat, Subscriber>, changes: seq<RemoteChange>): map<nat, Subscriber> {
    map i | i in subs :: Heard(subs[i], changes)
  }

  /** The node's first clock is where those already waiting start from. */
  function StartAll(subs: map<nat, Subscriber>, clock: nat): map<nat, Subscriber> {
    map i | i in subs :: if subs[i].Waiting? then subs[i].(from := Some(clock)) else subs[i]
  }

  function Seed(sub: Subscriber, epoch: nat, clock: nat, rows: Rows): Subscriber
    requires sub.Waiting? && sub.from.Some?
  {
    Live(sub.from.value, epoch, clock, Replay(rows, sub.buffer), sub.buffer)
  }

  ghost predicate Init(s: System) {
    |s.histories| == 1 && |s.histories[0]| == 1 && s.pushes == {} && s.seen == None && s.pull == Idle &&
      s.subscribers == map[]
  }

  /** The source commits a batch that moved its clock, and announces it. */
  ghost predicate Commit(s: System, t: System, rows: Rows, p: Push) {
    && |s.histories| > 0
    && t == s.(histories := s.histories[Epoch(s) := Current(s) + [rows]], pushes := s.pushes + {p})
    && p.epoch == Epoch(t) && p.clock == |Current(s)| && PushSound(t.histories, p)
  }

  /** The source is reset: a new epoch, at clock 0. */
  ghost predicate Reset(s: System, t: System, rows: Rows) {
    t == s.(histories := s.histories + [[rows]])
  }

  /** Any push ever sent reaches the node now, perhaps again, perhaps late; one that never does is lost. */
  ghost predicate Deliver(s: System, t: System, p: Push) {
    && p in s.pushes && s.pull == Idle
    && match Receive(s.seen, p) {
         case Ignore => t == s
         case Apply(changes) =>
           t == s.(seen := Some(Seen(p.epoch, p.clock)), subscribers := HeardAll(s.subscribers, changes))
         case Pull => t == s.(pull := Asked)
       }
  }

  /** The node asks for what it missed: on a subscribe, on wake, or whenever it likes. */
  ghost predicate CatchUp(s: System, t: System) {
    s.pull == Idle && t == s.(pull := Asked)
  }

  /** The source answers from where it stands now; batches may have been committed since it was asked. */
  ghost predicate Answers(s: System, t: System, a: Answer) {
    && s.pull == Asked && |s.histories| > 0
    && a.epoch == Epoch(s) && a.clock == |Current(s)| - 1 && AnswerSound(s.histories, SinceOf(s.seen), a)
    && t == s.(pull := Answered(a))
  }

  /** The node applies an answer; a wipe closes every subscriber. */
  ghost predicate Applies(s: System, t: System) {
    && s.pull.Answered?
    && var a := s.pull.answer;
    && var next := s.(pull := Idle, seen := Some(Seen(a.epoch, a.clock)));
    match Pulled(s.seen, a) {
      case Learn => t == next.(subscribers := StartAll(s.subscribers, a.clock))
      case Wipe => t == next.(subscribers := map[])
      case Emit(changes) => t == next.(subscribers := HeardAll(s.subscribers, changes))
    }
  }

  /** A subscriber registers; its snapshot comes later. */
  ghost predicate Register(s: System, t: System, i: nat) {
    && i !in s.subscribers
    && t == s.(subscribers := s.subscribers[i := Waiting(SinceOf(s.seen), [])])
  }

  /** A waiting subscriber's snapshot is read at the source, after the catch-up every subscribe makes. */
  ghost predicate Snapshot(s: System, t: System, i: nat) {
    && |s.histories| > 0 && |Current(s)| > 0
    && i in s.subscribers && s.subscribers[i].Waiting? && s.subscribers[i].from.Some?
    && var clock := |Current(s)| - 1;
    && t == s.(subscribers := s.subscribers[i := Seed(s.subscribers[i], Epoch(s), clock, Current(s)[clock])])
  }

  ghost predicate Leave(s: System, t: System, i: nat) {
    t == s.(subscribers := s.subscribers - {i})
  }

  ghost predicate Next(s: System, t: System) {
    || (exists rows, p :: Commit(s, t, rows, p))
    || (exists rows :: Reset(s, t, rows))
    || (exists p :: Deliver(s, t, p))
    || CatchUp(s, t)
    || (exists a :: Answers(s, t, a))
    || Applies(s, t)
    || (exists i :: Register(s, t, i))
    || (exists i :: Snapshot(s, t, i))
    || (exists i :: Leave(s, t, i))
  }

  ghost predicate NextAt(states: seq<System>, i: nat)
    requires i + 1 < |states|
  {
    Next(states[i], states[i + 1])
  }

  ghost predicate Run(states: seq<System>) {
    && |states| > 0 && Init(states[0])
    && forall i :: 0 <= i < |states| - 1 ==> NextAt(states, i)
  }

  // ---- the invariant ----

  /**
   * What the node emitted since a subscriber registered is a sound delta, in the epoch the node follows, from the
   * clock it registered at to the clock the node is at; its rows are its snapshot with that applied.
   */
  ghost predicate Follows(histories: seq<seq<Rows>>, seen: Option<Seen<nat>>, sub: Subscriber) {
    match sub
    case Waiting(from, buffer) =>
      if seen.None? then from.None? && buffer == []
      else
        && from.Some? && seen.value.epoch < |histories|
        && Sound(histories[seen.value.epoch], from.value, seen.value.clock, DeltaOf(buffer))
    case Live(since, epoch, joined, rows, emitted) =>
      && seen.Some? && seen.value.epoch < |histories|
      && Sound(histories[seen.value.epoch], since, seen.value.clock, DeltaOf(emitted))
      && epoch < |histories| && joined < |histories[epoch]|
      && rows == Replay(histories[epoch][joined], emitted)
      && (epoch == seen.value.epoch ==> since <= joined)
  }

  ghost predicate SeenExists(s: System) {
    s.seen.Some? ==> s.seen.value.epoch < |s.histories| && s.seen.value.clock < |s.histories[s.seen.value.epoch]|
  }

  /** An answer not yet applied is sound for what the node has seen, and never older than it. */
  ghost predicate AnswerFits(s: System) {
    s.pull.Answered? ==>
      && AnswerSound(s.histories, SinceOf(s.seen), s.pull.answer)
      && (s.seen.Some? ==> NotBefore(s.seen.value, Seen(s.pull.answer.epoch, s.pull.answer.clock)))
  }

  predicate NotBefore(a: Seen<nat>, b: Seen<nat>) {
    a.epoch < b.epoch || (a.epoch == b.epoch && a.clock <= b.clock)
  }

  ghost predicate Inv(s: System) {
    && |s.histories| > 0
    && (forall e :: 0 <= e < |s.histories| ==> |s.histories[e]| > 0)
    && (forall p :: p in s.pushes ==> PushSound(s.histories, p))
    && SeenExists(s)
    && AnswerFits(s)
    && (forall i :: i in s.subscribers ==> Follows(s.histories, s.seen, s.subscribers[i]))
  }

  // ---- histories only grow ----

  ghost predicate Grown(a: seq<seq<Rows>>, b: seq<seq<Rows>>) {
    |a| <= |b| && forall e :: 0 <= e < |a| ==> a[e] <= b[e]
  }

  lemma SoundGrown(h: seq<Rows>, g: seq<Rows>, from: nat, to: nat, d: Delta)
    requires Sound(h, from, to, d) && h <= g
    ensures Sound(g, from, to, d)
  {
    SoundExtend(h, g[|h|..], from, to, d);
    assert h + g[|h|..] == g;
  }

  lemma PushGrown(a: seq<seq<Rows>>, b: seq<seq<Rows>>, p: Push)
    requires Grown(a, b) && PushSound(a, p)
    ensures PushSound(b, p)
  {
    if p.changes.Some? {
      SoundGrown(a[p.epoch], b[p.epoch], p.clock - 1, p.clock, DeltaOf(p.changes.value));
    }
  }

  lemma AnswerGrown(a: seq<seq<Rows>>, b: seq<seq<Rows>>, since: Option<nat>, ans: Answer)
    requires Grown(a, b) && AnswerSound(a, since, ans)
    ensures AnswerSound(b, since, ans)
  {
    if !ans.wipeAll {
      SoundGrown(a[ans.epoch], b[ans.epoch], since.value, ans.clock, DeltaOf(ans.changes));
    }
  }

  lemma FollowsGrown(a: seq<seq<Rows>>, b: seq<seq<Rows>>, seen: Option<Seen<nat>>, sub: Subscriber)
    requires Grown(a, b) && Follows(a, seen, sub)
    ensures Follows(b, seen, sub)
  {
    if seen.Some? {
      var e := seen.value.epoch;
      match sub
      case Waiting(from, buffer) => SoundGrown(a[e], b[e], from.value, seen.value.clock, DeltaOf(buffer));
      case Live(since, epoch, joined, rows, emitted) =>
        SoundGrown(a[e], b[e], since, seen.value.clock, DeltaOf(emitted));
        assert a[epoch] <= b[epoch];
    }
  }

  /** A step of the source leaves all that was promised in place. */
  lemma GrownInv(s: System, t: System)
    requires Inv(s) && Grown(s.histories, t.histories)
    requires t.seen == s.seen && t.pull == s.pull && t.subscribers == s.subscribers
    requires forall e :: 0 <= e < |t.histories| ==> |t.histories[e]| > 0
    requires forall p :: p in t.pushes ==> p in s.pushes || PushSound(t.histories, p)
    ensures Inv(t)
  {
    forall p | p in t.pushes ensures PushSound(t.histories, p) {
      if p in s.pushes {
        PushGrown(s.histories, t.histories, p);
      }
    }
    forall i | i in t.subscribers ensures Follows(t.histories, t.seen, t.subscribers[i]) {
      FollowsGrown(s.histories, t.histories, s.seen, s.subscribers[i]);
    }
    if s.pull.Answered? {
      AnswerGrown(s.histories, t.histories, SinceOf(s.seen), s.pull.answer);
    }
  }

  // ---- the node's steps ----

  /** What the node emits, when it is the sound delta up to its new clock, keeps every subscriber following. */
  lemma HeardFollows(histories: seq<seq<Rows>>, seen: Seen<nat>, to: nat, sub: Subscriber, changes: seq<RemoteChange>)
    requires Follows(histories, Some(seen), sub) && seen.epoch < |histories|
    requires Sound(histories[seen.epoch], seen.clock, to, DeltaOf(changes))
    ensures Follows(histories, Some(Seen(seen.epoch, to)), Heard(sub, changes))
  {
    match sub
    case Waiting(from, buffer) =>
      SoundCompose(histories[seen.epoch], from.value, seen.clock, to, DeltaOf(buffer), DeltaOf(changes));
      DeltaOfConcat(buffer, changes);
    case Live(since, epoch, joined, rows, emitted) =>
      SoundCompose(histories[seen.epoch], since, seen.clock, to, DeltaOf(emitted), DeltaOf(changes));
      DeltaOfConcat(emitted, changes);
      ReplayConcat(histories[epoch][joined], emitted, changes);
  }

  lemma EmitInv(s: System, t: System, to: nat, changes: seq<RemoteChange>)
    requires Inv(s) && s.seen.Some?
    requires Sound(s.histories[s.seen.value.epoch], s.seen.value.clock, to, DeltaOf(changes))
    requires t == s.(pull := Idle, seen := Some(Seen(s.seen.value.epoch, to)),
                     subscribers := HeardAll(s.subscribers, changes))
    ensures Inv(t)
  {
    forall i | i in t.subscribers ensures Follows(t.histories, t.seen, t.subscribers[i]) {
      HeardFollows(s.histories, s.seen.value, to, s.subscribers[i], changes);
    }
  }

  lemma DeliverInv(s: System, t: System, p: Push)
    requires Inv(s) && Deliver(s, t, p)
    ensures Inv(t)
  {
    match Receive(s.seen, p)
    case Ignore =>
    case Pull =>
    case Apply(changes) =>
      assert PushSound(s.histories, p);
      assert p.clock - 1 == s.seen.value.clock;
      EmitInv(s, t, p.clock, changes);
  }

  lemma LearnFollows(histories: seq<seq<Rows>>, first: Seen<nat>, sub: Subscriber)
    requires first.epoch < |histories| && first.clock < |histories[first.epoch]|
    requires Follows(histories, None, sub)
    ensures sub.Waiting? && Follows(histories, Some(first), sub.(from := Some(first.clock)))
  {
    SoundEmpty(histories[first.epoch], first.clock);
  }

  lemma AppliesInv(s: System, t: System)
    requires Inv(s) && Applies(s, t)
    ensures Inv(t)
  {
    var a := s.pull.answer;
    match Pulled(s.seen, a)
    case Wipe =>
    case Learn =>
      forall i | i in t.subscribers ensures Follows(t.histories, t.seen, t.subscribers[i]) {
        LearnFollows(s.histories, Seen(a.epoch, a.clock), s.subscribers[i]);
      }
    case Emit(changes) => EmitInv(s, t, a.clock, changes);
  }

  lemma SnapshotInv(s: System, t: System, i: nat)
    requires Inv(s) && Snapshot(s, t, i)
    ensures Inv(t)
  {
    var sub := s.subscribers[i];
    assert Follows(s.histories, s.seen, sub);
    assert Follows(t.histories, t.seen, t.subscribers[i]);
  }

  lemma RegisterInv(s: System, t: System, i: nat)
    requires Inv(s) && Register(s, t, i)
    ensures Inv(t)
  {
    if s.seen.Some? {
      SoundEmpty(s.histories[s.seen.value.epoch], s.seen.value.clock);
    }
  }

  /** Every step keeps the invariant. */
  lemma StepInv(s: System, t: System)
    requires Inv(s) && Next(s, t)
    ensures Inv(t)
  {
    if rows, p :| Commit(s, t, rows, p) {
      GrownInv(s, t);
    } else if rows :| Reset(s, t, rows) {
      GrownInv(s, t);
    } else if p :| Deliver(s, t, p) {
      DeliverInv(s, t, p);
    } else if a :| Answers(s, t, a) {
    } else if Applies(s, t) {
      AppliesInv(s, t);
    } else if i :| Register(s, t, i) {
      RegisterInv(s, t, i);
    } else if i :| Snapshot(s, t, i) {
      SnapshotInv(s, t, i);
    }
  }

  // ---- over whole runs ----

  lemma {:induction false} RunInv(states: seq<System>, i: nat)
    requires Run(states) && i < |states|
    ensures Inv(states[i])
  {
    if i > 0 {
      RunInv(states, i - 1);
      assert NextAt(states, i - 1);
      StepInv(states[i - 1], states[i]);
    }
  }

  /** The rows the source held at the clock the node has reached. */
  function AtNode(s: System): Rows
    requires s.seen.Some? && s.seen.value.epoch < |s.histories|
    requires s.seen.value.clock < |s.histories[s.seen.value.epoch]|
  {
    s.histories[s.seen.value.epoch][s.seen.value.clock]
  }

  /**
   * Replica safety and late-join convergence. In every state of every run, a subscriber not wiped whose snapshot is
   * of the node's epoch holds exactly the source's rows at the node's clock, from the moment that clock reaches the
   * snapshot's; before that, each of its rows is the snapshot's or the one at the node's clock.
   */
  lemma ReplicaSafety(states: seq<System>, n: nat, i: nat)
    requires Run(states) && n < |states|
    requires i in states[n].subscribers && states[n].subscribers[i].Live?
    requires states[n].seen.Some? && states[n].subscribers[i].epoch == states[n].seen.value.epoch
    ensures SeenExists(states[n])
    ensures var s := states[n]; var sub := s.subscribers[i];
            && sub.joined < |s.histories[sub.epoch]|
            && (sub.joined <= s.seen.value.clock ==> sub.rows == AtNode(s))
            && forall k ::
              Look(sub.rows, k) == Look(s.histories[sub.epoch][sub.joined], k) ||
                Look(sub.rows, k) == Look(AtNode(s), k)
  {
    RunInv(states, n);
    var s := states[n];
    var sub := s.subscribers[i];
    assert Follows(s.histories, s.seen, sub);
    var h := s.histories[sub.epoch];
    ReplayIsPatch(h[sub.joined], sub.emitted);
    if sub.joined <= s.seen.value.clock {
      SoundPatch(h, sub.since, s.seen.value.clock, DeltaOf(sub.emitted), sub.joined);
    }
  }

  /** A subscriber whose snapshot is the source's rows at the clock it registered at never differs from them. */
  lemma FromTheStart(states: seq<System>, n: nat, i: nat)
    requires Run(states) && n < |states|
    requires i in states[n].subscribers && states[n].subscribers[i].Live?
    requires states[n].seen.Some? && states[n].subscribers[i].epoch == states[n].seen.value.epoch
    requires states[n].subscribers[i].joined == states[n].subscribers[i].since
    ensures SeenExists(states[n]) && states[n].subscribers[i].rows == AtNode(states[n])
  {
    RunInv(states, n);
    assert Follows(states[n].histories, states[n].seen, states[n].subscribers[i]);
    ReplicaSafety(states, n, i);
  }

  /**
   * The node never forgets a source, and one step never takes it back: not to an older epoch, nor to an older clock of
   * one.
   */
  lemma StepForward(s: System, t: System)
    requires Inv(s) && Next(s, t) && s.seen.Some?
    ensures t.seen.Some? && NotBefore(s.seen.value, t.seen.value)
    ensures t.seen.value.epoch != s.seen.value.epoch ==> t.subscribers == map[]
  {
    if p :| Deliver(s, t, p) {
    } else if Applies(s, t) {
    }
  }

  lemma RunStep(states: seq<System>, k: nat)
    requires Run(states) && k + 1 < |states|
    ensures Inv(states[k]) && Next(states[k], states[k + 1])
  {
    RunInv(states, k);
    assert NextAt(states, k);
  }

  /** The same over any stretch of a run; so an epoch once left is never returned to. */
  lemma {:induction false} RunForward(states: seq<System>, i: nat, j: nat)
    requires Run(states) && i <= j < |states| && states[i].seen.Some?
    ensures states[j].seen.Some? && NotBefore(states[i].seen.value, states[j].seen.value)
  {
    if i < j {
      var k := j - 1;
      RunForward(states, i, k);
      RunStep(states, k);
      StepForward(states[k], states[j]);
    }
  }

  /**
   * A subscriber that outlives a step keeps the snapshot it was seeded with: nothing but a wipe or a leave removes it.
   */
  lemma StepKeepsSeeded(s: System, t: System, i: nat)
    requires Next(s, t) && i in s.subscribers && s.subscribers[i].Live? && i in t.subscribers
    ensures t.subscribers[i].Live? && t.subscribers[i].joined == s.subscribers[i].joined
    ensures t.subscribers[i].since == s.subscribers[i].since
    ensures s.subscribers[i].emitted <= t.subscribers[i].emitted
  {
  }

  /** A pull that ends without a wipe leaves every subscriber of its epoch at what the source held when it answered. */
  lemma PullCatchesUp(s: System, t: System, i: nat)
    requires Inv(s) && Applies(s, t) && s.seen.Some?
    requires i in t.subscribers && t.subscribers[i].Live? && t.subscribers[i].epoch == t.seen.value.epoch
    requires t.subscribers[i].joined <= s.pull.answer.clock
    ensures s.pull.answer.epoch < |t.histories| && s.pull.answer.clock < |t.histories[s.pull.answer.epoch]|
    ensures t.subscribers[i].rows == t.histories[s.pull.answer.epoch][s.pull.answer.clock]
  {
    AppliesInv(s, t);
    var sub := t.subscribers[i];
    assert Follows(t.histories, t.seen, sub);
    var h := t.histories[sub.epoch];
    ReplayIsPatch(h[sub.joined], sub.emitted);
    SoundPatch(h, sub.since, t.seen.value.clock, DeltaOf(sub.emitted), sub.joined);
  }

  // ---- nothing delivered is passed over ----

  /** The node is where a push is, or past it. */
  predicate Reached(s: System, p: Push) {
    s.seen.Some? && NotBefore(Seen(p.epoch, p.clock), s.seen.value)
  }

  /** The node is asking, and is to be told at least what a push told. */
  predicate Asking(s: System, p: Push) {
    || s.pull.Asked?
    || (s.pull.Answered? && NotBefore(Seen(p.epoch, p.clock), Seen(s.pull.answer.epoch, s.pull.answer.clock)))
  }

  lemma DeliverReaches(s: System, t: System, p: Push)
    requires Deliver(s, t, p) && s.seen.Some?
    ensures t.pull.Asked? || (t.seen.Some? && t.seen.value.epoch == p.epoch && t.seen.value.clock >= p.clock)
  {
  }

  lemma AnswerCovers(s: System, t: System, p: Push, a: Answer)
    requires Inv(s) && p in s.pushes && Answers(s, t, a)
    ensures Asking(t, p)
  {
    assert PushSound(s.histories, p);
  }

  lemma StepReaches(s: System, t: System, p: Push)
    requires Inv(s) && Next(s, t) && p in s.pushes && (Reached(s, p) || Asking(s, p))
    ensures Reached(t, p) || Asking(t, p)
  {
    if Reached(s, p) {
      StepForward(s, t);
    } else if a :| Answers(s, t, a) {
      AnswerCovers(s, t, p, a);
    } else if Applies(s, t) {
    }
  }

  lemma PushesStay(s: System, t: System, p: Push)
    requires Next(s, t) && p in s.pushes
    ensures p in t.pushes
  {
  }

  /**
   * No push is passed over for good: from the step that delivers it to a node that has a clock, at every state of the
   * run the node is at the push's clock or past it, or it is asking, and any answer it is given is.
   */
  lemma {:induction false} DeliveredIsReached(states: seq<System>, i: nat, j: nat, p: Push)
    requires Run(states) && i < j < |states| && states[i].seen.Some? && Deliver(states[i], states[i + 1], p)
    ensures p in states[j].pushes && (Reached(states[j], p) || Asking(states[j], p))
  {
    RunStep(states, j - 1);
    if j == i + 1 {
      DeliverReaches(states[i], states[j], p);
    } else {
      DeliveredIsReached(states, i, j - 1, p);
      StepReaches(states[j - 1], states[j], p);
      PushesStay(states[j - 1], states[j], p);
    }
  }

  /** A subscriber is closed only where it leaves, or by an answer that wipes or is of another epoch than the node's. */
  lemma ClosedOnlyByWipe(s: System, t: System, i: nat)
    requires Next(s, t) && i in s.subscribers && i !in t.subscribers
    ensures Leave(s, t, i) || (s.pull.Answered? && s.seen.Some? && Applies(s, t) &&
                               (s.pull.answer.wipeAll || s.pull.answer.epoch != s.seen.value.epoch))
  {
  }
}
