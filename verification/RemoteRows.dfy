/** The node that follows many sources, one step at a time for each: its queues, stored clocks and listeners. */
module RemoteRows {
  import opened Options
  import opened Sorting
  import opened RemoteData
  import opened RemoteKeys
  import opened Replication

  /** A clock from the future: asking since then answers with the current one. */
  const CURRENT := 9007199254740991

  datatype Task = Ingest(push: RemotePush<string>) | CatchUp

  function SeenOf(stored: map<string, Seen<string>>, storeId: string): Option<Seen<string>> {
    if storeId in stored then Some(stored[storeId]) else None
  }

  /** The clock a pull asks from. */
  function Since(seen: Option<Seen<string>>): nat {
    if seen.Some? then seen.value.clock else CURRENT
  }

  function QueueOf(queues: map<string, seq<Task>>, storeId: string): seq<Task> {
    if storeId in queues then queues[storeId] else []
  }

  /** What listeners have heard once some changes are told to each, in order. */
  function Told(heard: map<nat, seq<RowChange>>, changes: seq<RowChange>): map<nat, seq<RowChange>> {
    map l | l in heard :: heard[l] + changes
  }

  lemma ToldNothing(heard: map<nat, seq<RowChange>>)
    ensures Told(heard, []) == heard
  {
    assert forall l :: l in heard ==> heard[l] + [] == heard[l];
  }

  // ---- what the node does with a step and with an answer ----

  /** What a node holds. */
  datatype NodeView = NodeView(
    stored: map<string, Seen<string>>,
    queues: map<string, seq<Task>>,
    pulling: map<string, Option<Seen<string>>>,
    wiped: seq<string>,
    heard: map<nat, seq<RowChange>>)

  /** What becomes of a task once its source's turn comes. */
  function Decide(seen: Option<Seen<string>>, task: Task): Decision {
    if task.CatchUp? then Pull else Receive(seen, task.push)
  }

  /**
   * A source's oldest waiting step: a push that is applied, or passed over, or that asks; or a catch-up, which asks.
   * Nothing of any other source changes.
   */
  ghost predicate StepTo(n: NodeView, m: NodeView, storeId: string, since: Option<nat>) {
    && QueueOf(n.queues, storeId) != []
    && var seen, task := SeenOf(n.stored, storeId), QueueOf(n.queues, storeId)[0];
    && m.queues == n.queues[storeId := QueueOf(n.queues, storeId)[1..]] && m.wiped == n.wiped
    && match Decide(seen, task) {
         case Ignore => since == None && m.stored == n.stored && m.pulling == n.pulling && m.heard == n.heard
         case Apply(changes) =>
           && since == None && m.pulling == n.pulling
           && m.stored == n.stored[storeId := Seen(task.push.epoch, task.push.clock)]
           && m.heard == Told(n.heard, Mapped(changes, Changing(storeId)))
         case Pull =>
           && since == Some(Since(seen)) && m.pulling == n.pulling[storeId := seen]
           && m.stored == n.stored && m.heard == n.heard
       }
  }

  /**
   * What a push does, case by case: of a source never pulled, or stale, nothing; the very next one is stored and told
   * without asking; any other asks from the stored clock. So it leaves the node at or past its clock, or asking.
   */
  lemma PushReaches(n: NodeView, m: NodeView, storeId: string, since: Option<nat>, push: RemotePush<string>)
    requires StepTo(n, m, storeId, since) && storeId !in n.pulling && QueueOf(n.queues, storeId)[0] == Ingest(push)
    ensures storeId !in n.stored || (push.epoch == n.stored[storeId].epoch && push.clock <= n.stored[storeId].clock) ==>
              since == None && m.stored == n.stored && m.pulling == n.pulling && m.heard == n.heard
    ensures storeId in n.stored && push.epoch == n.stored[storeId].epoch && push.clock == n.stored[storeId].clock + 1 &&
            push.changes.Some? ==>
              && since == None && m.pulling == n.pulling
              && m.stored == n.stored[storeId := Seen(push.epoch, push.clock)]
              && m.heard == Told(n.heard, Mapped(push.changes.value, Changing(storeId)))
    ensures storeId in n.stored &&
            (push.epoch != n.stored[storeId].epoch || push.clock > n.stored[storeId].clock + 1 ||
             (push.clock > n.stored[storeId].clock && push.changes.None?)) ==>
              && since == Some(n.stored[storeId].clock) && m.stored == n.stored && m.heard == n.heard
              && m.pulling == n.pulling[storeId := Some(n.stored[storeId])]
    ensures storeId in n.stored ==>
              || (storeId in m.pulling && since == Some(n.stored[storeId].clock))
              || (storeId in m.stored && m.stored[storeId].epoch == push.epoch && m.stored[storeId].clock >= push.clock)
  {
  }

  /** A source's answer: kept, then told to the listeners, unless it is the first or its subscribers must resync. */
  ghost predicate AnswerTo(n: NodeView, m: NodeView, storeId: string, answer: RemoteChanges<string>) {
    && m.queues == n.queues && m.pulling == n.pulling - {storeId}
    && m.stored == n.stored[storeId := Seen(answer.epoch, answer.clock)]
    && match Pulled(SeenOf(n.stored, storeId), answer) {
         case Learn => m.wiped == n.wiped && m.heard == n.heard
         case Wipe => m.wiped == n.wiped + [storeId] && m.heard == n.heard
         case Emit(changes) => m.wiped == n.wiped && m.heard == Told(n.heard, Mapped(changes, Changing(storeId)))
       }
  }

  /** What an answer does, case by case: a wipe exactly of an answer that wipes or is of another epoch. */
  lemma AnswerReaches(n: NodeView, m: NodeView, storeId: string, answer: RemoteChanges<string>)
    requires AnswerTo(n, m, storeId, answer)
    ensures storeId in m.stored && m.stored[storeId] == Seen(answer.epoch, answer.clock) && storeId !in m.pulling
    ensures storeId !in n.stored ==> m.wiped == n.wiped && m.heard == n.heard
    ensures storeId in n.stored && (answer.wipeAll || answer.epoch != n.stored[storeId].epoch) ==>
              m.wiped == n.wiped + [storeId] && m.heard == n.heard
    ensures storeId in n.stored && !answer.wipeAll && answer.epoch == n.stored[storeId].epoch ==>
              m.wiped == n.wiped && m.heard == Told(n.heard, Mapped(answer.changes, Changing(storeId)))
  {
  }

  class RemoteNode {
    /** The last clock applied per source. */
    var stored: map<string, Seen<string>>
    /** Steps waiting per source, oldest first. */
    var queues: map<string, seq<Task>>
    /** Pulls asked and not yet answered, with what had been seen. */
    var pulling: map<string, Option<Seen<string>>>
    /** The sources whose subscribers were told to resync, in order. */
    var wiped: seq<string>
    /** What each listener has been called with. */
    var heard: map<nat, seq<RowChange>>

    function View(): NodeView
      reads this
    {
      NodeView(stored, queues, pulling, wiped, heard)
    }

    /** One step at a time: while a source is asked, what had been seen of it stays what is stored. */
    ghost predicate Valid()
      reads this
    {
      forall s :: s in pulling ==> pulling[s] == SeenOf(stored, s)
    }

    constructor (stored: map<string, Seen<string>>)
      ensures Valid() && this.stored == stored && queues == map[] && pulling == map[] && wiped == [] && heard == map[]
    {
      this.stored := stored;
      queues, pulling, wiped, heard := map[], map[], [], map[];
    }

    method OnChange(listener: nat)
      requires Valid() && listener !in heard
      modifies this`heard
      ensures Valid() && heard == old(heard)[listener := []]
    {
      heard := heard[listener := []];
    }

    method Unsubscribe(listener: nat)
      requires Valid()
      modifies this`heard
      ensures Valid() && heard == old(heard) - {listener}
    {
      heard := heard - {listener};
    }

    /** Queues a step behind its source's others. */
    method Serial(storeId: string, task: Task)
      requires Valid()
      modifies this`queues
      ensures Valid() && queues == old(queues)[storeId := QueueOf(old(queues), storeId) + [task]]
    {
      queues := queues[storeId := QueueOf(queues, storeId) + [task]];
    }

    /** Queues a catch-up of each source given, or of every source with a clock. */
    method Resume(storeIds: Option<set<string>>)
      requires Valid()
      modifies this`queues
      ensures Valid()
      ensures var ids := if storeIds.Some? then storeIds.value else stored.Keys;
              forall s :: QueueOf(queues, s) == QueueOf(old(queues), s) + if s in ids then [CatchUp] else []
    {
      var ids := if storeIds.Some? then storeIds.value else stored.Keys;
      var todo := ids;
      while todo != {}
        invariant todo <= ids
        invariant forall s :: QueueOf(queues, s) == QueueOf(old(queues), s) + if s in ids - todo then [CatchUp] else []
        decreases todo
      {
        var s :| s in todo;
        Serial(s, CatchUp);
        todo := todo - {s};
      }
    }

    /** Tells every listener every change, in order. */
    method Emit(storeId: string, changes: seq<RemoteChange>)
      requires Valid()
      modifies this`heard
      ensures Valid() && heard == Told(old(heard), Mapped(changes, Changing(storeId)))
    {
      ghost var all := Mapped(changes, Changing(storeId));
      ToldNothing(heard);
      assert all[..0] == [];
      for i := 0 to |changes|
        invariant heard == Told(old(heard), all[..i])
      {
        var change := ChangeOf(storeId, changes[i]);
        assert all[..i + 1] == all[..i] + [change];
        var todo := heard.Keys;
        while todo != {}
          invariant todo <= heard.Keys == old(heard).Keys
          invariant forall l :: l in heard ==> heard[l] == old(heard)[l] + if l in todo then all[..i] else all[..i + 1]
          decreases todo
        {
          var l :| l in todo;
          heard := heard[l := heard[l] + [change]];
          todo := todo - {l};
        }
        assert heard == Told(old(heard), all[..i + 1]);
      }
      assert all[..|changes|] == all;
    }

    /** Runs a source's oldest waiting step. */
    method Step(storeId: string) returns (since: Option<nat>)
      requires Valid() && storeId !in pulling && QueueOf(queues, storeId) != []
      modifies this
      ensures Valid() && StepTo(old(View()), View(), storeId, since)
      ensures QueueOf(old(queues), storeId)[0].CatchUp? ==>
                && since == Some(if storeId in old(stored) then old(stored)[storeId].clock else CURRENT)
                && storeId in pulling && stored == old(stored) && heard == old(heard)
      ensures var task := QueueOf(old(queues), storeId)[0];
              task.Ingest? && storeId in old(stored) ==>
                || (storeId in pulling && since == Some(old(stored)[storeId].clock))
                || (storeId in stored && stored[storeId].epoch == task.push.epoch &&
                    stored[storeId].clock >= task.push.clock)
      ensures var task := QueueOf(old(queues), storeId)[0];
              task.Ingest? && storeId in old(stored) && task.push.changes.Some? &&
              task.push.epoch == old(stored)[storeId].epoch && task.push.clock == old(stored)[storeId].clock + 1 ==>
                && since == None && stored == old(stored)[storeId := Seen(task.push.epoch, task.push.clock)]
                && heard == Told(old(heard), Mapped(task.push.changes.value, Changing(storeId)))
      ensures var task := QueueOf(old(queues), storeId)[0];
              task.Ingest? && (storeId in old(stored) ==>
                                 task.push.epoch == old(stored)[storeId].epoch &&
                                 task.push.clock <= old(stored)[storeId].clock) ==>
                since == None && stored == old(stored) && pulling == old(pulling) && heard == old(heard)
    {
      var seen, task := SeenOf(stored, storeId), QueueOf(queues, storeId)[0];
      queues := queues[storeId := QueueOf(queues, storeId)[1..]];
      if task.CatchUp? {
        pulling := pulling[storeId := seen];
        return Some(Since(seen));
      }
      var push := task.push;
      if seen.None? {
        return None;
      }
      var sameEpoch := push.epoch == seen.value.epoch;
      if sameEpoch && push.clock <= seen.value.clock {
        return None;
      }
      if !sameEpoch || push.clock != seen.value.clock + 1 || push.changes.None? {
        pulling := pulling[storeId := seen];
        return Some(Since(seen));
      }
      stored := stored[storeId := Seen(push.epoch, push.clock)];
      Emit(storeId, push.changes.value);
      return None;
    }

    method Answer(storeId: string, answer: RemoteChanges<string>)
      requires Valid() && storeId in pulling
      modifies this
      ensures Valid() && AnswerTo(old(View()), View(), storeId, answer)
      ensures wiped == old(wiped) +
                       if storeId in old(stored) && (answer.wipeAll || answer.epoch != old(stored)[storeId].epoch)
                       then [storeId] else []
      ensures heard == if storeId in old(stored) && !answer.wipeAll && answer.epoch == old(stored)[storeId].epoch
                       then Told(old(heard), Mapped(answer.changes, Changing(storeId))) else old(heard)
    {
      var seen := pulling[storeId];
      pulling := pulling - {storeId};
      stored := stored[storeId := Seen(answer.epoch, answer.clock)];
      if seen.None? {
        return;
      }
      if answer.wipeAll || answer.epoch != seen.value.epoch {
        wiped := wiped + [storeId];
      } else {
        Emit(storeId, answer.changes);
      }
    }
  }
}
