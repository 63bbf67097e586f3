/**
 * Gossip-replicated presence: each node owns the slice of its own connections, broadcasts a numbered delta per change
 * and now and then its whole slice, and keeps what the others broadcast, guarded by the numbers.
 */
module Presence {
  import opened Options

  datatype Conn = Conn(id: string, nodeId: string, userId: Option<string>, rooms: seq<string>)
  type Slice = map<string, Conn>

  datatype Op =
    | SetOp(d: Conn)
    | DelOp(id: string)
    | AddRoom(id: string, room: string)
    | RemoveRoom(id: string, room: string)

  datatype Msg = Snapshot(n: string, q: nat, conns: seq<Conn>) | Delta(n: string, q: nat, op: Op) | Leave(n: string)

  // ---- slices ----

  function Rejecting(rooms: seq<string>, room: string): (left: seq<string>)
    ensures room !in left
  {
    if rooms == [] then []
    else Rejecting(rooms[..|rooms| - 1], room) + if rooms[|rooms| - 1] != room then [rooms[|rooms| - 1]] else []
  }

  /** `part` is found in `whole` at the places `at`, one after another. */
  ghost predicate FoundAt(part: seq<string>, whole: seq<string>, at: seq<nat>) {
    && |at| == |part|
    && (forall i, j :: 0 <= i < j < |at| ==> at[i] < at[j])
    && (forall i :: 0 <= i < |at| ==> at[i] < |whole| && whole[at[i]] == part[i])
  }

  /** The rooms other than one: each as often as before and in the order they were in. */
  ghost predicate AllBut(rooms: seq<string>, room: string, left: seq<string>) {
    multiset(left) == multiset(rooms)[room := 0] && exists at :: FoundAt(left, rooms, at)
  }

  lemma {:induction false} RejectingFoundAt(rooms: seq<string>, room: string) returns (at: seq<nat>)
    ensures FoundAt(Rejecting(rooms, room), rooms, at)
  {
    at := [];
    if rooms != [] {
      at := RejectingFoundAt(rooms[..|rooms| - 1], room);
      if rooms[|rooms| - 1] != room {
        at := at + [|rooms| - 1];
      }
    }
  }

  lemma {:induction false} RejectingCounts(rooms: seq<string>, room: string)
    ensures multiset(Rejecting(rooms, room)) == multiset(rooms)[room := 0]
  {
    if rooms != [] {
      RejectingCounts(rooms[..|rooms| - 1], room);
      assert rooms == rooms[..|rooms| - 1] + [rooms[|rooms| - 1]];
    }
  }

  lemma NoneRejected(rooms: seq<string>, room: string)
    requires room !in rooms
    ensures AllBut(rooms, room, rooms)
  {
    assert multiset(rooms)[room] == 0;
    assert FoundAt(rooms, rooms, seq(|rooms|, i => i));
  }

  lemma RejectingIsAllBut(rooms: seq<string>, room: string)
    ensures AllBut(rooms, room, Rejecting(rooms, room))
  {
    var at := RejectingFoundAt(rooms, room);
    RejectingCounts(rooms, room);
  }

  /** A change applied to a slice; one to a connection that is not there does nothing. */
  function ApplyOp(s: Slice, op: Op): Slice {
    match op
    case SetOp(d) => s[d.id := d]
    case DelOp(id) => s - {id}
    case AddRoom(id, room) =>
      if id in s && room !in s[id].rooms then s[id := s[id].(rooms := s[id].rooms + [room])] else s
    case RemoveRoom(id, room) => if id in s then s[id := s[id].(rooms := Rejecting(s[id].rooms, room))] else s
  }

  ghost predicate SameButOne(was: Slice, now: Slice, one: string) {
    forall id :: id != one ==> (id in now <==> id in was) && (id in was ==> now[id] == was[id])
  }

  /** The same connection, whatever its rooms. */
  ghost predicate SameConn(was: Conn, now: Conn) {
    now.id == was.id && now.nodeId == was.nodeId && now.userId == was.userId
  }

  /** What a change makes of a slice, in the connections and the rooms they are in; all others stay as they were. */
  ghost predicate Makes(was: Slice, op: Op, now: Slice) {
    match op
    case SetOp(d) => SameButOne(was, now, d.id) && d.id in now && now[d.id] == d
    case DelOp(id) => SameButOne(was, now, id) && id !in now
    case AddRoom(id, room) =>
      && SameButOne(was, now, id) && (id in now <==> id in was)
      && (id in was ==> SameConn(was[id], now[id]) &&
                        now[id].rooms == was[id].rooms + if room in was[id].rooms then [] else [room])
    case RemoveRoom(id, room) =>
      && SameButOne(was, now, id) && (id in now <==> id in was)
      && (id in was ==> SameConn(was[id], now[id]) && AllBut(was[id].rooms, room, now[id].rooms))
  }

  lemma OpMakes(s: Slice, op: Op)
    ensures Makes(s, op, ApplyOp(s, op))
  {
    if op.RemoveRoom? && op.id in s {
      RejectingIsAllBut(s[op.id].rooms, op.room);
    }
  }

  /** One node's slice is changed, from nothing where there was none, and no other node's. */
  ghost predicate MakesOf(was: map<string, Slice>, n: string, op: Op, now: map<string, Slice>) {
    n in now && now - {n} == was - {n} && Makes(if n in was then was[n] else map[], op, now[n])
  }

  /** A node has a connection in a room. */
  ghost predicate InRoom(replica: map<string, Slice>, n: string, id: string, room: string) {
    n in replica && id in replica[n] && room in replica[n][id].rooms
  }

  /** Whether the owner announces a change: always for a connection, only if it changes something for a room. */
  predicate Announces(s: Slice, op: Op) {
    match op
    case SetOp(_) => true
    case DelOp(_) => true
    case AddRoom(id, room) => id in s && room !in s[id].rooms
    case RemoveRoom(id, room) => id in s && room in s[id].rooms
  }

  /** A slice from the connections a snapshot lists. */
  function Rebuild(conns: seq<Conn>): Slice {
    if conns == [] then map[] else Rebuild(conns[..|conns| - 1])[conns[|conns| - 1].id := conns[|conns| - 1]]
  }

  /** No later connection of a list has the id of the `i`th. */
  ghost predicate LastOfId(conns: seq<Conn>, i: nat) {
    i < |conns| && forall j :: i < j < |conns| ==> conns[j].id != conns[i].id
  }

  /** Under each id listed, and no other, the last connection listed with it. */
  ghost predicate ListedIn(s: Slice, conns: seq<Conn>) {
    && (forall id :: id in s ==> exists i :: 0 <= i < |conns| && conns[i].id == id)
    && (forall i :: 0 <= i < |conns| && LastOfId(conns, i) ==> conns[i].id in s && s[conns[i].id] == conns[i])
  }

  lemma {:induction false} RebuildLast(conns: seq<Conn>, i: nat)
    requires LastOfId(conns, i)
    ensures conns[i].id in Rebuild(conns) && Rebuild(conns)[conns[i].id] == conns[i]
  {
    var init := conns[..|conns| - 1];
    if i < |init| {
      assert conns[|init|].id != conns[i].id && LastOfId(init, i) && init[i] == conns[i];
      RebuildLast(init, i);
    }
  }

  lemma RebuildLists(conns: seq<Conn>)
    ensures ListedIn(Rebuild(conns), conns)
  {
    RebuiltFrom(conns);
    RebuildById(conns);
    forall i | 0 <= i < |conns| && LastOfId(conns, i)
      ensures conns[i].id in Rebuild(conns) && Rebuild(conns)[conns[i].id] == conns[i]
    {
      RebuildLast(conns, i);
    }
    forall id | id in Rebuild(conns) ensures exists i :: 0 <= i < |conns| && conns[i].id == id {
      assert Rebuild(conns)[id] in conns;
    }
  }

  /** Each connection is kept under its own id. */
  ghost predicate ById(s: Slice) {
    forall id :: id in s ==> s[id].id == id
  }

  lemma OpKeepsIds(s: Slice, op: Op)
    requires ById(s)
    ensures ById(ApplyOp(s, op))
  {
  }

  // ---- one node ----

  datatype Node = Node(replica: map<string, Slice>, applied: map<string, nat>, selfId: Option<string>, selfSeq: nat)

  function SliceIn(replica: map<string, Slice>, n: string): Slice {
    if n in replica then replica[n] else map[]
  }

  function Selves(v: Node, op: Op): Option<string> {
    if v.selfId.None? && op.SetOp? then Some(op.d.nodeId) else v.selfId
  }

  /** A local write and what it broadcasts; before the node knows itself, only a `set` does anything. */
  function Write(v: Node, op: Op): (Node, Option<Msg>) {
    var me := Selves(v, op);
    if me.None? then (v, None)
    else
      var own := SliceIn(v.replica, me.value);
      if Announces(own, op) then
        (Node(v.replica[me.value := ApplyOp(own, op)], v.applied, me, v.selfSeq + 1),
         Some(Delta(me.value, v.selfSeq + 1, op)))
      else (v.(replica := v.replica[me.value := own]), None)
  }

  lemma PlacedMakes(was: map<string, Slice>, n: string, op: Op, slice: Slice)
    requires Makes(SliceIn(was, n), op, slice)
    ensures MakesOf(was, n, op, was[n := slice])
  {
  }

  /** A change the owner does not announce makes nothing of its slice. */
  lemma UnannouncedMakes(s: Slice, op: Op)
    requires !Announces(s, op)
    ensures Makes(s, op, s)
  {
    if op.RemoveRoom? && op.id in s {
      NoneRejected(s[op.id].rooms, op.room);
    }
  }

  lemma WriteMakes(v: Node, op: Op, w: Node, m: Option<Msg>)
    requires (w, m) == Write(v, op)
    ensures w.applied == v.applied && w.selfId == (if v.selfId.None? && op.SetOp? then Some(op.d.nodeId) else v.selfId)
    ensures w.selfId.None? ==> w.replica == v.replica
    ensures w.selfId.Some? ==> MakesOf(v.replica, w.selfId.value, op, w.replica)
  {
    if w.selfId.Some? {
      var own := SliceIn(v.replica, w.selfId.value);
      if Announces(own, op) {
        OpMakes(own, op);
        PlacedMakes(v.replica, w.selfId.value, op, ApplyOp(own, op));
      } else {
        UnannouncedMakes(own, op);
        PlacedMakes(v.replica, w.selfId.value, op, own);
      }
    }
  }

  /** How far a peer has been followed, nothing heard being before anything. */
  function Followed(v: Node, n: string): nat {
    if n in v.applied then v.applied[n] else 0
  }

  /** A message takes effect unless it is stale: a delta must be newer than what was applied, a snapshot no older. */
  predicate Accepts(v: Node, m: Msg) {
    match m
    case Leave(_) => true
    case Snapshot(n, q, _) => n in v.applied ==> q >= v.applied[n]
    case Delta(n, q, _) => n in v.applied ==> q > v.applied[n]
  }

  function Receive(v: Node, m: Msg): Node {
    if Some(m.n) == v.selfId || !Accepts(v, m) then v
    else match m
      case Leave(n) => v.(replica := v.replica - {n}, applied := v.applied - {n})
      case Snapshot(n, q, conns) => v.(replica := v.replica[n := Rebuild(conns)], applied := v.applied[n := q])
      case Delta(n, q, op) =>
        v.(replica := v.replica[n := ApplyOp(SliceIn(v.replica, n), op)], applied := v.applied[n := q])
  }

  /**
   * A node as a running object: the same state changed in place, the clock of the last word from each, and what it
   * sent.
   */
  class GossipPresence {
    const ttl: int
    var replica: map<string, Slice>
    var appliedSeq: map<string, nat>
    var lastSeen: map<string, int>
    var selfNodeId: Option<string>
    var selfSeq: nat
    var sent: seq<Msg>

    function View(): Node
      reads this
    {
      Node(replica, appliedSeq, selfNodeId, selfSeq)
    }

    /** In every slice each connection is under its own id. */
    ghost predicate Valid()
      reads this
    {
      forall n :: n in replica ==> ById(replica[n])
    }

    constructor (ttl: int)
      ensures Valid()
      ensures this.ttl == ttl && View() == Node(map[], map[], None, 0) && lastSeen == map[] && sent == []
    {
      this.ttl := ttl;
      replica, appliedSeq, lastSeen, selfNodeId, selfSeq, sent := map[], map[], map[], None, 0, [];
    }

    /** The own slice, made on first use. */
    method Own() returns (own: Slice)
      requires selfNodeId.Some?
      modifies this`replica
      ensures own == SliceIn(old(replica), selfNodeId.value)
      ensures replica == old(replica)[selfNodeId.value := own]
    {
      if selfNodeId.value !in replica {
        replica := replica[selfNodeId.value := map[]];
      }
      own := replica[selfNodeId.value];
      assert replica == replica[selfNodeId.value := own];
    }

    method Bump(now: int) returns (q: nat)
      requires selfNodeId.Some?
      modifies this`selfSeq, this`lastSeen
      ensures q == selfSeq == old(selfSeq) + 1 && lastSeen == old(lastSeen)[selfNodeId.value := now]
    {
      selfSeq := selfSeq + 1;
      lastSeen := lastSeen[selfNodeId.value := now];
      q := selfSeq;
    }

    /** Replaces the own slice and announces the change. */
    method Announce(own: Slice, op: Op, now: int)
      requires selfNodeId.Some?
      modifies this`replica, this`selfSeq, this`lastSeen, this`sent
      ensures replica == old(replica)[selfNodeId.value := own] && selfSeq == old(selfSeq) + 1
      ensures sent == old(sent) + [Delta(selfNodeId.value, selfSeq, op)]
      ensures lastSeen == old(lastSeen)[selfNodeId.value := now]
    {
      replica := replica[selfNodeId.value := own];
      var q := Bump(now);
      sent := sent + [Delta(selfNodeId.value, q, op)];
    }

    method Set(d: Conn, now: int)
      requires Valid()
      modifies this
      ensures Valid()
      ensures View() == Write(old(View()), SetOp(d)).0
      ensures sent == old(sent) + Told(Write(old(View()), SetOp(d)).1)
      ensures selfNodeId == (if old(selfNodeId).Some? then old(selfNodeId) else Some(d.nodeId))
      ensures MakesOf(old(replica), selfNodeId.value, SetOp(d), replica)
      ensures appliedSeq == old(appliedSeq) && selfSeq == old(selfSeq) + 1
      ensures sent == old(sent) + [Delta(selfNodeId.value, selfSeq, SetOp(d))]
      ensures lastSeen == old(lastSeen)[selfNodeId.value := now]
    {
      ghost var op := SetOp(d);
      if selfNodeId.None? {
        selfNodeId := Some(d.nodeId);
      }
      var own := Own();
      OpKeepsIds(own, SetOp(d));
      assert own[d.id := d] == ApplyOp(own, SetOp(d));
      Announce(own[d.id := d], SetOp(d), now);
      assert View() == Write(old(View()), op).0;
      WriteMakes(old(View()), op, View(), Write(old(View()), op).1);
    }

    method Del(connId: string, now: int)
      requires Valid()
      modifies this
      ensures Valid()
      ensures View() == Write(old(View()), DelOp(connId)).0
      ensures sent == old(sent) + Told(Write(old(View()), DelOp(connId)).1)
      ensures selfNodeId == old(selfNodeId) && appliedSeq == old(appliedSeq)
      ensures selfNodeId.None? ==> replica == old(replica) && selfSeq == old(selfSeq) && sent == old(sent)
      ensures selfNodeId.Some? ==> MakesOf(old(replica), selfNodeId.value, DelOp(connId), replica)
      ensures selfNodeId.Some? ==>
                selfSeq == old(selfSeq) + 1 && sent == old(sent) + [Delta(selfNodeId.value, selfSeq, DelOp(connId))]
    {
      ghost var op := DelOp(connId);
      WriteMakes(View(), op, Write(View(), op).0, Write(View(), op).1);
      if selfNodeId.None? {
        return;
      }
      var own := Own();
      Announce(own - {connId}, DelOp(connId), now);
    }

    method JoinRoom(connId: string, room: string, now: int)
      requires Valid()
      modifies this
      ensures Valid()
      ensures View() == Write(old(View()), AddRoom(connId, room)).0
      ensures sent == old(sent) + Told(Write(old(View()), AddRoom(connId, room)).1)
      ensures selfNodeId == old(selfNodeId) && appliedSeq == old(appliedSeq)
      ensures selfNodeId.None? ==> replica == old(replica)
      ensures selfNodeId.Some? ==> MakesOf(old(replica), selfNodeId.value, AddRoom(connId, room), replica)
      ensures if selfNodeId.Some? && selfNodeId.value in old(replica) && connId in old(replica)[selfNodeId.value] &&
                !InRoom(old(replica), selfNodeId.value, connId, room) then
                && selfSeq == old(selfSeq) + 1
                && sent == old(sent) + [Delta(selfNodeId.value, selfSeq, AddRoom(connId, room))]
              else selfSeq == old(selfSeq) && sent == old(sent)
    {
      ghost var op := AddRoom(connId, room);
      WriteMakes(View(), op, Write(View(), op).0, Write(View(), op).1);
      if selfNodeId.None? {
        return;
      }
      var own := Own();
      if connId !in own || room in own[connId].rooms {
        return;
      }
      Announce(own[connId := own[connId].(rooms := own[connId].rooms + [room])], AddRoom(connId, room), now);
    }

    method QuitRoom(connId: string, room: string, now: int)
      requires Valid()
      modifies this
      ensures Valid()
      ensures View() == Write(old(View()), RemoveRoom(connId, room)).0
      ensures sent == old(sent) + Told(Write(old(View()), RemoveRoom(connId, room)).1)
      ensures selfNodeId == old(selfNodeId) && appliedSeq == old(appliedSeq)
      ensures selfNodeId.None? ==> replica == old(replica)
      ensures selfNodeId.Some? ==> MakesOf(old(replica), selfNodeId.value, RemoveRoom(connId, room), replica)
      ensures if selfNodeId.Some? && InRoom(old(replica), selfNodeId.value, connId, room) then
                && selfSeq == old(selfSeq) + 1
                && sent == old(sent) + [Delta(selfNodeId.value, selfSeq, RemoveRoom(connId, room))]
              else selfSeq == old(selfSeq) && sent == old(sent)
    {
      ghost var op := RemoveRoom(connId, room);
      if selfNodeId.None? {
        return;
      }
      var own := Own();
      if connId !in own || room !in own[connId].rooms {
        WriteMakes(old(View()), op, View(), None);
        return;
      }
      Announce(own[connId := own[connId].(rooms := Rejecting(own[connId].rooms, room))], RemoveRoom(connId, room), now);
      assert View() == Write(old(View()), op).0;
      WriteMakes(old(View()), op, View(), Write(old(View()), op).1);
    }

    method Beat(nodeId: string, now: int)
      modifies this`selfNodeId, this`lastSeen
      ensures selfNodeId == if old(selfNodeId).Some? then old(selfNodeId) else Some(nodeId)
      ensures lastSeen == old(lastSeen)[selfNodeId.value := now]
    {
      if selfNodeId.None? {
        selfNodeId := Some(nodeId);
      }
      lastSeen := lastSeen[selfNodeId.value := now];
    }

    method ClearNode(nodeId: string)
      requires Valid()
      modifies this
      ensures Valid()
      ensures replica == old(replica) - {nodeId} && appliedSeq == old(appliedSeq) - {nodeId}
      ensures lastSeen == old(lastSeen) - {nodeId}
      ensures selfNodeId == old(selfNodeId) && selfSeq == old(selfSeq)
      ensures sent == old(sent) + if selfNodeId == Some(nodeId) then [Leave(nodeId)] else []
    {
      replica := replica - {nodeId};
      appliedSeq := appliedSeq - {nodeId};
      lastSeen := lastSeen - {nodeId};
      if selfNodeId == Some(nodeId) {
        sent := sent + [Leave(nodeId)];
      }
    }

    method ApplyDelta(nodeId: string, op: Op)
      modifies this`replica
      ensures replica == old(replica)[nodeId := ApplyOp(SliceIn(old(replica), nodeId), op)]
      ensures MakesOf(old(replica), nodeId, op, replica)
    {
      OpMakes(SliceIn(replica, nodeId), op);
      PlacedMakes(replica, nodeId, op, ApplyOp(SliceIn(replica, nodeId), op));
      var slice := SliceIn(replica, nodeId);
      if op.SetOp? {
        slice := slice[op.d.id := op.d];
      } else if op.DelOp? {
        slice := slice - {op.id};
      } else if op.AddRoom? {
        if op.id in slice && op.room !in slice[op.id].rooms {
          slice := slice[op.id := slice[op.id].(rooms := slice[op.id].rooms + [op.room])];
        }
      } else if op.id in slice {
        slice := slice[op.id := slice[op.id].(rooms := Rejecting(slice[op.id].rooms, op.room))];
      }
      replica := replica[nodeId := slice];
    }

    method ReceiveMsg(msg: Msg, now: int)
      requires Valid()
      modifies this
      ensures Valid()
      ensures View() == Receive(old(View()), msg) && sent == old(sent)
      ensures selfNodeId == old(selfNodeId) && selfSeq == old(selfSeq)
      ensures selfNodeId == Some(msg.n) ==> replica == old(replica) && appliedSeq == old(appliedSeq)
      ensures selfNodeId != Some(msg.n) && msg.Leave? ==>
                replica == old(replica) - {msg.n} && appliedSeq == old(appliedSeq) - {msg.n}
      ensures selfNodeId != Some(msg.n) && msg.Delta? ==>
                if msg.n in old(appliedSeq) && msg.q <= old(appliedSeq)[msg.n] then
                  replica == old(replica) && appliedSeq == old(appliedSeq)
                else
                  MakesOf(old(replica), msg.n, msg.op, replica) && appliedSeq == old(appliedSeq)[msg.n := msg.q]
      ensures selfNodeId != Some(msg.n) && msg.Snapshot? ==>
                if msg.n in old(appliedSeq) && msg.q < old(appliedSeq)[msg.n] then
                  replica == old(replica) && appliedSeq == old(appliedSeq)
                else
                  && msg.n in replica && replica - {msg.n} == old(replica) - {msg.n}
                  && ListedIn(replica[msg.n], msg.conns) && appliedSeq == old(appliedSeq)[msg.n := msg.q]
      ensures lastSeen == if old(selfNodeId) == Some(msg.n) then old(lastSeen)
                          else if msg.Leave? then old(lastSeen) - {msg.n}
                          else old(lastSeen)[msg.n := now]
    {
      if selfNodeId == Some(msg.n) {
        return;
      }
      lastSeen := lastSeen[msg.n := now];
      if msg.Leave? {
        replica := replica - {msg.n};
        appliedSeq := appliedSeq - {msg.n};
        lastSeen := lastSeen - {msg.n};
        return;
      }
      var applied := if msg.n in appliedSeq then appliedSeq[msg.n] else -1;
      if msg.Snapshot? {
        if msg.q < applied {
          return;
        }
        RebuildById(msg.conns);
        RebuildLists(msg.conns);
        replica := replica[msg.n := Rebuild(msg.conns)];
        appliedSeq := appliedSeq[msg.n := msg.q];
        return;
      }
      if msg.q <= applied {
        return;
      }
      OpKeepsIds(SliceIn(replica, msg.n), msg.op);
      ApplyDelta(msg.n, msg.op);
      appliedSeq := appliedSeq[msg.n := msg.q];
    }

    /** Broadcasts the whole own slice; a node without connections stays invisible. */
    method SendSnapshot()
      requires Valid()
      modifies this`sent
      ensures var own := if selfNodeId.Some? then SliceIn(replica, selfNodeId.value) else map[];
              if own == map[] then sent == old(sent)
              else |sent| == |old(sent)| + 1 && sent[..|old(sent)|] == old(sent) && Shows(sent[|old(sent)|], View())
    {
      if selfNodeId.None? || SliceIn(replica, selfNodeId.value) == map[] {
        return;
      }
      var own := SliceIn(replica, selfNodeId.value);
      var conns := Values(own);
      sent := sent + [Snapshot(selfNodeId.value, selfSeq, conns)];
    }

    /** Every connection of a node heard from lately, and the own ones. */
    method Live(now: int) returns (out: seq<Conn>)
      requires Valid()
      ensures forall d ::
                d in out <==> exists n :: n in replica && d.id in replica[n] && replica[n][d.id] == d &&
                                (Some(n) == selfNodeId || (if n in lastSeen then lastSeen[n] else 0) >= now - ttl)
    {
      out := [];
      var todo := replica.Keys;
      while todo != {}
        invariant todo <= replica.Keys
        invariant forall d :: d in out <==>
                    exists n :: n in replica && n !in todo && Alive(n, now) && d.id in replica[n] &&
                      replica[n][d.id] == d
        decreases todo
      {
        var n :| n in todo;
        todo := todo - {n};
        if Alive(n, now) {
          var conns := Values(replica[n]);
          out := out + conns;
        }
      }
    }

    predicate Alive(n: string, now: int)
      reads this
    {
      selfNodeId == Some(n) || (if n in lastSeen then lastSeen[n] else 0) >= now - ttl
    }
  }

  function Told(m: Option<Msg>): seq<Msg> {
    if m.Some? then [m.value] else []
  }

  /** A snapshot that shows a node's own slice as it is. */
  ghost predicate Shows(m: Msg, v: Node) {
    m.Snapshot? && v.selfId == Some(m.n) && m.q == v.selfSeq && Rebuild(m.conns) == SliceIn(v.replica, m.n)
  }

  lemma OneMore(conns: seq<Conn>, d: Conn)
    ensures Rebuild(conns + [d]) == Rebuild(conns)[d.id := d]
  {
    assert (conns + [d])[..|conns|] == conns;
  }

  lemma {:induction false} RebuildById(conns: seq<Conn>)
    ensures ById(Rebuild(conns))
  {
    if conns != [] {
      RebuildById(conns[..|conns| - 1]);
    }
  }

  lemma {:induction false} RebuiltFrom(conns: seq<Conn>)
    ensures forall id :: id in Rebuild(conns) ==> Rebuild(conns)[id] in conns
  {
    if conns != [] {
      RebuiltFrom(conns[..|conns| - 1]);
    }
  }

  /** A slice's connections, each once. */
  method Values(s: Slice) returns (conns: seq<Conn>)
    requires ById(s)
    ensures Rebuild(conns) == s && |conns| == |s|
    ensures forall d :: d in conns <==> d.id in s && s[d.id] == d
  {
    conns := [];
    var todo := s.Keys;
    while todo != {}
      invariant todo <= s.Keys && |conns| + |todo| == |s|
      invariant Rebuild(conns) == s - todo
      invariant forall d :: d in conns ==> d.id in s && s[d.id] == d
      decreases todo
    {
      var id :| id in todo;
      OneMore(conns, s[id]);
      assert s - (todo - {id}) == (s - todo)[id := s[id]];
      conns := conns + [s[id]];
      todo := todo - {id};
    }
    assert s - {} == s;
    RebuiltFrom(conns);
  }

  // ---- the network ----

  /**
   * Nodes by name and every message any of them ever sent; `past` keeps what each node's own slice was at each of its
   * numbers, and `synced` whether a peer has followed an owner without missing a delta since it last had all of a
   * slice.
   */
  datatype Net = Net(
    nodes: map<string, Node>,
    sent: set<Msg>,
    past: map<string, seq<Slice>>,
    synced: map<(string, string), bool>)

  function OwnSlice(v: Node, n: string): Slice {
    SliceIn(v.replica, n)
  }

  /** Nothing heard yet, of an owner with nothing yet, is in step. */
  predicate InStep(s: Net, peer: string, owner: string) {
    (peer, owner) in s.synced ==> s.synced[(peer, owner)]
  }

  ghost predicate Init(s: Net) {
    && s.sent == {} && s.synced == map[] && s.past.Keys == s.nodes.Keys
    && forall n :: n in s.nodes ==> s.nodes[n] == Node(map[], map[], None, 0) && s.past[n] == [map[]]
  }

  /** A node changes its own slice; a connection it sets is one of its own. */
  ghost predicate Writes(s: Net, t: Net, n: string, op: Op) {
    && n in s.nodes && n in s.past && (op.SetOp? ==> op.d.nodeId == n)
    && var (v, m) := Write(s.nodes[n], op);
    t == s.(nodes := s.nodes[n := v],
            sent := s.sent + if m.Some? then {m.value} else {},
            past := if m.Some? then s.past[n := s.past[n] + [OwnSlice(v, n)]] else s.past)
  }

  ghost predicate Beats(s: Net, t: Net, n: string) {
    && n in s.nodes
    && var own := s.nodes[n].selfId;
    t == s.(nodes := s.nodes[n := s.nodes[n].(selfId := if own.Some? then own else Some(n))])
  }

  ghost predicate Broadcasts(s: Net, t: Net, n: string, m: Msg) {
    n in s.nodes && OwnSlice(s.nodes[n], n) != map[] && Shows(m, s.nodes[n]) && t == s.(sent := s.sent + {m})
  }

  /**
   * Whether a peer that takes a message is in step after it: a snapshot is everything, a delta must be the next one.
   */
  predicate StepAfter(s: Net, peer: string, m: Msg)
    requires peer in s.nodes
  {
    m.Snapshot? || (InStep(s, peer, m.n) && m.Delta? && m.q == Followed(s.nodes[peer], m.n) + 1)
  }

  /** Any message ever sent reaches any node, perhaps again, perhaps late; one that never does is lost. */
  ghost predicate Delivers(s: Net, t: Net, peer: string, m: Msg) {
    && m in s.sent && peer in s.nodes
    && t == s.(nodes := s.nodes[peer := Receive(s.nodes[peer], m)],
               synced := if Some(m.n) == s.nodes[peer].selfId || !Accepts(s.nodes[peer], m) then s.synced
                         else s.synced[(peer, m.n) := StepAfter(s, peer, m)])
  }

  ghost predicate Next(s: Net, t: Net) {
    || (exists n, op :: Writes(s, t, n, op))
    || (exists n :: Beats(s, t, n))
    || (exists n, m :: Broadcasts(s, t, n, m))
    || (exists peer, m :: Delivers(s, t, peer, m))
  }

  ghost predicate StepAt(states: seq<Net>, i: nat)
    requires i + 1 < |states|
  {
    Next(states[i], states[i + 1])
  }

  ghost predicate Run(states: seq<Net>) {
    && |states| > 0 && Init(states[0])
    && forall i: nat :: i + 1 < |states| ==> StepAt(states, i)
  }

  // ---- the invariant ----

  /** A node's own slice has a past, which ends where it stands. */
  ghost predicate OwnerOk(s: Net, n: string) {
    && n in s.nodes && n in s.past
    && (s.nodes[n].selfId.Some? ==> s.nodes[n].selfId == Some(n))
    && |s.past[n]| == s.nodes[n].selfSeq + 1
    && s.past[n][0] == map[]
    && s.past[n][s.nodes[n].selfSeq] == OwnSlice(s.nodes[n], n)
    && (s.nodes[n].selfId.None? ==> s.nodes[n].selfSeq == 0)
  }

  /** A message tells a past of its owner's truly. */
  ghost predicate MsgOk(s: Net, m: Msg) {
    && !m.Leave? && m.n in s.nodes && m.n in s.past && s.nodes[m.n].selfId == Some(m.n) && m.q < |s.past[m.n]|
    && match m
       case Snapshot(n, q, conns) => Rebuild(conns) == s.past[n][q]
       case Delta(n, q, op) => q > 0 && s.past[n][q] == ApplyOp(s.past[n][q - 1], op)
       case Leave(_) => false
  }

  /** A peer has followed no further than its owner went, and while in step holds the slice as it was there. */
  ghost predicate PeerOk(s: Net, peer: string, owner: string) {
    && peer in s.nodes && owner in s.past
    && Followed(s.nodes[peer], owner) < |s.past[owner]|
    && (InStep(s, peer, owner) ==>
      SliceIn(s.nodes[peer].replica, owner) == s.past[owner][Followed(s.nodes[peer], owner)])
  }

  ghost predicate Inv(s: Net) {
    && s.past.Keys == s.nodes.Keys
    && (forall n :: n in s.nodes ==> OwnerOk(s, n))
    && (forall m :: m in s.sent ==> MsgOk(s, m))
    && (forall peer, owner :: peer in s.nodes && owner in s.nodes && peer != owner ==> PeerOk(s, peer, owner))
  }

  // ---- every step keeps it ----

  lemma WriteOwner(s: Net, t: Net, n: string, op: Op)
    requires Inv(s) && Writes(s, t, n, op)
    ensures OwnerOk(t, n)
  {
    assert OwnerOk(s, n);
  }

  lemma WriteNew(s: Net, t: Net, n: string, op: Op, m: Msg)
    requires Inv(s) && Writes(s, t, n, op) && m in t.sent && m !in s.sent
    ensures MsgOk(t, m)
  {
    assert OwnerOk(s, n);
  }

  lemma WriteOthers(s: Net, t: Net, n: string, op: Op, o: string)
    requires Inv(s) && Writes(s, t, n, op) && o in s.nodes && o != n
    ensures OwnerOk(t, o)
  {
    assert OwnerOk(s, o);
  }

  lemma WriteOld(s: Net, t: Net, n: string, op: Op, m: Msg)
    requires Inv(s) && Writes(s, t, n, op) && m in s.sent
    ensures MsgOk(t, m)
  {
    assert MsgOk(s, m) && OwnerOk(s, n);
  }

  /** A write is of the node's own slice: what it has of another's stays. */
  lemma WriteElsewhere(v: Node, n: string, op: Op, owner: string)
    requires (v.selfId.Some? ==> v.selfId == Some(n)) && (op.SetOp? ==> op.d.nodeId == n) && owner != n
    ensures var w := Write(v, op).0;
            Followed(w, owner) == Followed(v, owner) && SliceIn(w.replica, owner) == SliceIn(v.replica, owner)
  {
  }

  lemma WritePeers(s: Net, t: Net, n: string, op: Op, peer: string, owner: string)
    requires Inv(s) && Writes(s, t, n, op) && peer in s.nodes && owner in s.nodes && peer != owner
    ensures PeerOk(t, peer, owner)
  {
    assert PeerOk(s, peer, owner) && OwnerOk(s, n);
    if peer == n {
      WriteElsewhere(s.nodes[n], n, op, owner);
    } else {
      assert t.nodes[peer] == s.nodes[peer];
    }
    assert s.past[owner] <= t.past[owner];
  }

  lemma WritesInv(s: Net, t: Net, n: string, op: Op)
    requires Inv(s) && Writes(s, t, n, op)
    ensures Inv(t)
  {
    WriteOwner(s, t, n, op);
    forall o | o in t.nodes && o != n ensures OwnerOk(t, o) {
      WriteOthers(s, t, n, op, o);
    }
    forall m | m in t.sent ensures MsgOk(t, m) {
      if m in s.sent {
        WriteOld(s, t, n, op, m);
      } else {
        WriteNew(s, t, n, op, m);
      }
    }
    forall peer, owner | peer in t.nodes && owner in t.nodes && peer != owner ensures PeerOk(t, peer, owner) {
      WritePeers(s, t, n, op, peer, owner);
    }
  }

  lemma BeatsInv(s: Net, t: Net, n: string)
    requires Inv(s) && Beats(s, t, n)
    ensures Inv(t)
  {
    forall o | o in t.nodes ensures OwnerOk(t, o) {
      assert OwnerOk(s, o);
    }
    forall m | m in t.sent ensures MsgOk(t, m) {
      assert MsgOk(s, m);
    }
    forall peer, owner | peer in t.nodes && owner in t.nodes && peer != owner ensures PeerOk(t, peer, owner) {
      assert PeerOk(s, peer, owner);
      assert Followed(t.nodes[peer], owner) == Followed(s.nodes[peer], owner);
    }
  }

  lemma BroadcastsInv(s: Net, t: Net, n: string, m: Msg)
    requires Inv(s) && Broadcasts(s, t, n, m)
    ensures Inv(t)
  {
    assert OwnerOk(s, n);
    forall o | o in t.nodes ensures OwnerOk(t, o) {
      assert OwnerOk(s, o);
    }
    forall w | w in t.sent ensures MsgOk(t, w) {
      assert w == m || MsgOk(s, w);
    }
    forall peer, owner | peer in t.nodes && owner in t.nodes && peer != owner ensures PeerOk(t, peer, owner) {
      assert PeerOk(s, peer, owner);
    }
  }

  lemma DeliverOwner(s: Net, t: Net, peer: string, m: Msg, n: string)
    requires Inv(s) && Delivers(s, t, peer, m) && n in s.nodes
    ensures OwnerOk(t, n)
  {
    assert OwnerOk(s, n) && MsgOk(s, m);
  }

  lemma DeliverMsg(s: Net, t: Net, peer: string, m: Msg, w: Msg)
    requires Inv(s) && Delivers(s, t, peer, m) && w in s.sent
    ensures MsgOk(t, w)
  {
    assert MsgOk(s, w);
  }

  /** Whether a delivery is taken, by this peer and of this owner. */
  predicate Takes(s: Net, peer: string, m: Msg, p: string, owner: string)
    requires peer in s.nodes
  {
    p == peer && owner == m.n && Some(m.n) != s.nodes[peer].selfId && Accepts(s.nodes[peer], m)
  }

  lemma DeliverUntaken(s: Net, t: Net, peer: string, m: Msg, p: string, owner: string)
    requires Inv(s) && Delivers(s, t, peer, m) && p in s.nodes && owner in s.nodes && p != owner
    requires !Takes(s, peer, m, p, owner)
    ensures PeerOk(t, p, owner)
  {
    assert PeerOk(s, p, owner);
    assert Followed(t.nodes[p], owner) == Followed(s.nodes[p], owner);
    assert SliceIn(t.nodes[p].replica, owner) == SliceIn(s.nodes[p].replica, owner);
    assert InStep(t, p, owner) == InStep(s, p, owner);
  }

  /** A message taken leaves its peer no further than the owner, and in step after a snapshot or the next delta. */
  lemma DeliverTaken(s: Net, t: Net, peer: string, m: Msg)
    requires Inv(s) && Delivers(s, t, peer, m) && m.n in s.nodes && peer != m.n && Takes(s, peer, m, peer, m.n)
    ensures PeerOk(t, peer, m.n)
  {
    assert PeerOk(s, peer, m.n) && MsgOk(s, m);
    assert Followed(t.nodes[peer], m.n) == m.q;
  }

  lemma DeliversInv(s: Net, t: Net, peer: string, m: Msg)
    requires Inv(s) && Delivers(s, t, peer, m)
    ensures Inv(t)
  {
    forall n | n in t.nodes ensures OwnerOk(t, n) {
      DeliverOwner(s, t, peer, m, n);
    }
    forall w | w in t.sent ensures MsgOk(t, w) {
      DeliverMsg(s, t, peer, m, w);
    }
    forall p, owner | p in t.nodes && owner in t.nodes && p != owner ensures PeerOk(t, p, owner) {
      if Takes(s, peer, m, p, owner) {
        DeliverTaken(s, t, peer, m);
      } else {
        DeliverUntaken(s, t, peer, m, p, owner);
      }
    }
  }

  lemma InitInv(s: Net)
    requires Init(s)
    ensures Inv(s)
  {
  }

  lemma StepInv(s: Net, t: Net)
    requires Inv(s) && Next(s, t)
    ensures Inv(t)
  {
    if n, op :| Writes(s, t, n, op) {
      WritesInv(s, t, n, op);
    } else if n :| Beats(s, t, n) {
      BeatsInv(s, t, n);
    } else if n, m :| Broadcasts(s, t, n, m) {
      BroadcastsInv(s, t, n, m);
    } else {
      var peer, m :| Delivers(s, t, peer, m);
      DeliversInv(s, t, peer, m);
    }
  }

  /** In every state of every run. */
  lemma {:induction false} RunInv(states: seq<Net>, i: nat)
    requires Run(states) && i < |states|
    ensures Inv(states[i])
  {
    if i == 0 {
      InitInv(states[0]);
    } else {
      RunInv(states, i - 1);
      assert StepAt(states, i - 1);
      StepInv(states[i - 1], states[i]);
    }
  }

  lemma QuietForward(s: Net, t: Net, peer: string, owner: string)
    requires peer in s.nodes
    requires (exists n, op :: Writes(s, t, n, op)) || (exists n :: Beats(s, t, n)) ||
              (exists n, m :: Broadcasts(s, t, n, m))
    ensures peer in t.nodes && t.nodes[peer].applied == s.nodes[peer].applied
  {
    if n, op :| Writes(s, t, n, op) {
    } else if n :| Beats(s, t, n) {
    } else {
      var n, m :| Broadcasts(s, t, n, m);
    }
  }

  lemma DeliverForward(s: Net, t: Net, p: string, m: Msg, peer: string, owner: string)
    requires Inv(s) && peer in s.nodes && Delivers(s, t, p, m)
    ensures peer in t.nodes && Followed(t.nodes[peer], owner) >= Followed(s.nodes[peer], owner)
  {
    assert MsgOk(s, m);
  }

  /** What a peer has followed never goes back. */
  lemma StepForward(s: Net, t: Net, peer: string, owner: string)
    requires Inv(s) && Next(s, t) && peer in s.nodes
    ensures peer in t.nodes && Followed(t.nodes[peer], owner) >= Followed(s.nodes[peer], owner)
  {
    if p, m :| Delivers(s, t, p, m) {
      DeliverForward(s, t, p, m, peer, owner);
    } else {
      QuietForward(s, t, peer, owner);
    }
  }

  lemma RunStepForward(states: seq<Net>, i: nat, peer: string, owner: string)
    requires Run(states) && i + 1 < |states| && peer in states[i].nodes
    ensures peer in states[i + 1].nodes
    ensures Followed(states[i + 1].nodes[peer], owner) >= Followed(states[i].nodes[peer], owner)
  {
    RunInv(states, i);
    assert StepAt(states, i);
    StepForward(states[i], states[i + 1], peer, owner);
  }

  lemma {:induction false} RunForward(states: seq<Net>, i: nat, j: nat, peer: string, owner: string)
    requires Run(states) && i <= j < |states| && peer in states[i].nodes
    ensures peer in states[j].nodes && Followed(states[j].nodes[peer], owner) >= Followed(states[i].nodes[peer], owner)
    decreases j - i
  {
    if i < j {
      RunForward(states, i, j - 1, peer, owner);
      RunStepForward(states, j - 1, peer, owner);
    }
  }

  /**
   * Presence reconciles. In any run, under loss, duplication and reordering: a peer follows no further than its owner
   * went; a snapshot it takes leaves it the owner's slice as it was at that number, whatever it missed before; and
   * while in step it holds the owner's slice as it was where it has followed to, so the current one once it has
   * followed all.
   */
  lemma PresenceReconciles(states: seq<Net>, i: nat, peer: string, owner: string)
    requires Run(states) && i < |states| && peer in states[i].nodes && owner in states[i].nodes && peer != owner
    ensures Inv(states[i])
    ensures Followed(states[i].nodes[peer], owner) <= states[i].nodes[owner].selfSeq
    ensures InStep(states[i], peer, owner) ==>
              SliceIn(states[i].nodes[peer].replica, owner) ==
                states[i].past[owner][Followed(states[i].nodes[peer], owner)]
    ensures InStep(states[i], peer, owner) &&
            Followed(states[i].nodes[peer], owner) == states[i].nodes[owner].selfSeq ==>
              SliceIn(states[i].nodes[peer].replica, owner) == OwnSlice(states[i].nodes[owner], owner)
  {
    RunInv(states, i);
    assert OwnerOk(states[i], owner) && PeerOk(states[i], peer, owner);
  }

  lemma SnapshotHeals(s: Net, t: Net, peer: string, m: Msg)
    requires Inv(s) && Delivers(s, t, peer, m) && m.Snapshot? && m.n != peer && Accepts(s.nodes[peer], m)
    ensures InStep(t, peer, m.n) && Followed(t.nodes[peer], m.n) == m.q
    ensures m.n in s.past && m.q < |s.past[m.n]| && SliceIn(t.nodes[peer].replica, m.n) == s.past[m.n][m.q]
  {
    assert MsgOk(s, m) && OwnerOk(s, peer);
  }
}
