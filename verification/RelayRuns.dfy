/**
 The relay's connections at work: taking an id, registering, being superseded,
 deregistering and routing, interleaved one registry lock or one queue
 operation at a time.

 A reader resolves the recipients of a frame under the registry lock and enqueues
 to them afterwards, so anything may happen to those recipients in between.
 */
module RelayRuns {
  import opened Basics
  import opened StoreModel
  import opened Registry

  /** The place a connection claims: a name in a room. */
  datatype Home = Home(room: RoomId, name: Name)

  datatype Request = Send(to: Name) | Announce

  /** The `number`-th request read from connection `from`, as placed in a queue. */
  datatype Delivery = Delivery(from: nat, number: nat)

  /** A read half: what it has read, and what its latest request still has to reach. */
  datatype Reader = Reader(requests: seq<Request>, addressed: set<Name>, targets: seq<nat>, counts: Fanout)

  datatype Relay = Relay(
    rooms: Rooms,
    nextId: nat,
    evicted: set<nat>,
    queues: map<nat, Queue<Delivery>>,
    readers: map<nat, Reader>,
    // What happened so far; no step consults it.
    homes: map<nat, Home>,
    arrivals: seq<nat>,
    departed: set<nat>,
    removed: set<nat>,
    placed: map<nat, seq<Delivery>>,
    taken: map<nat, nat>)

  datatype Step =
    | TakeId(home: Home)
    | Register(id: nat)
    | Deregister(id: nat)
    | ReadSend(id: nat, to: Name)
    | ReadAnnounce(id: nat, names: seq<Name>, handles: seq<nat>)
    | Enqueue(id: nat)
    | WriterTakes(id: nat)
    | DropReceiver(id: nat)

  ghost predicate Initial(s: Relay) {
    s == Relay(map[], 1, {}, map[], map[], map[], [], {}, {}, map[], map[])
  }

  /** Every connection that registered has a queue, a reader and a log. */
  ghost predicate Tracked(s: Relay, id: nat) {
    id in s.homes && id in s.queues && id in s.readers && id in s.placed && id in s.taken
  }

  ghost predicate Enabled(s: Relay, step: Step) {
    match step
    case TakeId(_) => true
    case Register(id) => id in s.homes && id !in s.arrivals
    case Deregister(id) => Tracked(s, id) && id !in s.departed
    case ReadSend(id, _) => Tracked(s, id) && s.readers[id].targets == []
    case ReadAnnounce(id, names, handles) =>
      && Tracked(s, id) && s.readers[id].targets == []
      && Lists(Others(s.rooms, s.homes[id].room, s.homes[id].name), names, handles)
    case Enqueue(id) => Tracked(s, id) && s.readers[id].targets != [] && Tracked(s, s.readers[id].targets[0])
    case WriterTakes(id) => Tracked(s, id) && s.queues[id].open && s.queues[id].items != []
    case DropReceiver(id) => Tracked(s, id)
  }

  ghost function Apply(s: Relay, step: Step): Relay
    requires Enabled(s, step)
  {
    match step
    case TakeId(home) => s.(nextId := s.nextId + 1, homes := s.homes[s.nextId := home])
    case Register(id) => Registering(s, id, s.homes[id])
    case Deregister(id) => Deregistering(s, id, s.homes[id])
    case ReadSend(id, to) =>
      var peers := PeersOf(s.rooms, s.homes[id].room);
      if to in peers then Reading(s, id, Send(to), {to}, [peers[to]]) else Reading(s, id, Send(to), {}, [])
    case ReadAnnounce(id, names, handles) =>
      Reading(s, id, Announce, Others(s.rooms, s.homes[id].room, s.homes[id].name).Keys, handles)
    case Enqueue(id) => Enqueueing(s, id, s.readers[id].targets[0])
    case WriterTakes(id) =>
      s.(queues := s.queues[id := s.queues[id].(items := s.queues[id].items[1..])],
         taken := s.taken[id := s.taken[id] + 1])
    case DropReceiver(id) => s.(queues := s.queues[id := s.queues[id].(open := false)])
  }

  ghost function Registering(s: Relay, id: nat, home: Home): Relay {
    var peers := PeersOf(s.rooms, home.room);
    s.(rooms := InsertPeer(s.rooms, home.room, home.name, id),
       evicted := if home.name in peers then s.evicted + {peers[home.name]} else s.evicted,
       queues := s.queues[id := Queue([], true)],
       readers := s.readers[id := Reader([], {}, [], Fanout(0, 0))],
       arrivals := s.arrivals + [id],
       placed := s.placed[id := []],
       taken := s.taken[id := 0])
  }

  ghost function Deregistering(s: Relay, id: nat, home: Home): Relay {
    s.(rooms := RemovePeer(s.rooms, home.room, home.name, id),
       departed := s.departed + {id},
       removed := if Registered(s.rooms, home.room, home.name, id) then s.removed + {id} else s.removed)
  }

  ghost function Reading(s: Relay, id: nat, request: Request, addressed: set<Name>, targets: seq<nat>): Relay
    requires id in s.readers
  {
    s.(readers := s.readers[id := Reader(s.readers[id].requests + [request], addressed, targets, Fanout(0, 0))])
  }

  ghost function Enqueueing(s: Relay, id: nat, to: nat): Relay
    requires id in s.readers && s.readers[id].targets != [] && to in s.queues && to in s.placed
  {
    var reader := s.readers[id];
    var item := Delivery(id, |reader.requests|);
    var (queue, outcome) := Offer(s.queues[to], item);
    var counts := if outcome == Routed then reader.counts.(delivered := reader.counts.delivered + 1)
                  else reader.counts.(shed := reader.counts.shed + 1);
    s.(queues := s.queues[to := queue],
       placed := if outcome == Routed then s.placed[to := s.placed[to] + [item]] else s.placed,
       readers := s.readers[id := reader.(targets := reader.targets[1..], counts := counts)])
  }

  // Who owns a name

  ghost function Owner(rooms: Rooms, home: Home): Option<nat> {
    var peers := PeersOf(rooms, home.room);
    if home.name in peers then Some(peers[home.name]) else None
  }

  /** The last connection to have registered under a name. */
  ghost function Last(arrivals: seq<nat>, homes: map<nat, Home>, home: Home): (last: Option<nat>)
    ensures last.Some? ==> last.value in arrivals && last.value in homes && homes[last.value] == home
  {
    if arrivals == [] then None
    else
      var k := |arrivals| - 1;
      var id := arrivals[k];
      if id in homes && homes[id] == home then Some(id) else Last(arrivals[..k], homes, home)
  }

  /** Who should own a name: the last to register under it, unless it has gone. */
  ghost function Rightful(arrivals: seq<nat>, homes: map<nat, Home>, departed: set<nat>, home: Home): Option<nat> {
    match Last(arrivals, homes, home)
    case Some(id) => if id in departed then None else Some(id)
    case None => None
  }

  ghost predicate IdsOk(s: Relay) {
    && 1 <= s.nextId
    && (forall id :: id in s.homes <==> 1 <= id < s.nextId)
    && (forall id :: id in s.arrivals ==> id in s.homes)
    && (forall id :: id in s.arrivals <==> id in s.readers)
    && s.readers.Keys == s.queues.Keys == s.placed.Keys == s.taken.Keys
    && (forall id :: id in s.departed ==> id in s.arrivals)
    && s.removed <= s.departed
    && s.evicted <= s.homes.Keys
  }

  ghost predicate RoomsOk(rooms: Rooms) {
    forall r :: r in rooms ==> rooms[r] != map[]
  }

  ghost predicate OwnersOk(s: Relay) {
    forall home :: Owner(s.rooms, home) == Rightful(s.arrivals, s.homes, s.departed, home)
  }

  /** The evict flag is set exactly on a connection that was displaced before it could leave. */
  ghost predicate FateOk(s: Relay, id: nat)
    requires id in s.homes
  {
    var last := Last(s.arrivals, s.homes, s.homes[id]);
    && (id in s.evicted <==> id in s.arrivals && id !in s.removed && last != Some(id))
    && (id in s.departed && last == Some(id) ==> id in s.removed)
  }

  ghost predicate FatesOk(s: Relay) {
    forall id :: id in s.homes ==> FateOk(s, id)
  }

  ghost predicate NamesOk(s: Relay) {
    IdsOk(s) && RoomsOk(s.rooms) && OwnersOk(s) && FatesOk(s)
  }

  lemma LastGrows(arrivals: seq<nat>, homes: map<nat, Home>, home: Home, id: nat)
    requires id in homes
    ensures Last(arrivals + [id], homes, home) == if homes[id] == home then Some(id) else Last(arrivals, homes, home)
  {
    assert (arrivals + [id])[..|arrivals|] == arrivals;
  }

  lemma {:induction false} LastKept(arrivals: seq<nat>, homes: map<nat, Home>, home: Home, id: nat, claim: Home)
    requires id !in arrivals
    ensures Last(arrivals, homes[id := claim], home) == Last(arrivals, homes, home)
  {
    if arrivals != [] {
      LastKept(arrivals[..|arrivals| - 1], homes, home, id, claim);
    }
  }

  lemma OwnerAfterInsert(rooms: Rooms, home: Home, id: nat, other: Home)
    ensures Owner(InsertPeer(rooms, home.room, home.name, id), other)
         == if other == home then Some(id) else Owner(rooms, other)
  {
  }

  lemma OwnerAfterRemove(rooms: Rooms, home: Home, id: nat, other: Home)
    ensures Owner(RemovePeer(rooms, home.room, home.name, id), other)
         == if other == home && Owner(rooms, home) == Some(id) then None else Owner(rooms, other)
  {
  }

  // Registering

  lemma RegisterKeepsOwners(s: Relay, id: nat, home: Home)
    requires IdsOk(s) && OwnersOk(s) && Enabled(s, Register(id))
    ensures var t := Apply(s, Register(id));
            Owner(t.rooms, home) == Rightful(t.arrivals, t.homes, t.departed, home)
  {
    hide RoomsOk, InsertPeer, Owner, Last;
    OwnerAfterInsert(s.rooms, s.homes[id], id, home);
    LastGrows(s.arrivals, s.homes, home, id);
    assert Owner(s.rooms, home) == Rightful(s.arrivals, s.homes, s.departed, home);
  }

  lemma RegisterEvicts(s: Relay, id: nat)
    requires OwnersOk(s) && Enabled(s, Register(id))
    ensures Apply(s, Register(id)).evicted
         == match Rightful(s.arrivals, s.homes, s.departed, s.homes[id])
            case Some(held) => s.evicted + {held}
            case None => s.evicted
  {
    hide InsertPeer, Rightful;
    assert Owner(s.rooms, s.homes[id]) == Rightful(s.arrivals, s.homes, s.departed, s.homes[id]);
  }

  lemma RegisterKeepsFate(s: Relay, id: nat, other: nat)
    requires NamesOk(s) && Enabled(s, Register(id)) && other in s.homes
    ensures FateOk(Apply(s, Register(id)), other)
  {
    hide RoomsOk, InsertPeer, Owner, Last, OwnersOk;
    RegisterEvicts(s, id);
    LastGrows(s.arrivals, s.homes, s.homes[other], id);
    assert FateOk(s, other);
  }

  lemma RegisterKeepsIds(s: Relay, id: nat)
    requires IdsOk(s) && OwnersOk(s) && RoomsOk(s.rooms) && Enabled(s, Register(id))
    ensures IdsOk(Apply(s, Register(id))) && RoomsOk(Apply(s, Register(id)).rooms)
  {
    hide Owner, Last, OwnersOk;
    RegisterEvicts(s, id);
    assert s.homes[id].name in Apply(s, Register(id)).rooms[s.homes[id].room];
  }

  lemma RegisterKeepsNames(s: Relay, id: nat)
    requires NamesOk(s) && Enabled(s, Register(id))
    ensures NamesOk(Apply(s, Register(id)))
  {
    hide Owner, Last, FateOk, Rightful, IdsOk, RoomsOk;
    var t := Apply(s, Register(id));
    RegisterKeepsIds(s, id);
    forall home ensures Owner(t.rooms, home) == Rightful(t.arrivals, t.homes, t.departed, home) {
      RegisterKeepsOwners(s, id, home);
    }
    forall other | other in t.homes ensures FateOk(t, other) {
      RegisterKeepsFate(s, id, other);
    }
  }

  // Deregistering

  /** A stale deregistration changes nothing; one that is not takes the name with it. */
  lemma DeregisterRemoves(s: Relay, id: nat)
    requires OwnersOk(s) && IdsOk(s) && Enabled(s, Deregister(id))
    ensures var t := Apply(s, Deregister(id));
            if Last(s.arrivals, s.homes, s.homes[id]) == Some(id)
            then t.removed == s.removed + {id} && Owner(s.rooms, s.homes[id]) == Some(id)
            else t.removed == s.removed && t.rooms == s.rooms && Owner(s.rooms, s.homes[id]) != Some(id)
  {
    assert Owner(s.rooms, s.homes[id]) == Rightful(s.arrivals, s.homes, s.departed, s.homes[id]);
  }

  lemma DeregisterKeepsOwners(s: Relay, id: nat, home: Home)
    requires IdsOk(s) && OwnersOk(s) && Enabled(s, Deregister(id))
    ensures var t := Apply(s, Deregister(id));
            Owner(t.rooms, home) == Rightful(t.arrivals, t.homes, t.departed, home)
  {
    hide RoomsOk, RemovePeer, Owner, IdsOk;
    OwnerAfterRemove(s.rooms, s.homes[id], id, home);
    assert Owner(s.rooms, home) == Rightful(s.arrivals, s.homes, s.departed, home);
    assert Owner(s.rooms, s.homes[id]) == Rightful(s.arrivals, s.homes, s.departed, s.homes[id]);
  }

  lemma DeregisterKeepsFate(s: Relay, id: nat, other: nat)
    requires NamesOk(s) && Enabled(s, Deregister(id)) && other in s.homes
    ensures FateOk(Apply(s, Deregister(id)), other)
  {
    hide RoomsOk, RemovePeer, Owner, OwnersOk;
    DeregisterRemoves(s, id);
    assert FateOk(s, other);
  }

  lemma RemoveKeepsRooms(rooms: Rooms, home: Home, id: nat)
    requires RoomsOk(rooms)
    ensures RoomsOk(RemovePeer(rooms, home.room, home.name, id))
  {
  }

  lemma DeregisterKeepsNames(s: Relay, id: nat)
    requires NamesOk(s) && Enabled(s, Deregister(id))
    ensures NamesOk(Apply(s, Deregister(id)))
  {
    hide Owner, Last, Rightful, FateOk, RoomsOk, RemovePeer;
    var t := Apply(s, Deregister(id));
    DeregisterRemoves(s, id);
    RemoveKeepsRooms(s.rooms, s.homes[id], id);
    forall home ensures Owner(t.rooms, home) == Rightful(t.arrivals, t.homes, t.departed, home) {
      DeregisterKeepsOwners(s, id, home);
    }
    forall other | other in t.homes ensures FateOk(t, other) {
      DeregisterKeepsFate(s, id, other);
    }
  }

  lemma TakeIdKeepsNames(s: Relay, claim: Home)
    requires NamesOk(s)
    ensures NamesOk(Apply(s, TakeId(claim)))
  {
    var t := Apply(s, TakeId(claim));
    var id := s.nextId;
    assert id !in s.arrivals;
    forall home ensures Owner(t.rooms, home) == Rightful(t.arrivals, t.homes, t.departed, home) {
      LastKept(s.arrivals, s.homes, home, id, claim);
      assert Owner(s.rooms, home) == Rightful(s.arrivals, s.homes, s.departed, home);
    }
    forall other | other in t.homes ensures FateOk(t, other) {
      LastKept(s.arrivals, s.homes, t.homes[other], id, claim);
      if other != id {
        assert FateOk(s, other);
      }
    }
  }

  /** Steps that leave the registry and its history alone leave its properties alone. */
  lemma NamesFrame(s: Relay, t: Relay)
    requires NamesOk(s) && IdsOk(t)
    requires t.rooms == s.rooms && t.arrivals == s.arrivals && t.homes == s.homes
    requires t.departed == s.departed && t.removed == s.removed && t.evicted == s.evicted
    ensures NamesOk(t)
  {
    hide Owner, Rightful, Last;
    forall id | id in t.homes ensures FateOk(t, id) {
      assert FateOk(s, id);
    }
  }

  // What reaches which queue

  /** A connection a request may reach: in the sender's room, and under the right name. */
  ghost predicate Suits(homes: map<nat, Home>, from: nat, to: nat, request: Request) {
    && from in homes && to in homes && homes[to].room == homes[from].room
    && match request
       case Send(name) => homes[to].name == name
       case Announce => homes[to].name != homes[from].name
  }

  ghost predicate FromRequest(homes: map<nat, Home>, readers: map<nat, Reader>, to: nat, d: Delivery) {
    && d.from in readers && 1 <= d.number <= |readers[d.from].requests|
    && Suits(homes, d.from, to, readers[d.from].requests[d.number - 1])
  }

  /** Within one sender, later entries come from later requests. */
  ghost predicate InReadOrder(log: seq<Delivery>) {
    forall i, j :: 0 <= i < j < |log| && log[i].from == log[j].from ==> log[i].number < log[j].number
  }

  ghost predicate LogOk(homes: map<nat, Home>, readers: map<nat, Reader>, to: nat, log: seq<Delivery>) {
    && (forall d :: d in log ==> FromRequest(homes, readers, to, d))
    && InReadOrder(log)
  }

  /** A recipient still to be reached has nothing of this request yet. */
  ghost predicate Awaits(homes: map<nat, Home>, placed: map<nat, seq<Delivery>>, id: nat, requests: seq<Request>,
                         to: nat)
  {
    && to in placed && requests != []
    && Suits(homes, id, to, requests[|requests| - 1])
    && forall d :: d in placed[to] && d.from == id ==> d.number < |requests|
  }

  ghost predicate Distinct(targets: seq<nat>) {
    forall i, j :: 0 <= i < j < |targets| ==> targets[i] != targets[j]
  }

  ghost predicate ReaderOk(homes: map<nat, Home>, placed: map<nat, seq<Delivery>>, id: nat, reader: Reader) {
    && (forall to :: to in reader.targets ==> Awaits(homes, placed, id, reader.requests, to))
    && Distinct(reader.targets)
    && reader.counts.delivered + reader.counts.shed + |reader.targets| == |reader.addressed|
  }

  /** The connections whose queues took a request. */
  ghost function Reached(placed: map<nat, seq<Delivery>>, id: nat, number: nat): set<nat> {
    set to | to in placed && Delivery(id, number) in placed[to]
  }

  ghost predicate CountOk(placed: map<nat, seq<Delivery>>, id: nat, reader: Reader) {
    |Reached(placed, id, |reader.requests|)| == reader.counts.delivered
  }

  ghost predicate QueueOk(queue: Queue<Delivery>, log: seq<Delivery>, taken: nat) {
    taken <= |log| && queue.items == log[taken..] && |queue.items| <= OUTBOUND_QUEUE_CAPACITY
  }

  ghost predicate TrafficOk(s: Relay) {
    && (forall id :: id in s.placed ==> LogOk(s.homes, s.readers, id, s.placed[id]))
    && (forall id :: id in s.readers ==> ReaderOk(s.homes, s.placed, id, s.readers[id]))
    && (forall id :: id in s.readers ==> CountOk(s.placed, id, s.readers[id]))
    && (forall id :: id in s.queues && id in s.placed && id in s.taken ==>
          QueueOk(s.queues[id], s.placed[id], s.taken[id]))
  }

  ghost predicate Inv(s: Relay) {
    NamesOk(s) && TrafficOk(s)
  }

  lemma TakeIdKeepsTraffic(s: Relay, claim: Home)
    requires IdsOk(s) && TrafficOk(s)
    ensures TrafficOk(Apply(s, TakeId(claim)))
  {
    hide InReadOrder, QueueOk, CountOk;
    var t := Apply(s, TakeId(claim));
    assert s.nextId !in s.homes;
    forall id | id in t.placed ensures LogOk(t.homes, t.readers, id, t.placed[id]) {
      assert LogOk(s.homes, s.readers, id, s.placed[id]);
      forall d | d in s.placed[id] ensures FromRequest(t.homes, t.readers, id, d) {
        assert FromRequest(s.homes, s.readers, id, d);
      }
    }
    forall id | id in t.readers ensures ReaderOk(t.homes, t.placed, id, t.readers[id]) {
      assert ReaderOk(s.homes, s.placed, id, s.readers[id]);
      forall to | to in s.readers[id].targets ensures Awaits(t.homes, t.placed, id, t.readers[id].requests, to) {
        assert Awaits(s.homes, s.placed, id, s.readers[id].requests, to);
      }
    }
  }

  lemma RegisterKeepsCounts(s: Relay, id: nat)
    requires TrafficOk(s) && id !in s.placed && id !in s.readers
    ensures forall c, n :: c in s.readers ==> Reached(s.placed[id := []], c, n) == Reached(s.placed, c, n)
    ensures Reached(s.placed[id := []], id, 0) == {}
  {
    hide ReaderOk, QueueOk, CountOk, InReadOrder, Suits;
    forall to | to in s.placed ensures Delivery(id, 0) !in s.placed[to] {
      assert LogOk(s.homes, s.readers, to, s.placed[to]);
    }
  }

  lemma NothingInOrder()
    ensures InReadOrder([])
  {
  }

  lemma RegisterKeepsLogs(s: Relay, id: nat)
    requires TrafficOk(s) && id in s.homes && id !in s.placed && id !in s.readers
    ensures var t := Registering(s, id, s.homes[id]);
            forall to :: to in t.placed ==> LogOk(t.homes, t.readers, to, t.placed[to])
  {
    hide InsertPeer, PeersOf, Suits, InReadOrder, ReaderOk, CountOk, QueueOk;
    var t := Registering(s, id, s.homes[id]);
    NothingInOrder();
    forall to | to in t.placed ensures LogOk(t.homes, t.readers, to, t.placed[to]) {
      assert to == id || LogOk(s.homes, s.readers, to, s.placed[to]);
    }
  }

  lemma RegisterKeepsReaders(s: Relay, id: nat)
    requires TrafficOk(s) && id in s.homes && id !in s.placed && id !in s.readers
    ensures var t := Registering(s, id, s.homes[id]);
            forall other :: other in t.readers ==> ReaderOk(t.homes, t.placed, other, t.readers[other])
  {
    hide InsertPeer, PeersOf, Suits, LogOk, CountOk, QueueOk;
    var t := Registering(s, id, s.homes[id]);
    forall other | other in t.readers ensures ReaderOk(t.homes, t.placed, other, t.readers[other]) {
      assert other == id || ReaderOk(s.homes, s.placed, other, s.readers[other]);
    }
  }

  lemma RegisterKeepsTraffic(s: Relay, id: nat)
    requires IdsOk(s) && TrafficOk(s) && Enabled(s, Register(id))
    ensures TrafficOk(Apply(s, Register(id)))
  {
    hide InsertPeer, PeersOf, LogOk, ReaderOk, Reached;
    assert id !in s.placed && id !in s.readers;
    RegisterKeepsCounts(s, id);
    RegisterKeepsLogs(s, id);
    RegisterKeepsReaders(s, id);
  }

  // Reading a request

  /** A handle found under a name belongs to a connection that registered under it. */
  lemma FoundSuits(s: Relay, room: RoomId, name: Name)
    requires IdsOk(s) && OwnersOk(s) && name in PeersOf(s.rooms, room)
    ensures var to := PeersOf(s.rooms, room)[name];
            to in s.homes && s.homes[to] == Home(room, name) && to in s.placed
  {
    hide Last;
    assert Owner(s.rooms, Home(room, name)) == Rightful(s.arrivals, s.homes, s.departed, Home(room, name));
  }

  lemma FoundSuitsAll(s: Relay, id: nat, names: seq<Name>, handles: seq<nat>)
    requires IdsOk(s) && OwnersOk(s) && id in s.homes
    requires Lists(Others(s.rooms, s.homes[id].room, s.homes[id].name), names, handles)
    ensures forall to :: to in handles ==> to in s.placed && Suits(s.homes, id, to, Announce)
    ensures Distinct(handles)
  {
    hide IdsOk, OwnersOk;
    var room := s.homes[id].room;
    forall i | 0 <= i < |names|
      ensures handles[i] in s.homes && s.homes[handles[i]] == Home(room, names[i]) && handles[i] in s.placed
      ensures names[i] != s.homes[id].name
    {
      FoundSuits(s, room, names[i]);
    }
  }

  lemma ReadingKeepsLogs(s: Relay, id: nat, request: Request, addressed: set<Name>, targets: seq<nat>)
    requires TrafficOk(s) && id in s.readers
    ensures var t := Reading(s, id, request, addressed, targets);
            forall to :: to in t.placed ==> LogOk(t.homes, t.readers, to, t.placed[to])
  {
    hide Suits, InReadOrder, ReaderOk, QueueOk, CountOk;
    var t := Reading(s, id, request, addressed, targets);
    forall to | to in t.placed ensures LogOk(t.homes, t.readers, to, t.placed[to]) {
      assert LogOk(s.homes, s.readers, to, s.placed[to]);
    }
  }

  lemma ReadingKeepsTraffic(s: Relay, id: nat, request: Request, addressed: set<Name>, targets: seq<nat>)
    requires TrafficOk(s) && id in s.readers
    requires forall to :: to in targets ==> to in s.placed && Suits(s.homes, id, to, request)
    requires Distinct(targets) && |addressed| == |targets|
    ensures TrafficOk(Reading(s, id, request, addressed, targets))
  {
    hide Suits, InReadOrder, QueueOk;
    assert Reached(s.placed, id, |s.readers[id].requests| + 1) == {} by {
      forall to | to in s.placed ensures Delivery(id, |s.readers[id].requests| + 1) !in s.placed[to] {
        assert LogOk(s.homes, s.readers, to, s.placed[to]);
      }
    }
    var t := Reading(s, id, request, addressed, targets);
    ReadingKeepsLogs(s, id, request, addressed, targets);
    forall to | to in targets ensures Awaits(t.homes, t.placed, id, t.readers[id].requests, to) {
      assert LogOk(s.homes, s.readers, to, s.placed[to]);
    }
  }

  // Enqueueing to one recipient

  lemma LaterInOrder(log: seq<Delivery>, d: Delivery)
    requires InReadOrder(log) && forall e :: e in log && e.from == d.from ==> e.number < d.number
    ensures InReadOrder(log + [d])
  {
  }

  lemma EnqueueingKeepsLogs(s: Relay, id: nat, to: nat)
    requires TrafficOk(s) && Tracked(s, id) && Tracked(s, to)
    requires s.readers[id].targets != [] && to == s.readers[id].targets[0]
    ensures var t := Enqueueing(s, id, to);
            forall c :: c in t.placed ==> LogOk(t.homes, t.readers, c, t.placed[c])
  {
    hide Suits, QueueOk, CountOk, InReadOrder;
    var t := Enqueueing(s, id, to);
    assert to in s.readers[id].targets;
    assert ReaderOk(s.homes, s.placed, id, s.readers[id]);
    assert Awaits(s.homes, s.placed, id, s.readers[id].requests, to);
    assert LogOk(s.homes, s.readers, to, s.placed[to]);
    LaterInOrder(s.placed[to], Delivery(id, |s.readers[id].requests|));
    forall c | c in t.placed ensures LogOk(t.homes, t.readers, c, t.placed[c]) {
      assert LogOk(s.homes, s.readers, c, s.placed[c]);
      assert LogOk(t.homes, t.readers, c, s.placed[c]);
    }
  }

  lemma EnqueueingKeepsReaders(s: Relay, id: nat, to: nat)
    requires TrafficOk(s) && Tracked(s, id) && Tracked(s, to)
    requires s.readers[id].targets != [] && to == s.readers[id].targets[0]
    ensures var t := Enqueueing(s, id, to);
            forall c :: c in t.readers ==> ReaderOk(t.homes, t.placed, c, t.readers[c])
  {
    hide Suits, QueueOk, LogOk;
    var t := Enqueueing(s, id, to);
    forall c | c in t.readers ensures ReaderOk(t.homes, t.placed, c, t.readers[c]) {
      var reader := s.readers[c];
      assert ReaderOk(s.homes, s.placed, c, reader);
      forall r | r in t.readers[c].targets ensures Awaits(t.homes, t.placed, c, reader.requests, r) {
        assert r in reader.targets;
      }
    }
  }

  lemma EnqueueingKeepsCounts(s: Relay, id: nat, to: nat)
    requires TrafficOk(s) && Tracked(s, id) && Tracked(s, to)
    requires s.readers[id].targets != [] && to == s.readers[id].targets[0]
    ensures var t := Enqueueing(s, id, to);
            forall c :: c in t.readers ==> CountOk(t.placed, c, t.readers[c])
  {
    hide Suits, QueueOk, LogOk;
    var t := Enqueueing(s, id, to);
    var n := |s.readers[id].requests|;
    assert ReaderOk(s.homes, s.placed, id, s.readers[id]);
    assert Awaits(s.homes, s.placed, id, s.readers[id].requests, to);
    assert to !in Reached(s.placed, id, n);
    forall c | c in t.readers ensures CountOk(t.placed, c, t.readers[c]) {
      assert CountOk(s.placed, c, s.readers[c]);
      if c == id && Offer(s.queues[to], Delivery(id, n)).1 == Routed {
        assert Reached(t.placed, id, n) == Reached(s.placed, id, n) + {to};
      } else {
        assert Reached(t.placed, c, |s.readers[c].requests|) == Reached(s.placed, c, |s.readers[c].requests|);
      }
    }
  }

  lemma EnqueueingKeepsQueues(s: Relay, id: nat, to: nat)
    requires TrafficOk(s) && Tracked(s, id) && Tracked(s, to)
    requires s.readers[id].targets != [] && to == s.readers[id].targets[0]
    ensures var t := Enqueueing(s, id, to);
            forall c :: c in t.queues && c in t.placed && c in t.taken ==> QueueOk(t.queues[c], t.placed[c], t.taken[c])
  {
    hide ReaderOk, LogOk, CountOk;
    var t := Enqueueing(s, id, to);
    assert QueueOk(s.queues[to], s.placed[to], s.taken[to]);
    var item := Delivery(id, |s.readers[id].requests|);
    assert (s.placed[to] + [item])[s.taken[to]..] == s.placed[to][s.taken[to]..] + [item];
  }

  lemma EnqueueKeepsTraffic(s: Relay, id: nat)
    requires TrafficOk(s) && Enabled(s, Enqueue(id))
    ensures TrafficOk(Apply(s, Enqueue(id)))
  {
    hide ReaderOk, LogOk, QueueOk, CountOk, Enqueueing;
    var to := s.readers[id].targets[0];
    EnqueueingKeepsLogs(s, id, to);
    EnqueueingKeepsReaders(s, id, to);
    EnqueueingKeepsCounts(s, id, to);
    EnqueueingKeepsQueues(s, id, to);
  }

  lemma WriterKeepsTraffic(s: Relay, id: nat)
    requires TrafficOk(s) && Enabled(s, WriterTakes(id))
    ensures TrafficOk(Apply(s, WriterTakes(id)))
  {
    hide ReaderOk, LogOk, CountOk;
    assert QueueOk(s.queues[id], s.placed[id], s.taken[id]);
    assert s.placed[id][s.taken[id]..][1..] == s.placed[id][s.taken[id] + 1..];
  }

  lemma DropKeepsTraffic(s: Relay, id: nat)
    requires TrafficOk(s) && Enabled(s, DropReceiver(id))
    ensures TrafficOk(Apply(s, DropReceiver(id)))
  {
    hide ReaderOk, LogOk, CountOk;
    assert QueueOk(s.queues[id], s.placed[id], s.taken[id]);
  }

  // Whole runs

  lemma SendSuits(s: Relay, id: nat, to: Name)
    requires IdsOk(s) && OwnersOk(s) && id in s.homes && to in PeersOf(s.rooms, s.homes[id].room)
    ensures var c := PeersOf(s.rooms, s.homes[id].room)[to]; c in s.placed && Suits(s.homes, id, c, Send(to))
  {
    hide OwnersOk;
    FoundSuits(s, s.homes[id].room, to);
  }

  lemma ReadSendKeeps(s: Relay, id: nat, to: Name)
    requires Inv(s) && Enabled(s, ReadSend(id, to))
    ensures Inv(Apply(s, ReadSend(id, to)))
  {
    hide TrafficOk, RoomsOk, OwnersOk, FatesOk, Suits;
    var peers := PeersOf(s.rooms, s.homes[id].room);
    if to in peers {
      SendSuits(s, id, to);
      ReadingKeepsTraffic(s, id, Send(to), {to}, [peers[to]]);
    } else {
      ReadingKeepsTraffic(s, id, Send(to), {}, []);
    }
    NamesFrame(s, Apply(s, ReadSend(id, to)));
  }

  lemma ReadAnnounceKeeps(s: Relay, id: nat, names: seq<Name>, handles: seq<nat>)
    requires Inv(s) && Enabled(s, ReadAnnounce(id, names, handles))
    ensures Inv(Apply(s, ReadAnnounce(id, names, handles)))
  {
    hide TrafficOk, RoomsOk, OwnersOk, FatesOk, Suits, Lists, Others;
    var others := Others(s.rooms, s.homes[id].room, s.homes[id].name);
    FoundSuitsAll(s, id, names, handles);
    assert |handles| == |others.Keys| by { ListsAll(others, names, handles); }
    ReadingKeepsTraffic(s, id, Announce, others.Keys, handles);
    NamesFrame(s, Apply(s, ReadAnnounce(id, names, handles)));
  }

  lemma StepKeeps(s: Relay, step: Step)
    requires Inv(s) && Enabled(s, step)
    ensures Inv(Apply(s, step))
  {
    hide NamesOk, TrafficOk, Apply;
    match step
    case TakeId(home) => RegistryStepKeeps(s, step);
    case Register(id) => RegistryStepKeeps(s, step);
    case Deregister(id) => RegistryStepKeeps(s, step);
    case ReadSend(id, to) => ReadSendKeeps(s, id, to);
    case ReadAnnounce(id, names, handles) => ReadAnnounceKeeps(s, id, names, handles);
    case Enqueue(id) => QueueStepKeeps(s, step);
    case WriterTakes(id) => QueueStepKeeps(s, step);
    case DropReceiver(id) => QueueStepKeeps(s, step);
  }

  lemma RegistryStepKeeps(s: Relay, step: Step)
    requires Inv(s) && Enabled(s, step) && (step.TakeId? || step.Register? || step.Deregister?)
    ensures Inv(Apply(s, step))
  {
    hide RoomsOk, OwnersOk, FatesOk, LogOk, ReaderOk, CountOk, QueueOk;
    match step
    case TakeId(home) =>
      TakeIdKeepsNames(s, home);
      TakeIdKeepsTraffic(s, home);
    case Register(id) =>
      RegisterKeepsNames(s, id);
      RegisterKeepsTraffic(s, id);
    case Deregister(id) => DeregisterKeepsNames(s, id);
  }

  /** Queue operations leave the registry, its history and the set of connections alone. */
  ghost predicate SameRegistry(s: Relay, t: Relay) {
    && t.rooms == s.rooms && t.nextId == s.nextId && t.arrivals == s.arrivals && t.homes == s.homes
    && t.departed == s.departed && t.removed == s.removed && t.evicted == s.evicted
    && t.readers.Keys == s.readers.Keys && t.queues.Keys == s.queues.Keys
    && t.placed.Keys == s.placed.Keys && t.taken.Keys == s.taken.Keys
  }

  lemma SameRegistryKeeps(s: Relay, t: Relay)
    requires NamesOk(s) && SameRegistry(s, t)
    ensures NamesOk(t)
  {
    hide RoomsOk, OwnersOk, FatesOk;
    NamesFrame(s, t);
  }

  lemma EnqueueFrame(s: Relay, id: nat)
    requires Enabled(s, Enqueue(id))
    ensures SameRegistry(s, Apply(s, Enqueue(id)))
  {
  }

  lemma WriterFrame(s: Relay, step: Step)
    requires Enabled(s, step) && (step.WriterTakes? || step.DropReceiver?)
    ensures SameRegistry(s, Apply(s, step))
  {
  }

  lemma QueueStepKeeps(s: Relay, step: Step)
    requires Inv(s) && Enabled(s, step) && (step.Enqueue? || step.WriterTakes? || step.DropReceiver?)
    ensures Inv(Apply(s, step))
  {
    hide TrafficOk, NamesOk, Apply, SameRegistry;
    match step {
      case Enqueue(id) =>
        EnqueueKeepsTraffic(s, id);
        EnqueueFrame(s, id);
      case WriterTakes(id) =>
        WriterKeepsTraffic(s, id);
        WriterFrame(s, step);
      case DropReceiver(id) =>
        DropKeepsTraffic(s, id);
        WriterFrame(s, step);
    }
    SameRegistryKeeps(s, Apply(s, step));
  }

  /** Any interleaving of the relay's steps. */
  ghost predicate Run(states: seq<Relay>, steps: seq<Step>) {
    && |states| == |steps| + 1 && Initial(states[0])
    && forall i :: 0 <= i < |steps| ==> Enabled(states[i], steps[i]) && states[i + 1] == Apply(states[i], steps[i])
  }

  lemma {:induction false} RunKeeps(states: seq<Relay>, steps: seq<Step>, i: nat)
    requires Run(states, steps) && i < |states|
    ensures Inv(states[i])
  {
    if i == 0 {
      assert forall home :: Last([], map[], home) == None;
    } else {
      hide Inv, Apply, Initial;
      RunKeeps(states, steps, i - 1);
      StepKeeps(states[i - 1], steps[i - 1]);
    }
  }

  /** A name belongs to the last connection that registered under it, until that one leaves. */
  lemma OwnerIsLastArrival(states: seq<Relay>, steps: seq<Step>, i: nat, home: Home)
    requires Run(states, steps) && i < |states|
    ensures var s := states[i];
            forall id :: Owner(s.rooms, home) == Some(id) <==>
                         Last(s.arrivals, s.homes, home) == Some(id) && id !in s.departed
    ensures home.room in states[i].rooms ==> states[i].rooms[home.room] != map[]
  {
    RunKeeps(states, steps, i);
    hide Owner, Last, TrafficOk;
    var s := states[i];
    assert Owner(s.rooms, home) == Rightful(s.arrivals, s.homes, s.departed, home);
  }

  /** Of the connections that registered, each one is registered, told of its replacement, or left by itself. */
  lemma DisplacedAreTold(states: seq<Relay>, steps: seq<Step>, i: nat, id: nat)
    requires Run(states, steps) && i < |states| && id in states[i].arrivals
    ensures var s := states[i];
            && id in s.homes
            && (Owner(s.rooms, s.homes[id]) == Some(id) <==> id !in s.evicted && id !in s.removed)
            && !(id in s.evicted && id in s.removed)
            && (id in s.evicted <==> id !in s.removed && Last(s.arrivals, s.homes, s.homes[id]) != Some(id))
  {
    RunKeeps(states, steps, i);
    hide Owner, Last, TrafficOk;
    var s := states[i];
    assert FateOk(s, id);
    assert Owner(s.rooms, s.homes[id]) == Rightful(s.arrivals, s.homes, s.departed, s.homes[id]);
  }

  lemma DeregisterEffect(s: Relay, id: nat, home: Home)
    requires NamesOk(s) && Enabled(s, Deregister(id))
    ensures var t := Apply(s, Deregister(id));
            if id in s.evicted then t.rooms == s.rooms
            else Owner(t.rooms, home) == if home == s.homes[id] then None else Owner(s.rooms, home)
  {
    hide Owner, Last, RemovePeer, RoomsOk, OwnersOk;
    assert FateOk(s, id);
    DeregisterRemoves(s, id);
    OwnerAfterRemove(s.rooms, s.homes[id], id, home);
  }

  /** Only a connection never displaced gives its name up by deregistering. */
  lemma StaleDeregisterChangesNothing(states: seq<Relay>, steps: seq<Step>, i: nat, id: nat, home: Home)
    requires Run(states, steps) && i < |steps| && steps[i] == Deregister(id)
    ensures if id in states[i].evicted then states[i + 1].rooms == states[i].rooms
            else Owner(states[i + 1].rooms, home)
                 == if home == states[i].homes[id] then None else Owner(states[i].rooms, home)
  {
    hide NamesOk, TrafficOk, Apply, Owner, Initial;
    RunKeeps(states, steps, i);
    DeregisterEffect(states[i], id, home);
  }

  /** What one sender placed in one queue follows the order it was read in, directed and announced alike. */
  lemma DeliveriesFollowReadOrder(states: seq<Relay>, steps: seq<Step>, i: nat, to: nat)
    requires Run(states, steps) && i < |states| && to in states[i].placed
    ensures InReadOrder(states[i].placed[to])
    ensures forall d :: d in states[i].placed[to] ==> FromRequest(states[i].homes, states[i].readers, to, d)
  {
    RunKeeps(states, steps, i);
    hide NamesOk, ReaderOk, QueueOk, CountOk, FromRequest, InReadOrder;
    assert LogOk(states[i].homes, states[i].readers, to, states[i].placed[to]);
  }

  /** Queues are first in, first out, and never longer than their capacity. */
  lemma QueuesAreBounded(states: seq<Relay>, steps: seq<Step>, i: nat, id: nat)
    requires Run(states, steps) && i < |states| && id in states[i].queues
    ensures var s := states[i];
            && |s.queues[id].items| <= 128
            && id in s.placed && id in s.taken && s.taken[id] <= |s.placed[id]|
            && s.placed[id] == s.placed[id][..s.taken[id]] + s.queues[id].items
  {
    RunKeeps(states, steps, i);
    hide LogOk, ReaderOk, CountOk, FatesOk, OwnersOk;
    assert QueueOk(states[i].queues[id], states[i].placed[id], states[i].taken[id]);
  }

  /** A reader's requests only grow, and until they do its latest one addresses the same names. */
  ghost predicate ReadsOn(before: Reader, after: Reader) {
    && |before.requests| <= |after.requests|
    && before.requests == after.requests[..|before.requests|]
    && (|before.requests| == |after.requests| ==> before.addressed == after.addressed)
  }

  lemma StepReadsOn(s: Relay, step: Step, id: nat)
    requires Inv(s) && Enabled(s, step) && id in s.readers
    ensures id in Apply(s, step).readers && ReadsOn(s.readers[id], Apply(s, step).readers[id])
  {
    hide InsertPeer, RemovePeer, PeersOf, Others, Offer, Registered, Lists, ReadsOn;
    hide TrafficOk, OwnersOk, FatesOk, RoomsOk;
    var t := Apply(s, step);
    assert id in t.readers;
    if t.readers[id] == s.readers[id] {
      ReadsOnSelf(s.readers[id]);
    } else {
      ReaderMoves(s, step);
      assert step.id == id;
    }
  }

  lemma ReadsOnSelf(reader: Reader)
    ensures ReadsOn(reader, reader)
  {
  }

  lemma ReaderMoves(s: Relay, step: Step)
    requires IdsOk(s) && Enabled(s, step) && (step.ReadSend? || step.ReadAnnounce? || step.Enqueue?)
    ensures step.id in s.readers && ReadsOn(s.readers[step.id], Apply(s, step).readers[step.id])
  {
    hide PeersOf, Others, Offer, Lists;
  }

  lemma ReadsOnTransitive(a: Reader, b: Reader, c: Reader)
    requires ReadsOn(a, b) && ReadsOn(b, c)
    ensures ReadsOn(a, c)
  {
  }

  lemma ReadsOnOnce(states: seq<Relay>, steps: seq<Step>, j: nat, id: nat)
    requires Run(states, steps) && j < |steps| && id in states[j].readers
    ensures id in states[j + 1].readers && ReadsOn(states[j].readers[id], states[j + 1].readers[id])
  {
    hide Inv, Apply, Enabled, Initial, ReadsOn;
    RunKeeps(states, steps, j);
    StepReadsOn(states[j], steps[j], id);
  }

  lemma {:induction false} RunReadsOn(states: seq<Relay>, steps: seq<Step>, i: nat, j: nat, id: nat)
    requires Run(states, steps) && i <= j < |states| && id in states[i].readers
    ensures id in states[j].readers && ReadsOn(states[i].readers[id], states[j].readers[id])
    decreases j
  {
    hide Run;
    if i == j {
      ReadsOnSelf(states[i].readers[id]);
    } else {
      hide ReadsOn;
      RunReadsOn(states, steps, i, j - 1, id);
      RunLength(states, steps);
      ReadsOnOnce(states, steps, j - 1, id);
      ReadsOnTransitive(states[i].readers[id], states[j - 1].readers[id], states[j].readers[id]);
    }
  }

  lemma RunLength(states: seq<Relay>, steps: seq<Step>)
    requires Run(states, steps)
    ensures |states| == |steps| + 1
  {
  }

  /** Once an announcement is fanned out, the queues that took it and those that did not make up
      exactly the other names the room had when it was read. */
  lemma FanoutIsAccounted(states: seq<Relay>, steps: seq<Step>, i: nat, j: nat, id: nat)
    requires Run(states, steps) && i < j < |states|
    requires i < |steps| && steps[i].ReadAnnounce? && steps[i].id == id
    requires id in states[i].readers && id in states[j].readers
    requires |states[j].readers[id].requests| == |states[i].readers[id].requests| + 1
    requires states[j].readers[id].targets == []
    ensures id in states[i].homes
    ensures var counts, home := states[j].readers[id].counts, states[i].homes[id];
            && counts.delivered + counts.shed == |PeersOf(states[i].rooms, home.room).Keys - {home.name}|
            && counts.delivered == |Reached(states[j].placed, id, |states[j].readers[id].requests|)|
  {
    RunReadsOn(states, steps, i + 1, j, id);
    RunKeeps(states, steps, j);
    hide NamesOk, LogOk, QueueOk, Reached, Lists;
    var others := Others(states[i].rooms, states[i].homes[id].room, states[i].homes[id].name);
    assert others.Keys == PeersOf(states[i].rooms, states[i].homes[id].room).Keys - {states[i].homes[id].name};
    assert states[i + 1] == Apply(states[i], steps[i]);
    assert ReaderOk(states[j].homes, states[j].placed, id, states[j].readers[id]);
    assert CountOk(states[j].placed, id, states[j].readers[id]);
  }

  // What reaches a queue

  /** An open queue with room takes the item at its end; a closed or a full one stays as it is. Either is counted. */
  lemma EnqueueExactly(s: Relay, id: nat)
    requires Enabled(s, Enqueue(id))
    ensures var t, reader := Apply(s, Enqueue(id)), s.readers[id];
            var to, item := reader.targets[0], Delivery(id, |reader.requests|);
            && (forall c :: c in s.queues && c != to ==> t.queues[c] == s.queues[c])
            && (forall c :: c in s.placed && c != to ==> t.placed[c] == s.placed[c])
            && t.readers[id].targets == reader.targets[1..]
            && if s.queues[to].open && |s.queues[to].items| < OUTBOUND_QUEUE_CAPACITY
               then && t.queues[to] == Queue(s.queues[to].items + [item], true)
                    && t.placed[to] == s.placed[to] + [item]
                    && t.readers[id].counts == Fanout(reader.counts.delivered + 1, reader.counts.shed)
               else && t.queues[to] == s.queues[to] && t.placed[to] == s.placed[to]
                    && t.readers[id].counts == Fanout(reader.counts.delivered, reader.counts.shed + 1)
  {
  }

  lemma ReaderWaits(s: Relay, step: Step, id: nat)
    requires IdsOk(s) && Enabled(s, step) && Tracked(s, id) && s.readers[id].targets != [] && step != Enqueue(id)
    ensures Tracked(Apply(s, step), id) && Apply(s, step).readers[id] == s.readers[id]
  {
    hide PeersOf, Others, Lists, Registering, Deregistering, Reading, Enqueueing, Tracked;
    match step
    case Register(k) => RegisteringKeeps(s, k, id);
    case Deregister(k) => DeregisteringKeeps(s, k, id);
    case Enqueue(k) => EnqueueingKeeps(s, k, id);
    case ReadSend(k, to) => ReadingKeeps(s, step, k, id);
    case ReadAnnounce(k, _, _) => ReadingKeeps(s, step, k, id);
    case _ => OthersKeep(s, step, id);
  }

  lemma RegisteringKeeps(s: Relay, k: nat, id: nat)
    requires IdsOk(s) && Enabled(s, Register(k)) && Tracked(s, id)
    ensures var t := Registering(s, k, s.homes[k]); Tracked(t, id) && t.readers[id] == s.readers[id]
  {
    hide InsertPeer, PeersOf;
  }

  lemma DeregisteringKeeps(s: Relay, k: nat, id: nat)
    requires Enabled(s, Deregister(k)) && Tracked(s, id)
    ensures var t := Deregistering(s, k, s.homes[k]); Tracked(t, id) && t.readers[id] == s.readers[id]
  {
    hide RemovePeer;
  }

  lemma EnqueueingKeeps(s: Relay, k: nat, id: nat)
    requires Enabled(s, Enqueue(k)) && Tracked(s, id) && k != id
    ensures var t := Enqueueing(s, k, s.readers[k].targets[0]); Tracked(t, id) && t.readers[id] == s.readers[id]
  {
    hide Offer;
  }

  lemma ReadingKeeps(s: Relay, step: Step, k: nat, id: nat)
    requires (step.ReadSend? || step.ReadAnnounce?) && step.id == k && Enabled(s, step) && Tracked(s, id)
    requires s.readers[id].targets != []
    ensures Tracked(Apply(s, step), id) && Apply(s, step).readers[id] == s.readers[id]
  {
    hide PeersOf, Others, Lists;
  }

  lemma OthersKeep(s: Relay, step: Step, id: nat)
    requires (step.TakeId? || step.WriterTakes? || step.DropReceiver?) && Enabled(s, step) && Tracked(s, id)
    ensures Tracked(Apply(s, step), id) && Apply(s, step).readers[id] == s.readers[id]
  {
  }

  lemma IdsPart(s: Relay)
    requires Inv(s)
    ensures IdsOk(s)
  {
    hide IdsOk, TrafficOk, OwnersOk, FatesOk, RoomsOk;
  }

  lemma {:induction false} RunWaits(states: seq<Relay>, steps: seq<Step>, i: nat, j: nat, id: nat)
    requires Run(states, steps) && i <= j < |states| && Tracked(states[i], id) && states[i].readers[id].targets != []
    requires forall k :: i <= k < j ==> steps[k] != Enqueue(id)
    ensures Tracked(states[j], id) && states[j].readers[id] == states[i].readers[id]
    decreases j
  {
    hide Inv, Apply, Enabled, Tracked, IdsOk;
    if i < j {
      RunWaits(states, steps, i, j - 1, id);
      RunKeeps(states, steps, j - 1);
      IdsPart(states[j - 1]);
      ReaderWaits(states[j - 1], steps[j - 1], id);
    }
  }

  /** A send to a registered name reaches the queue of whoever held the name when it was read: it is placed there,
      behind what is waiting, exactly if that queue is open and has room when its turn comes. */
  lemma SendReaches(states: seq<Relay>, steps: seq<Step>, i: nat, j: nat, id: nat, to: Name)
    requires Run(states, steps) && i < j < |steps| && steps[i] == ReadSend(id, to) && steps[j] == Enqueue(id)
    requires id in states[i].homes && to in PeersOf(states[i].rooms, states[i].homes[id].room)
    requires forall k :: i < k < j ==> steps[k] != Enqueue(id)
    ensures var c := PeersOf(states[i].rooms, states[i].homes[id].room)[to];
            && c in states[j].queues && c in states[j + 1].queues && c in states[j].placed && c in states[j + 1].placed
            && id in states[i].readers
            && var item := Delivery(id, |states[i].readers[id].requests| + 1);
               if states[j].queues[c].open && |states[j].queues[c].items| < OUTBOUND_QUEUE_CAPACITY
               then && states[j + 1].queues[c].items == states[j].queues[c].items + [item]
                    && states[j + 1].placed[c] == states[j].placed[c] + [item]
               else && states[j + 1].queues[c] == states[j].queues[c]
                    && states[j + 1].placed[c] == states[j].placed[c]
  {
    SendRead(states[i], id, to);
    hide Apply, Initial;
    RunWaits(states, steps, i + 1, j, id);
    EnqueueExactly(states[j], id);
    EnqueueTracks(states[j], id);
  }

  lemma SendRead(s: Relay, id: nat, to: Name)
    requires Enabled(s, ReadSend(id, to)) && to in PeersOf(s.rooms, s.homes[id].room)
    ensures var t := Apply(s, ReadSend(id, to));
            && Tracked(t, id) && t.readers[id].targets == [PeersOf(s.rooms, s.homes[id].room)[to]]
            && t.readers[id].requests == s.readers[id].requests + [Send(to)]
  {
  }

  lemma EnqueueTracks(s: Relay, id: nat)
    requires Enabled(s, Enqueue(id))
    ensures var t := Apply(s, Enqueue(id)); t.queues.Keys == s.queues.Keys && t.placed.Keys == s.placed.Keys
  {
  }
}
