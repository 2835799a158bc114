/**
 The relay's registry of rooms and peers, and the bounded queue each registered
 connection receives on.
 */
module Registry {
  import opened Basics
  import opened StoreModel
  import StoreIndex

  type Name = string
  /** The connection registered under each name of one room. */
  type Peers = map<Name, nat>
  type Rooms = map<RoomId, Peers>

  const OUTBOUND_QUEUE_CAPACITY: nat := 128

  datatype ReceiptStatus = Routed | PeerOffline | RecipientBackpressure | InvalidTarget

  /** One connection's outbound queue; it closes when its receiver is dropped. */
  datatype Queue<T> = Queue(items: seq<T>, open: bool)

  datatype Fanout = Fanout(delivered: nat, shed: nat)

  function PeersOf(rooms: Rooms, room: RoomId): Peers {
    if room in rooms then rooms[room] else map[]
  }

  function InsertPeer(rooms: Rooms, room: RoomId, name: Name, id: nat): Rooms {
    rooms[room := PeersOf(rooms, room)[name := id]]
  }

  predicate Registered(rooms: Rooms, room: RoomId, name: Name, id: nat) {
    name in PeersOf(rooms, room) && PeersOf(rooms, room)[name] == id
  }

  /** Removes a registration that is still the connection's own, and the room it empties. */
  function RemovePeer(rooms: Rooms, room: RoomId, name: Name, id: nat): Rooms {
    if !Registered(rooms, room, name, id) then rooms
    else
      var rest := rooms[room] - {name};
      if rest == map[] then rooms - {room} else rooms[room := rest]
  }

  /** Places an item without blocking, or says why it was not placed. */
  function Offer<T>(queue: Queue<T>, item: T): (Queue<T>, ReceiptStatus) {
    if !queue.open then (queue, PeerOffline)
    else if |queue.items| >= OUTBOUND_QUEUE_CAPACITY then (queue, RecipientBackpressure)
    else (queue.(items := queue.items + [item]), Routed)
  }

  /** The handles a fanout addresses: every name of the room but the announcer's. */
  function Others(rooms: Rooms, room: RoomId, announcer: Name): Peers {
    PeersOf(rooms, room) - {announcer}
  }

  /** No room is empty, and every registered connection is among those with a queue. */
  ghost predicate Consistent(rooms: Rooms, ids: set<nat>) {
    && (forall r :: r in rooms ==> rooms[r] != map[])
    && (forall r, n :: r in rooms && n in rooms[r] ==> rooms[r][n] in ids)
  }

  lemma InsertKeeps(rooms: Rooms, ids: set<nat>, room: RoomId, name: Name, id: nat)
    requires Consistent(rooms, ids)
    ensures Consistent(InsertPeer(rooms, room, name, id), ids + {id})
  {
    assert name in InsertPeer(rooms, room, name, id)[room];
  }

  class ServerState<T> {
    /** The payload store, if this relay runs with one. */
    const blobs: StoreIndex.Store?
    var rooms: Rooms
    var nextConnectionId: nat
    var evicted: set<nat>
    var queues: map<nat, Queue<T>>

    ghost predicate Valid()
      reads this
    {
      && Consistent(rooms, queues.Keys)
      && (forall c :: c in queues ==> 1 <= c < nextConnectionId && |queues[c].items| <= OUTBOUND_QUEUE_CAPACITY)
    }

    constructor (blobs: StoreIndex.Store?)
      ensures this.blobs == blobs && Valid()
      ensures rooms == map[] && nextConnectionId == 1 && evicted == {} && queues == map[]
    {
      this.blobs := blobs;
      rooms, nextConnectionId, evicted, queues := map[], 1, {}, map[];
    }

    /** Ids start at one, so that zero is never a live connection. */
    method AllocateId() returns (id: nat)
      requires Valid() && 1 <= nextConnectionId
      modifies this`nextConnectionId
      ensures Valid() && id == old(nextConnectionId) && nextConnectionId == id + 1 && id !in queues
    {
      id := nextConnectionId;
      nextConnectionId := nextConnectionId + 1;
    }

    /** Takes the name, telling whoever held it. */
    method Insert(room: RoomId, name: Name, id: nat) returns (superseded: Option<nat>)
      requires Valid() && id !in queues && 1 <= id < nextConnectionId
      modifies this`rooms, this`evicted, this`queues
      ensures Valid()
      ensures rooms == InsertPeer(old(rooms), room, name, id)
      ensures queues == old(queues)[id := Queue([], true)]
      ensures superseded == (var peers := PeersOf(old(rooms), room); if name in peers then Some(peers[name]) else None)
      ensures evicted == old(evicted) + (if superseded.Some? then {superseded.value} else {})
    {
      hide Consistent;
      InsertKeeps(rooms, queues.Keys, room, name, id);
      superseded := None;
      var peers: Peers := map[];
      if room in rooms {
        peers := rooms[room];
      }
      assert peers == PeersOf(rooms, room);
      if name in peers {
        superseded := Some(peers[name]);
        evicted := evicted + {peers[name]};
      }
      queues := queues[id := Queue([], true)];
      rooms := rooms[room := peers[name := id]];
      assert queues.Keys == old(queues).Keys + {id};
    }

    /** Takes an id and then the name under it; other connections may do the same in between. */
    method Register(room: RoomId, name: Name) returns (id: nat, superseded: Option<nat>)
      requires Valid() && 1 <= nextConnectionId
      modifies this`nextConnectionId, this`rooms, this`evicted, this`queues
      ensures Valid() && id == old(nextConnectionId) && id !in old(queues)
      ensures Registered(rooms, room, name, id) && id in queues && queues[id] == Queue([], true)
      ensures superseded.Some? ==> superseded.value != id && superseded.value in evicted
    {
      id := AllocateId();
      superseded := Insert(room, name, id);
    }

    /** Gives the name up, unless a newer connection has it; a room that empties takes its payloads with it. */
    method Deregister(room: RoomId, name: Name, id: nat) returns (removed: bool)
      requires Valid() && (blobs != null ==> blobs.Valid())
      modifies this`rooms, blobs
      ensures Valid()
      ensures blobs != null ==>
                && blobs.Valid()
                && blobs.View() == if room in old(rooms) && room !in rooms then ForgetRoom(old(blobs.View()), room)
                                   else old(blobs.View())
      ensures rooms == RemovePeer(old(rooms), room, name, id)
      ensures removed == Registered(old(rooms), room, name, id)
    {
      if room !in rooms {
        return false;
      }
      var peers := rooms[room];
      if name !in peers || peers[name] != id {
        return false;
      }
      peers := peers - {name};
      if peers != map[] {
        rooms := rooms[room := peers];
        return true;
      }
      rooms := rooms - {room};
      if blobs != null {
        blobs.ForgetRoom(room);
      }
      return true;
    }

    /** Resolves the recipient, then offers the payload to its queue. */
    method Route(room: RoomId, to: Name, payload: T) returns (status: ReceiptStatus)
      requires Valid()
      modifies this`queues
      ensures Valid()
      ensures if to !in PeersOf(rooms, room) then status == PeerOffline && queues == old(queues)
              else var c := PeersOf(rooms, room)[to];
                   queues == old(queues)[c := Offer(old(queues)[c], payload).0]
                   && status == Offer(old(queues)[c], payload).1
      ensures var peers := PeersOf(rooms, room);
              && (status == Routed <==>
                    && to in peers && old(queues)[peers[to]].open
                    && |old(queues)[peers[to]].items| < OUTBOUND_QUEUE_CAPACITY)
              && (status == RecipientBackpressure <==>
                    && to in peers && old(queues)[peers[to]].open
                    && |old(queues)[peers[to]].items| >= OUTBOUND_QUEUE_CAPACITY)
              && (status == PeerOffline <==> to in peers ==> !old(queues)[peers[to]].open)
              && (status == Routed ==>
                    queues == old(queues)[peers[to] := Queue(old(queues)[peers[to]].items + [payload], true)])
              && (status != Routed ==> queues == old(queues))
    {
      if room !in rooms || to !in rooms[room] {
        return PeerOffline;
      }
      var c := rooms[room][to];
      var (queue, outcome) := Offer(queues[c], payload);
      queues := queues[c := queue];
      return outcome;
    }

    /** Collects every other peer's handle, as it does under the read lock. */
    method Snapshot(room: RoomId, announcer: Name) returns (handles: seq<nat>, ghost names: seq<Name>)
      requires Valid()
      ensures Lists(Others(rooms, room, announcer), names, handles)
      ensures |handles| == |Others(rooms, room, announcer)| && forall c :: c in handles ==> c in queues
    {
      hide Lists;
      var peers: Peers := map[];
      if room in rooms {
        peers := rooms[room];
      }
      assert peers == PeersOf(rooms, room);
      handles, names := Collect(peers - {announcer});
      ListsAll(peers - {announcer}, names, handles);
      HandlesQueued(peers - {announcer}, names, handles, queues.Keys);
    }

    /** Snapshots the recipients, then offers the one payload to each. */
    method FanOut(room: RoomId, announcer: Name, payload: T)
      returns (counts: Fanout, ghost names: seq<Name>, ghost handles: seq<nat>)
      requires Valid()
      modifies this`queues
      ensures Valid()
      ensures Lists(Others(rooms, room, announcer), names, handles)
      ensures queues == OfferEach(old(queues), handles, payload).0
      ensures counts == OfferEach(old(queues), handles, payload).1
      ensures counts.delivered + counts.shed == |Others(rooms, room, announcer)|
    {
      hide OfferEach, Offer, Lists, Others;
      var found, listed := Snapshot(room, announcer);
      names, handles := listed, found;
      queues, counts := OfferAll(queues, found, payload);
    }
  }

  /** Each name once, beside the connection registered under it. */
  ghost predicate Lists(peers: Peers, names: seq<Name>, handles: seq<nat>) {
    && |names| == |handles|
    && (forall i :: 0 <= i < |names| ==> names[i] in peers && handles[i] == peers[names[i]])
    && (forall i, j :: 0 <= i < j < |names| ==> names[i] != names[j])
    && (forall n :: n in peers ==> n in names)
  }

  lemma HandlesQueued(peers: Peers, names: seq<Name>, handles: seq<nat>, queued: set<nat>)
    requires Lists(peers, names, handles) && forall n :: n in peers ==> peers[n] in queued
    ensures forall c :: c in handles ==> c in queued
  {
  }

  lemma {:induction false} ListsAll(peers: Peers, names: seq<Name>, handles: seq<nat>)
    requires Lists(peers, names, handles)
    ensures |names| == |handles| == |peers|
    decreases |names|
  {
    if names == [] {
      assert peers == map[];
    } else {
      var k := |names| - 1;
      var rest := peers - {names[k]};
      assert forall n :: n in rest ==> n in names[..k] by {
        forall n | n in rest ensures n in names[..k] {
          assert n in names;
        }
      }
      ListsAll(rest, names[..k], handles[..k]);
    }
  }

  /** Walks the map into a vector of handles. */
  method Collect(peers: Peers) returns (handles: seq<nat>, ghost names: seq<Name>)
    ensures Lists(peers, names, handles)
  {
    handles, names := [], [];
    var todo := peers.Keys;
    while todo != {}
      invariant todo <= peers.Keys
      invariant |names| == |handles|
      invariant forall i :: 0 <= i < |names| ==> names[i] in peers && names[i] !in todo && handles[i] == peers[names[i]]
      invariant forall i, j :: 0 <= i < j < |names| ==> names[i] != names[j]
      invariant forall n :: n in peers ==> n in names || n in todo
      decreases todo
    {
      var name :| name in todo;
      todo := todo - {name};
      handles := handles + [peers[name]];
      names := names + [name];
    }
  }

  /** Offers an item to each queue in turn, counting how many took it. */
  ghost function OfferEach<T>(queues: map<nat, Queue<T>>, handles: seq<nat>, item: T): (map<nat, Queue<T>>, Fanout)
    requires forall c :: c in handles ==> c in queues
    ensures OfferEach(queues, handles, item).0.Keys == queues.Keys
    ensures OfferEach(queues, handles, item).1.delivered + OfferEach(queues, handles, item).1.shed == |handles|
  {
    if handles == [] then (queues, Fanout(0, 0))
    else
      var k := |handles| - 1;
      var (before, counts) := OfferEach(queues, handles[..k], item);
      var (queue, outcome) := Offer(before[handles[k]], item);
      (before[handles[k] := queue],
       if outcome == Routed then counts.(delivered := counts.delivered + 1) else counts.(shed := counts.shed + 1))
  }

  /** The counting loop of a fanout. */
  method OfferAll<T>(queues: map<nat, Queue<T>>, handles: seq<nat>, item: T)
    returns (after: map<nat, Queue<T>>, counts: Fanout)
    requires forall c :: c in handles ==> c in queues
    requires forall c :: c in queues ==> |queues[c].items| <= OUTBOUND_QUEUE_CAPACITY
    ensures after == OfferEach(queues, handles, item).0
    ensures counts == OfferEach(queues, handles, item).1
    ensures forall c :: c in after ==> |after[c].items| <= OUTBOUND_QUEUE_CAPACITY
  {
    after, counts := queues, Fanout(0, 0);
    for i := 0 to |handles|
      invariant after == OfferEach(queues, handles[..i], item).0
      invariant counts == OfferEach(queues, handles[..i], item).1
      invariant forall c :: c in after ==> |after[c].items| <= OUTBOUND_QUEUE_CAPACITY
    {
      assert handles[..i + 1][..i] == handles[..i];
      var (queue, outcome) := Offer(after[handles[i]], item);
      after := after[handles[i] := queue];
      counts := if outcome == Routed then counts.(delivered := counts.delivered + 1)
                else counts.(shed := counts.shed + 1);
    }
    assert handles[..|handles|] == handles;
  }
}
