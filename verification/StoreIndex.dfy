/**
 The store's index as the relay keeps it: hash maps under one lock, with a
 running charge per room and one for the whole store, all in 64-bit words.

 Every method is one critical section. `Balanced` says the running charges are
 the sums they stand for, and each method is proved to do what `StoreModel` says
 the operation means. Because the counters are 64-bit words, verifying the
 bodies is also the proof that no addition overflows, no subtraction underflows,
 and no saturating subtraction ever saturates.
 */
module StoreIndex {
  import opened Basics
  import opened Totals
  import opened StoreModel

  newtype u64 = x: int | 0 <= x < 0x1_0000_0000_0000_0000

  /** One room's maps and the sum of every allowance in them. */
  datatype RoomState = RoomState(
    reserved: map<Digest, Reservation>,
    uploading: map<Digest, InFlight>,
    stored: map<Digest, Payload>,
    charged: u64)
  {
    function Contents(): Room { Room(reserved, uploading, stored) }

    predicate IsIdle() { charged == 0 && reserved == map[] && uploading == map[] }

    ghost predicate Balanced() { charged as nat == RoomCharge(Contents()) }
  }

  type Rooms = map<RoomId, RoomState>

  datatype Swept = Swept(payloads: nat, reservations: nat)

  /** Subtraction that stops at zero, as the relay writes it; no caller below ever gets there. */
  function SaturatingSub(a: u64, b: u64): u64 {
    if b <= a then a - b else 0
  }

  /** The index without its counters. */
  ghost function Contents(rooms: Rooms): Index {
    map r | r in rooms :: rooms[r].Contents()
  }

  /** Conservation: every running charge is the sum of the entries it stands for. */
  ghost predicate Balanced(rooms: Rooms, charged: u64) {
    && charged as nat == IndexCharge(Contents(rooms))
    && forall r :: r in rooms ==> rooms[r].Balanced()
  }

  /** Replacing one room and moving the store's charge by the difference keeps the books. */
  lemma PutRoom(rooms: Rooms, charged: u64, room: RoomId, state: RoomState, total: u64)
    requires Balanced(rooms, charged) && state.Balanced()
    requires total as int == charged as int + state.charged as int
                             - (if room in rooms then rooms[room].charged as int else 0)
    ensures Balanced(rooms[room := state], total)
    ensures Contents(rooms[room := state]) == Contents(rooms)[room := state.Contents()]
  {
    assert Contents(rooms[room := state]) == Contents(rooms)[room := state.Contents()];
    IndexChargeUpdate(Contents(rooms), room, state.Contents());
  }

  lemma NoSuchRoom(index: Index, room: RoomId)
    requires room !in index
    ensures index - {room} == index
  {
  }

  lemma TakeRoom(rooms: Rooms, charged: u64, room: RoomId)
    requires Balanced(rooms, charged) && room in rooms
    ensures rooms[room].charged <= charged
    ensures Balanced(rooms - {room}, charged - rooms[room].charged)
    ensures Contents(rooms - {room}) == Contents(rooms) - {room}
  {
    assert Contents(rooms - {room}) == Contents(rooms) - {room};
    RoomWithinIndex(Contents(rooms), room);
  }

  /** Rooms that hold nothing add nothing to the charge, so dropping them takes nothing off. */
  lemma {:induction false} DropEmptyRooms(index: Index, idle: set<RoomId>)
    requires forall r :: r in idle ==> r in index && index[r] == EMPTY_ROOM
    ensures IndexCharge(index - idle) == IndexCharge(index)
    decreases |idle|
  {
    if idle == {} {
      assert index - idle == index;
    } else {
      var r :| r in idle;
      RoomWithinIndex(index, r);
      DropEmptyRooms(index - {r}, idle - {r});
      assert index - {r} - (idle - {r}) == index - idle;
    }
  }

  lemma TakeEmptyRooms(rooms: Rooms, charged: u64, idle: set<RoomId>)
    requires Balanced(rooms, charged)
    requires forall r :: r in idle ==> r in rooms && rooms[r].Contents() == EMPTY_ROOM
    ensures Balanced(rooms - idle, charged)
    ensures Contents(rooms - idle) == Contents(rooms) - idle
  {
    DropEmptyRooms(Contents(rooms), idle);
    assert Contents(rooms - idle) == Contents(rooms) - idle;
  }

  /** Every single entry's charge is part of its room's, and every room's of the store's. */
  lemma EntryWithinRoom(state: Room, digest: Digest)
    ensures digest in state.reserved ==> state.reserved[digest].charged <= RoomCharge(state)
    ensures digest in state.uploading ==> state.uploading[digest].charged <= RoomCharge(state)
    ensures digest in state.stored ==> state.stored[digest].charged <= RoomCharge(state)
  {
    if digest in state.reserved {
      TotalSplit(state.reserved, ReservationCharge, digest);
    }
    if digest in state.uploading {
      TotalSplit(state.uploading, FlightCharge, digest);
    }
    if digest in state.stored {
      TotalSplit(state.stored, PayloadCharge, digest);
    }
  }

  lemma RoomWithinStore(index: Index, room: RoomId)
    ensures RoomCharge(RoomOf(index, room)) <= IndexCharge(index)
  {
    if room in index {
      RoomWithinIndex(index, room);
    }
  }

  // ---------------------------------------------------------------------------
  // The two retain loops
  // ---------------------------------------------------------------------------

  lemma DropOne<V>(m: map<Digest, V>, weight: V -> nat, kept: map<Digest, V>, d: Digest)
    requires d in kept && d in m && kept.Keys <= m.Keys
    ensures Total(m - (kept - {d}).Keys, weight) == weight(m[d]) + Total(m - kept.Keys, weight)
    ensures m.Keys - (kept - {d}).Keys == m.Keys - kept.Keys + {d}
  {
    TotalUpdate(m - kept.Keys, weight, d, m[d]);
    assert (m - kept.Keys)[d := m[d]] == m - (kept - {d}).Keys;
  }

  lemma DroppedNone<K, V>(m: map<K, V>, weight: V -> nat)
    ensures Total(m - m.Keys, weight) == 0
  {
    assert m - m.Keys == map[];
  }

  function ReservationExpiry(r: Reservation): Instant { r.expiresAt }

  function PayloadExpiry(p: Payload): Instant { p.expiresAt }

  /** What a retain loop keeps before it has come to the entries in `todo`. */
  ghost function Unexpired<V>(m: map<Digest, V>, expiry: V -> Instant, todo: set<Digest>, now: Instant)
    : map<Digest, V>
  {
    map d | d in m && (d in todo || expiry(m[d]) > now) :: m[d]
  }

  lemma UnexpiredOneMore<V>(m: map<Digest, V>, expiry: V -> Instant, todo: set<Digest>, now: Instant, d: Digest)
    requires d in todo && d in m
    ensures var kept := Unexpired(m, expiry, todo, now);
            && d in kept && kept.Keys <= m.Keys
            && Unexpired(m, expiry, todo - {d}, now) == if expiry(m[d]) > now then kept else kept - {d}
  {
  }

  lemma UnexpiredAll<V>(m: map<Digest, V>, expiry: V -> Instant, now: Instant)
    ensures Unexpired(m, expiry, m.Keys, now) == m
  {
  }

  /** Drops expired reservations, reporting what they were charged. */
  method RetainReservations(reserved: map<Digest, Reservation>, now: Instant)
    returns (kept: map<Digest, Reservation>, released: nat, gone: nat)
    ensures kept == Unexpired(reserved, ReservationExpiry, {}, now)
    ensures released == Total(reserved - kept.Keys, ReservationCharge)
    ensures gone + |kept| == |reserved|
  {
    hide Total, Unexpired;
    kept, released, gone := reserved, 0, 0;
    DroppedNone(reserved, ReservationCharge);
    UnexpiredAll(reserved, ReservationExpiry, now);
    var todo := reserved.Keys;
    while todo != {}
      invariant todo <= reserved.Keys && kept == Unexpired(reserved, ReservationExpiry, todo, now)
      invariant released == Total(reserved - kept.Keys, ReservationCharge)
      invariant gone + |kept| == |reserved|
      decreases todo
    {
      var d :| d in todo;
      UnexpiredOneMore(reserved, ReservationExpiry, todo, now, d);
      todo := todo - {d};
      if reserved[d].expiresAt <= now {
        DropOne(reserved, ReservationCharge, kept, d);
        released := released + reserved[d].charged;
        gone := gone + 1;
        kept := kept - {d};
      }
    }
  }

  lemma GoneOneMore(all: set<Digest>, kept: set<Digest>, gone: seq<Digest>, d: Digest)
    requires d in kept && kept <= all && multiset(gone) == multiset(all - kept)
    ensures multiset(gone + [d]) == multiset(all - (kept - {d}))
  {
    assert all - (kept - {d}) == all - kept + {d};
  }

  /** Drops expired payloads, reporting what they were charged and which they were. */
  method RetainPayloads(stored: map<Digest, Payload>, now: Instant)
    returns (kept: map<Digest, Payload>, released: nat, gone: seq<Digest>)
    ensures kept == Unexpired(stored, PayloadExpiry, {}, now)
    ensures released == Total(stored - kept.Keys, PayloadCharge)
    ensures multiset(gone) == multiset(stored.Keys - kept.Keys)
  {
    hide Total, Unexpired;
    kept, released, gone := stored, 0, [];
    DroppedNone(stored, PayloadCharge);
    UnexpiredAll(stored, PayloadExpiry, now);
    var todo := stored.Keys;
    while todo != {}
      invariant todo <= stored.Keys && kept == Unexpired(stored, PayloadExpiry, todo, now)
      invariant released == Total(stored - kept.Keys, PayloadCharge)
      invariant multiset(gone) == multiset(stored.Keys - kept.Keys)
      decreases todo
    {
      var d :| d in todo;
      UnexpiredOneMore(stored, PayloadExpiry, todo, now, d);
      todo := todo - {d};
      if stored[d].expiresAt <= now {
        DropOne(stored, PayloadCharge, kept, d);
        GoneOneMore(stored.Keys, kept.Keys, gone, d);
        released := released + stored[d].charged;
        gone := gone + [d];
        kept := kept - {d};
      }
    }
  }

  lemma SweptIsUnexpired(state: Room, now: Instant)
    ensures SweptRoom(state, now)
         == Room(Unexpired(state.reserved, ReservationExpiry, {}, now), state.uploading,
                 Unexpired(state.stored, PayloadExpiry, {}, now))
  {
  }

  /** Both retain loops over one room, and the room's charge less what they released. */
  method Expire(state: RoomState, now: Instant)
    returns (after: RoomState, released: u64, gone: nat, names: seq<Digest>)
    requires state.Balanced()
    ensures after.Balanced() && after.Contents() == SweptRoom(state.Contents(), now)
    ensures after.charged as int == state.charged as int - released as int
    ensures multiset(names) == multiset(state.stored.Keys - after.stored.Keys)
  {
    hide Total, Unexpired, SweptRoom, RoomCharge;
    var reserved, freed := map[], 0;
    reserved, freed, gone := RetainReservations(state.reserved, now);
    var stored, more, expired := RetainPayloads(state.stored, now);
    SweptIsUnexpired(state.Contents(), now);
    SweptRoomCharge(state.Contents(), now);
    released, names := (freed + more) as u64, expired;
    assert released <= state.charged;
    after := state.(reserved := reserved, stored := stored, charged := SaturatingSub(state.charged, released));
  }

  // ---------------------------------------------------------------------------
  // The store
  // ---------------------------------------------------------------------------

  /** What `reserve` reads before it changes anything. */
  method Lookup(rooms: Rooms, room: RoomId, digest: Digest, now: Instant)
    returns (charged: u64, released: u64, held: Option<nat>)
    requires forall r :: r in rooms ==> rooms[r].Balanced()
    ensures var state := RoomOf(Contents(rooms), room);
            && charged as nat == RoomCharge(state)
            && released as nat == (if digest in state.reserved then state.reserved[digest].charged else 0)
            && held == if Held(state, digest, now) then Some(state.stored[digest].expiresAt - now) else None
  {
    charged, released, held := 0, 0, None;
    if room in rooms {
      var state := rooms[room];
      charged := state.charged;
      EntryWithinRoom(state.Contents(), digest);
      if digest in state.reserved {
        released := state.reserved[digest].charged as u64;
      }
      if digest in state.stored && state.stored[digest].expiresAt > now {
        held := Some(state.stored[digest].expiresAt - now);
      }
    }
  }

  /** The counter arithmetic of a commit: the payload's charge instead of the upload's and of what it replaces. */
  method CommitRoom(state: RoomState, total: u64, digest: Digest, bytes: u64, now: Instant)
    returns (after: RoomState, rest: u64)
    requires state.Balanced() && state.charged <= total && total as nat <= MAX_STORE_BYTES && digest in state.uploading
    requires ChargeFor(bytes as nat) <= state.uploading[digest].charged
    ensures after.Balanced() && after.Contents() == CommittedContents(state.Contents(), digest, bytes as nat, now)
    ensures rest as int == total as int + after.charged as int - state.charged as int && rest <= total
  {
    hide RoomCharge, ChargeFor;
    CommittedCharge(state.Contents(), digest, bytes as nat, now);
    EntryWithinRoom(state.Contents(), digest);
    var held := state.uploading[digest].charged as u64;
    var settled := ChargeFor(bytes as nat) as u64;
    var roomCharged := state.charged + settled - held;
    rest := total + settled - held;
    if digest in state.stored {
      var replaced := state.stored[digest].charged as u64;
      assert replaced <= roomCharged <= rest;
      roomCharged, rest := SaturatingSub(roomCharged, replaced), SaturatingSub(rest, replaced);
    }
    var payload := Payload(bytes as nat, settled as nat, now + PAYLOAD_TIME_TO_LIVE);
    after := state.(uploading := state.uploading - {digest},
                    stored := state.stored[digest := payload],
                    charged := roomCharged);
  }

  class Store {
    var rooms: Rooms
    var charged: u64
    /** Unbounded here; the relay's is a 64-bit atomic. */
    var nextSerial: nat
    var removals: seq<Removal>

    ghost function View(): Index
      reads this`rooms
    {
      Contents(rooms)
    }

    ghost predicate Valid()
      reads this`rooms, this`charged
    {
      Balanced(rooms, charged) && IndexOk(View())
    }

    constructor ()
      ensures Valid() && View() == map[] && nextSerial == 0 && removals == []
    {
      rooms, charged, nextSerial, removals := map[], 0, 0, [];
    }

    method Reserve(room: RoomId, digest: Digest, bytes: u64, now: Instant) returns (result: ReserveResult)
      requires Valid()
      modifies this`rooms, this`charged
      ensures Valid()
      ensures View() == StoreModel.Reserve(old(View()), room, digest, bytes as nat, now).0
      ensures result == StoreModel.Reserve(old(View()), room, digest, bytes as nat, now).1
    {
      if bytes as nat > MAX_PAYLOAD_BYTES {
        return Refused(PayloadTooLarge);
      }
      ChargeMonotone(bytes as nat, MAX_PAYLOAD_BYTES);
      var charge := ChargeFor(bytes as nat) as u64;
      var roomCharged, released, held := Lookup(rooms, room, digest, now);
      if held.Some? {
        return Granted(held.value);
      }
      ReserveOk(View(), room, digest, bytes as nat, now);
      var entry := Reservation(bytes as nat, charge as nat, now + RESERVATION_TIME_TO_LIVE);
      assert entry == Reservation(bytes as nat, ChargeFor(bytes as nat), now + RESERVATION_TIME_TO_LIVE);
      assert !Held(RoomOf(View(), room), digest, now);
      var refusal := Admit(room, digest, entry, roomCharged, charge, released);
      result := if refusal.Some? then Refused(refusal.value) else Granted(PAYLOAD_TIME_TO_LIVE);
    }

    /** The second half of `reserve`: both ceilings, the room's own first, then the entry. */
    method Admit(room: RoomId, digest: Digest, entry: Reservation, roomCharged: u64, charge: u64, released: u64)
      returns (refusal: Option<Refusal>)
      requires Balanced(rooms, charged) && charge as nat == entry.charged <= MAX_PAYLOAD_BYTES
      requires IndexCharge(View()) <= MAX_STORE_BYTES && roomCharged as nat == RoomCharge(RoomOf(View(), room))
      requires var state := RoomOf(View(), room);
               released as nat == (if digest in state.reserved then state.reserved[digest].charged else 0)
      modifies this`rooms, this`charged
      ensures Balanced(rooms, charged)
      ensures View() == StoreModel.Admit(old(View()), room, digest, entry).0
      ensures refusal == StoreModel.Admit(old(View()), room, digest, entry).1
    {
      ReservationReplaced(View(), room, digest, entry);
      EntryWithinRoom(RoomOf(View(), room), digest);
      RoomWithinStore(View(), room);
      if roomCharged + charge - released > MAX_ROOM_BYTES as u64 {
        return Some(RoomFull);
      }
      if charged + charge - released > MAX_STORE_BYTES as u64 {
        return Some(StoreFull);
      }
      var state := if room in rooms then rooms[room] else RoomState(map[], map[], map[], 0);
      var after := state.(reserved := state.reserved[digest := entry], charged := roomCharged + charge - released);
      PutRoom(rooms, charged, room, after, charged + charge - released);
      charged := charged + charge - released;
      rooms := rooms[room := after];
      return None;
    }

    /** Takes the reservation's allowance; `serial` names the upload when it is accepted. */
    method BeginUpload(room: RoomId, digest: Digest, declared: u64, now: Instant)
      returns (result: BeginResult, serial: nat)
      requires Valid()
      modifies this`rooms, this`charged, this`nextSerial
      ensures Valid()
      ensures serial == old(nextSerial)
      ensures View() == StoreModel.BeginUpload(old(View()), room, digest, declared as nat, now, serial).0
      ensures result == StoreModel.BeginUpload(old(View()), room, digest, declared as nat, now, serial).1
      ensures nextSerial == if View() == old(View()) then serial else serial + 1
    {
      serial := nextSerial;
      BeginOk(View(), room, digest, declared as nat, now, serial);
      if room !in rooms {
        return Unreserved, serial;
      }
      var state := rooms[room];
      if digest in state.stored && state.stored[digest].expiresAt > now {
        return AlreadyHeld, serial;
      }
      if digest !in state.reserved || state.reserved[digest].expiresAt <= now {
        return Unreserved, serial;
      }
      var grant := state.reserved[digest];
      if declared as nat > grant.declared {
        return OverReservation(declared as nat, grant.declared), serial;
      }
      nextSerial := nextSerial + 1;
      result := TakeAllowance(room, digest, serial);
      assert digest in old(View())[room].reserved && digest !in View()[room].reserved;
    }

    /** The second half of `begin_upload`, once a live reservation is known to cover it. */
    method TakeAllowance(room: RoomId, digest: Digest, serial: nat) returns (result: BeginResult)
      requires Balanced(rooms, charged) && room in rooms && digest in rooms[room].reserved
      modifies this`rooms, this`charged
      ensures Balanced(rooms, charged)
      ensures View() == StoreModel.TakeAllowance(old(View()), room, digest, serial).0
      ensures result == StoreModel.TakeAllowance(old(View()), room, digest, serial).1
    {
      var state := rooms[room];
      var grant := state.reserved[digest];
      EntryWithinRoom(state.Contents(), digest);
      TakeRoom(rooms, charged, room);
      TotalSplit(state.reserved, ReservationCharge, digest);
      if digest in state.uploading {
        var released := grant.charged as u64;
        assert released <= state.charged <= charged;
        var after := state.(reserved := state.reserved - {digest}, charged := SaturatingSub(state.charged, released));
        PutRoom(rooms, charged, room, after, SaturatingSub(charged, released));
        rooms := rooms[room := after];
        charged := SaturatingSub(charged, released);
        return Unreserved;
      }
      var flight := InFlight(serial, grant.charged);
      TotalUpdate(state.uploading, FlightCharge, digest, flight);
      var after := state.(reserved := state.reserved - {digest}, uploading := state.uploading[digest := flight]);
      PutRoom(rooms, charged, room, after, charged);
      rooms := rooms[room := after];
      return Accepted;
    }

    /** Returns an upload's allowance if the entry is still its own. */
    method AbandonUpload(room: RoomId, digest: Digest, serial: nat)
      requires Valid()
      modifies this`rooms, this`charged
      ensures Valid()
      ensures View() == StoreModel.AbandonUpload(old(View()), room, digest, serial)
    {
      if room !in rooms {
        return;
      }
      AbandonOk(View(), room, digest, serial);
      var state := rooms[room];
      if digest in state.uploading && state.uploading[digest].serial == serial {
        AbandonCharge(View(), room, digest, serial);
        TakeRoom(rooms, charged, room);
        var released := state.uploading[digest].charged as u64;
        assert released <= state.charged <= charged;
        var rest := state.(uploading := state.uploading - {digest}, charged := SaturatingSub(state.charged, released));
        PutRoom(rooms, charged, room, rest, SaturatingSub(charged, released));
        rooms := rooms[room := rest];
        charged := SaturatingSub(charged, released);
      }
      DropRoomIfIdle(room);
    }

    method DropRoomIfIdle(room: RoomId)
      requires Balanced(rooms, charged)
      modifies this`rooms
      ensures Balanced(rooms, charged)
      ensures View() == DropIfIdle(old(View()), room)
    {
      if room in rooms && rooms[room].IsIdle() && rooms[room].stored == map[] {
        TakeRoom(rooms, charged, room);
        rooms := rooms - {room};
      }
    }

    /** Turns an upload into a stored payload if the entry is still its own. */
    method CommitUpload(room: RoomId, digest: Digest, serial: nat, bytes: u64, now: Instant)
      returns (ok: bool)
      requires Valid()
      requires OwnsFlight(View(), room, digest, serial) ==>
                 ChargeFor(bytes as nat) <= View()[room].uploading[digest].charged
      modifies this`rooms, this`charged
      ensures Valid()
      ensures View() == StoreModel.CommitUpload(old(View()), room, digest, serial, bytes as nat, now).0
      ensures ok == StoreModel.CommitUpload(old(View()), room, digest, serial, bytes as nat, now).1
      ensures charged <= old(charged)
    {
      if room !in rooms {
        return false;
      }
      var state := rooms[room];
      if digest !in state.uploading || state.uploading[digest].serial != serial {
        return false;
      }
      CommitOk(View(), room, digest, serial, bytes as nat, now);
      TakeRoom(rooms, charged, room);
      var after, total := CommitRoom(state, charged, digest, bytes, now);
      PutRoom(rooms, charged, room, after, total);
      rooms := rooms[room := after];
      charged := total;
      return true;
    }

    method ForgetRoom(room: RoomId)
      requires Valid()
      modifies this`rooms, this`charged, this`removals
      ensures Valid()
      ensures View() == StoreModel.ForgetRoom(old(View()), room)
      ensures removals == old(removals) + (if room in old(View()) then [RoomDirectory(room)] else [])
    {
      hide IndexOk;
      ForgetOk(View(), room);
      if room !in rooms {
        NoSuchRoom(View(), room);
        return;
      }
      TakeRoom(rooms, charged, room);
      charged := SaturatingSub(charged, rooms[room].charged);
      rooms := rooms - {room};
      QueueRemoval(RoomDirectory(room));
    }

    /** Serials number uploads and temporary files alike. */
    method TakeSerial() returns (serial: nat)
      modifies this`nextSerial
      ensures serial == old(nextSerial) && nextSerial == serial + 1
    {
      serial := nextSerial;
      nextSerial := nextSerial + 1;
    }

    method QueueRemoval(removal: Removal)
      modifies this`removals
      ensures removals == old(removals) + [removal]
    {
      removals := removals + [removal];
    }

    method PayloadLength(room: RoomId, digest: Digest, now: Instant) returns (length: Option<nat>)
      ensures length == PayloadLen(View(), room, digest, now)
    {
      if room in rooms && digest in rooms[room].stored && rooms[room].stored[digest].expiresAt > now {
        return Some(rooms[room].stored[digest].bytes);
      }
      return None;
    }

    /** Whether a queued removal may still be carried out. */
    method Removable(removal: Removal) returns (yes: bool)
      ensures yes == match removal
                     case PayloadFile(room, digest) => !Owned(View(), room, digest)
                     case RoomDirectory(room) => room !in View()
                     case TempFile(_, _, _) => true
    {
      match removal
      case PayloadFile(room, digest) =>
        yes := !(room in rooms && (digest in rooms[room].stored || digest in rooms[room].uploading));
      case RoomDirectory(room) =>
        yes := room !in rooms;
      case TempFile(_, _, _) =>
        yes := true;
    }

    /** One room's part of a sweep: what it drops, and whether that leaves the room idle. */
    method SweepRoom(room: RoomId, now: Instant) returns (gone: nat, files: seq<Removal>, idle: bool)
      requires Balanced(rooms, charged) && room in rooms
      modifies this`rooms, this`charged
      ensures Balanced(rooms, charged)
      ensures View() == old(View())[room := SweptRoom(old(View())[room], now)]
      ensures multiset(files) == multiset(RoomFiles(old(View()), room, now))
      ensures idle <==> SweptRoom(old(View())[room], now) == EMPTY_ROOM
    {
      var state := rooms[room];
      var after, released, count, names := Expire(state, now);
      TakeRoom(rooms, charged, room);
      PutRoom(rooms, charged, room, after, SaturatingSub(charged, released));
      FilesExactly(View(), room, now, names);
      rooms := rooms[room := after];
      charged := SaturatingSub(charged, released);
      gone, files, idle := count, FilesOf(room, names), after.IsIdle() && after.stored == map[];
    }

    /** The walk over every room, leaving idle ones in place and the removals still to queue. */
    method SweepRooms(now: Instant) returns (swept: Swept, queued: seq<Removal>, idle: set<RoomId>)
      requires Balanced(rooms, charged)
      modifies this`rooms, this`charged
      ensures Balanced(rooms, charged)
      ensures View() == SweptExcept(old(View()), {}, now)
      ensures idle == IdleRooms(old(View()), {}, now)
      ensures swept.payloads == |queued| && multiset(queued) == multiset(ExpiredFiles(old(View()), now))
    {
      ghost var before := View();
      swept, queued, idle := Swept(0, 0), [], {};
      var todo := rooms.Keys;
      QueuedAll(before, now);
      while todo != {}
        invariant todo <= before.Keys
        invariant Balanced(rooms, charged)
        invariant View() == SweptExcept(before, todo, now)
        invariant idle == IdleRooms(before, todo, now)
        invariant swept.payloads == |queued| && multiset(queued) == multiset(FilesOutside(before, todo, now))
        decreases todo
      {
        var room :| room in todo;
        SweptOneMore(before, todo, now, room);
        var gone, files, empty := SweepRoom(room, now);
        QueuedOneMore(before, todo, now, room);
        queued := queued + files;
        swept := Swept(swept.payloads + |files|, swept.reservations + gone);
        idle := idle + (if empty then {room} else {});
        todo := todo - {room};
      }
    }

    /** Removes everything whose time has passed, queueing one file removal per expired payload. */
    method Sweep(now: Instant) returns (swept: Swept)
      requires Valid()
      modifies this`rooms, this`charged, this`removals
      ensures Valid()
      ensures View() == StoreModel.Sweep(old(View()), now)
      ensures old(removals) <= removals
      ensures multiset(removals) == multiset(old(removals)) + multiset(ExpiredFiles(old(View()), now))
      ensures swept.payloads == |ExpiredFiles(old(View()), now)|
    {
      SweepOk(View(), now);
      SweptAll(View(), now);
      var queued, idle;
      swept, queued, idle := SweepRooms(now);
      DropIdle(idle);
      assert |queued| == |multiset(queued)|;
      removals := removals + queued;
    }

    method DropIdle(idle: set<RoomId>)
      requires Balanced(rooms, charged)
      requires forall r :: r in idle ==> r in View() && View()[r] == EMPTY_ROOM
      modifies this`rooms
      ensures Balanced(rooms, charged) && View() == old(View()) - idle
    {
      TakeEmptyRooms(rooms, charged, idle);
      rooms := rooms - idle;
    }
  }

  /** A sweep that has not yet come to the rooms in `todo`. */
  ghost function SweptExcept(index: Index, todo: set<RoomId>, now: Instant): Index {
    map r | r in index :: if r in todo then index[r] else SweptRoom(index[r], now)
  }

  ghost function IdleRooms(index: Index, todo: set<RoomId>, now: Instant): set<RoomId> {
    set r | r in index && r !in todo && SweptRoom(index[r], now) == EMPTY_ROOM
  }

  lemma SweptOneMore(index: Index, todo: set<RoomId>, now: Instant, room: RoomId)
    requires room in todo && room in index
    ensures SweptExcept(index, todo, now)[room] == index[room]
    ensures SweptExcept(index, todo - {room}, now)
         == SweptExcept(index, todo, now)[room := SweptRoom(index[room], now)]
    ensures IdleRooms(index, todo - {room}, now)
         == IdleRooms(index, todo, now) + (if SweptRoom(index[room], now) == EMPTY_ROOM then {room} else {})
  {
  }

  lemma SweptAll(index: Index, now: Instant)
    ensures var idle := IdleRooms(index, {}, now);
            var all := SweptExcept(index, {}, now);
            && (forall r :: r in idle ==> r in all && all[r] == EMPTY_ROOM)
            && all - idle == StoreModel.Sweep(index, now)
  {
  }

  /** The file removals one room's expired payloads call for. */
  ghost function RoomFiles(index: Index, room: RoomId, now: Instant): set<Removal> {
    if room !in index then {} else
    set d | d in index[room].stored && index[room].stored[d].expiresAt <= now :: PayloadFile(room, d)
  }

  /** What a sweep has to queue once it has been to every room outside `todo`. */
  ghost function FilesOutside(index: Index, todo: set<RoomId>, now: Instant): set<Removal> {
    set r, d | r in index && r !in todo && d in index[r].stored && index[r].stored[d].expiresAt <= now ::
      PayloadFile(r, d)
  }

  function FilesOf(room: RoomId, expired: seq<Digest>): (files: seq<Removal>)
    ensures forall x :: x in files ==> x.PayloadFile? && x.room == room
  {
    if expired == [] then [] else [PayloadFile(room, expired[0])] + FilesOf(room, expired[1..])
  }

  /** Naming distinct payloads gives distinct removals. */
  lemma {:induction false} FilesCount(room: RoomId, expired: seq<Digest>, d: Digest)
    ensures multiset(FilesOf(room, expired))[PayloadFile(room, d)] == multiset(expired)[d]
  {
    if expired != [] {
      FilesCount(room, expired[1..], d);
      assert expired == [expired[0]] + expired[1..];
    }
  }

  lemma FilesExactly(index: Index, room: RoomId, now: Instant, expired: seq<Digest>)
    requires room in index
    requires multiset(expired) == multiset(index[room].stored.Keys - SweptRoom(index[room], now).stored.Keys)
    ensures multiset(FilesOf(room, expired)) == multiset(RoomFiles(index, room, now))
  {
    var files := FilesOf(room, expired);
    forall x ensures multiset(files)[x] == multiset(RoomFiles(index, room, now))[x] {
      if x.PayloadFile? && x.room == room {
        FilesCount(room, expired, x.digest);
      }
    }
  }

  lemma QueuedOneMore(index: Index, todo: set<RoomId>, now: Instant, room: RoomId)
    requires room in todo && room in index
    ensures multiset(FilesOutside(index, todo - {room}, now))
         == multiset(FilesOutside(index, todo, now)) + multiset(RoomFiles(index, room, now))
  {
    assert FilesOutside(index, todo - {room}, now) == FilesOutside(index, todo, now) + RoomFiles(index, room, now);
    assert FilesOutside(index, todo, now) !! RoomFiles(index, room, now);
  }

  lemma QueuedAll(index: Index, now: Instant)
    ensures FilesOutside(index, {}, now) == ExpiredFiles(index, now)
    ensures FilesOutside(index, index.Keys, now) == {}
  {
  }
}
