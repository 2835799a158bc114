/**
 The payload store's index, as what it means rather than how it is kept.

 The relay maintains a running charge beside every room and one beside the whole
 index. Here there is no counter at all: a room's charge is the sum over its
 entries, and every decision is taken by recomputing that sum. `StoreIndex`
 keeps the counters and is proved to take the same decisions.
 */
module StoreModel {
  import opened Basics
  import opened Totals

  /** A room is named by two components that are never joined into one string. */
  datatype RoomId = RoomId(project: string, task: string)

  type Digest = string
  /** Nanoseconds on a clock that never goes backwards. */
  type Instant = nat

  const MIN_CHARGE_BYTES: nat := 65536
  const MAX_PAYLOAD_BYTES: nat := 4 * 1024 * 1024
  const MAX_ROOM_BYTES: nat := 8 * MAX_PAYLOAD_BYTES
  const MAX_STORE_BYTES: nat := 8 * MAX_ROOM_BYTES
  const SECOND: nat := 1_000_000_000
  const PAYLOAD_TIME_TO_LIVE: nat := 2 * 60 * 60 * SECOND
  const RESERVATION_TIME_TO_LIVE: nat := 60 * SECOND

  datatype Reservation = Reservation(declared: nat, charged: nat, expiresAt: Instant)
  datatype InFlight = InFlight(serial: nat, charged: nat)
  datatype Payload = Payload(bytes: nat, charged: nat, expiresAt: Instant)

  datatype Room = Room(
    reserved: map<Digest, Reservation>,
    uploading: map<Digest, InFlight>,
    stored: map<Digest, Payload>)

  type Index = map<RoomId, Room>

  const EMPTY_ROOM := Room(map[], map[], map[])

  datatype Refusal = PayloadTooLarge | RoomFull | StoreFull
  datatype ReserveResult = Granted(timeToLive: nat) | Refused(why: Refusal)
  datatype BeginResult =
    | AlreadyHeld
    | Accepted
    | Unreserved
    | OverReservation(declared: nat, reserved: nat)

  /** A file removal put off until the maintenance task comes to it. */
  datatype Removal =
    | PayloadFile(room: RoomId, digest: Digest)
    | RoomDirectory(room: RoomId)
    | TempFile(room: RoomId, digest: Digest, serial: nat)

  /** Rounds up to whole units, and a zero-length payload to one unit. */
  function ChargeFor(bytes: nat): (charge: nat)
    ensures bytes <= charge < bytes + MIN_CHARGE_BYTES + (if bytes == 0 then 1 else 0)
    ensures charge % MIN_CHARGE_BYTES == 0 && charge >= MIN_CHARGE_BYTES
  {
    var billed := if bytes < 1 then 1 else bytes;
    (billed + MIN_CHARGE_BYTES - 1) / MIN_CHARGE_BYTES * MIN_CHARGE_BYTES
  }

  lemma ChargeMonotone(a: nat, b: nat)
    requires a <= b
    ensures ChargeFor(a) <= ChargeFor(b)
    ensures b <= MAX_PAYLOAD_BYTES ==> ChargeFor(b) <= MAX_PAYLOAD_BYTES
  {
  }

  // ---------------------------------------------------------------------------
  // Charges
  // ---------------------------------------------------------------------------

  function ReservationCharge(r: Reservation): nat { r.charged }
  function FlightCharge(f: InFlight): nat { f.charged }
  function PayloadCharge(p: Payload): nat { p.charged }

  ghost function RoomCharge(room: Room): nat {
    Total(room.reserved, ReservationCharge)
    + Total(room.uploading, FlightCharge)
    + Total(room.stored, PayloadCharge)
  }

  ghost function IndexCharge(index: Index): nat {
    Total(index, RoomCharge)
  }

  function EntryCount(room: Room): nat {
    |room.reserved| + |room.uploading| + |room.stored|
  }

  function RoomOf(index: Index, room: RoomId): Room {
    if room in index then index[room] else EMPTY_ROOM
  }

  // ---------------------------------------------------------------------------
  // Operations
  // ---------------------------------------------------------------------------

  predicate Held(state: Room, digest: Digest, now: Instant) {
    digest in state.stored && state.stored[digest].expiresAt > now
  }

  /** Inserts a reservation unless a ceiling refuses; the room's own bound is asked first. */
  ghost function Admit(index: Index, room: RoomId, digest: Digest, entry: Reservation): (Index, Option<Refusal>) {
    var state := RoomOf(index, room);
    var after := state.(reserved := state.reserved[digest := entry]);
    if RoomCharge(after) > MAX_ROOM_BYTES then (index, Some(RoomFull))
    else if IndexCharge(index[room := after]) > MAX_STORE_BYTES then (index, Some(StoreFull))
    else (index[room := after], None)
  }

  ghost function Reserve(index: Index, room: RoomId, digest: Digest, bytes: nat, now: Instant)
    : (Index, ReserveResult)
  {
    var state := RoomOf(index, room);
    if bytes > MAX_PAYLOAD_BYTES then (index, Refused(PayloadTooLarge))
    else if Held(state, digest, now) then (index, Granted(state.stored[digest].expiresAt - now))
    else
      var entry := Reservation(bytes, ChargeFor(bytes), now + RESERVATION_TIME_TO_LIVE);
      var (after, refusal) := Admit(index, room, digest, entry);
      (after, if refusal.Some? then Refused(refusal.value) else Granted(PAYLOAD_TIME_TO_LIVE))
  }

  function BeginUpload(index: Index, room: RoomId, digest: Digest, declared: nat, now: Instant, serial: nat)
    : (Index, BeginResult)
  {
    var state := RoomOf(index, room);
    if Held(state, digest, now) then (index, AlreadyHeld)
    else if digest !in state.reserved || state.reserved[digest].expiresAt <= now then (index, Unreserved)
    else
      var grant := state.reserved[digest];
      if declared > grant.declared then (index, OverReservation(declared, grant.declared))
      else TakeAllowance(index, room, digest, serial)
  }

  /** Moves a reservation's allowance to an upload, or gives it back when one is already in flight. */
  function TakeAllowance(index: Index, room: RoomId, digest: Digest, serial: nat): (Index, BeginResult)
    requires room in index && digest in index[room].reserved
  {
    var state := index[room];
    var taken := state.(reserved := state.reserved - {digest});
    if digest in state.uploading then (index[room := taken], Unreserved)
    else
      var flight := InFlight(serial, state.reserved[digest].charged);
      (index[room := taken.(uploading := taken.uploading[digest := flight])], Accepted)
  }

  /** Whether the upload numbered `serial` still owns the in-flight entry. */
  predicate OwnsFlight(index: Index, room: RoomId, digest: Digest, serial: nat) {
    room in index && digest in index[room].uploading && index[room].uploading[digest].serial == serial
  }

  function DropIfIdle(index: Index, room: RoomId): Index {
    if room in index && index[room] == EMPTY_ROOM then index - {room} else index
  }

  function AbandonUpload(index: Index, room: RoomId, digest: Digest, serial: nat): Index {
    if OwnsFlight(index, room, digest, serial) then
      var state := index[room];
      DropIfIdle(index[room := state.(uploading := state.uploading - {digest})], room)
    else DropIfIdle(index, room)
  }

  /** A room whose upload of an address became its stored payload. */
  function CommittedContents(state: Room, digest: Digest, bytes: nat, now: Instant): Room {
    var payload := Payload(bytes, ChargeFor(bytes), now + PAYLOAD_TIME_TO_LIVE);
    state.(uploading := state.uploading - {digest}, stored := state.stored[digest := payload])
  }

  function CommitUpload(index: Index, room: RoomId, digest: Digest, serial: nat, bytes: nat, now: Instant)
    : (Index, bool)
  {
    if OwnsFlight(index, room, digest, serial)
    then (index[room := CommittedContents(index[room], digest, bytes, now)], true)
    else (index, false)
  }

  function ForgetRoom(index: Index, room: RoomId): Index {
    index - {room}
  }

  function SweptRoom(state: Room, now: Instant): Room {
    state.(reserved := map d | d in state.reserved && state.reserved[d].expiresAt > now :: state.reserved[d],
           stored := map d | d in state.stored && state.stored[d].expiresAt > now :: state.stored[d])
  }

  function Sweep(index: Index, now: Instant): Index {
    map r | r in index && SweptRoom(index[r], now) != EMPTY_ROOM :: SweptRoom(index[r], now)
  }

  function PayloadLen(index: Index, room: RoomId, digest: Digest, now: Instant): Option<nat> {
    var state := RoomOf(index, room);
    if Held(state, digest, now) then Some(state.stored[digest].bytes) else None
  }

  /** The files a sweep gives up: one for each payload whose time has passed. */
  ghost function ExpiredFiles(index: Index, now: Instant): set<Removal> {
    set r, d | r in index && d in index[r].stored && index[r].stored[d].expiresAt <= now :: PayloadFile(r, d)
  }

  /** An address the index answers for: stored, or being written to. */
  predicate Owned(index: Index, room: RoomId, digest: Digest) {
    room in index && (digest in index[room].stored || digest in index[room].uploading)
  }

  // ---------------------------------------------------------------------------
  // What every operation keeps
  // ---------------------------------------------------------------------------

  predicate EntriesOk(state: Room) {
    && (forall d :: d in state.reserved ==>
          state.reserved[d].declared <= MAX_PAYLOAD_BYTES
          && state.reserved[d].charged == ChargeFor(state.reserved[d].declared))
    && (forall d :: d in state.uploading ==>
          MIN_CHARGE_BYTES <= state.uploading[d].charged <= MAX_PAYLOAD_BYTES)
    && (forall d :: d in state.stored ==>
          state.stored[d].bytes <= MAX_PAYLOAD_BYTES
          && state.stored[d].charged == ChargeFor(state.stored[d].bytes))
  }

  /** No idle room is kept, every entry is charged in whole units, and no ceiling is passed. */
  ghost predicate RoomOk(state: Room) {
    EntriesOk(state) && state != EMPTY_ROOM && RoomCharge(state) <= MAX_ROOM_BYTES
  }

  ghost predicate IndexOk(index: Index) {
    (forall r :: r in index ==> RoomOk(index[r])) && IndexCharge(index) <= MAX_STORE_BYTES
  }

  /** What replacing one room does to the whole index's charge. */
  lemma IndexChargeUpdate(index: Index, room: RoomId, state: Room)
    ensures IndexCharge(index[room := state]) + RoomCharge(RoomOf(index, room))
         == IndexCharge(index) + RoomCharge(state)
  {
    TotalUpdate(index, RoomCharge, room, state);
  }

  lemma RoomWithinIndex(index: Index, room: RoomId)
    requires room in index
    ensures IndexCharge(index) == RoomCharge(index[room]) + IndexCharge(index - {room})
  {
    TotalSplit(index, RoomCharge, room);
  }

  /** Replacing a room by one that passes its own ceiling and charges no more keeps the index sound. */
  lemma ShrinkOk(index: Index, room: RoomId, state: Room)
    requires IndexOk(index) && room in index && RoomOk(state)
    requires RoomCharge(state) <= RoomCharge(index[room])
    ensures IndexOk(index[room := state])
    ensures IndexCharge(index[room := state]) <= IndexCharge(index)
  {
    IndexChargeUpdate(index, room, state);
  }

  lemma DropOk(index: Index, room: RoomId)
    requires IndexOk(index) && room in index
    ensures IndexOk(index - {room})
  {
    RoomWithinIndex(index, room);
  }

  lemma ReservedRoomOk(state: Room, digest: Digest, entry: Reservation)
    requires EntriesOk(state) && entry.declared <= MAX_PAYLOAD_BYTES && entry.charged == ChargeFor(entry.declared)
    ensures EntriesOk(state.(reserved := state.reserved[digest := entry]))
    ensures state.(reserved := state.reserved[digest := entry]) != EMPTY_ROOM
  {
    assert digest in state.reserved[digest := entry];
  }

  lemma AdmitOk(index: Index, room: RoomId, digest: Digest, entry: Reservation)
    requires IndexOk(index) && entry.declared <= MAX_PAYLOAD_BYTES && entry.charged == ChargeFor(entry.declared)
    ensures IndexOk(Admit(index, room, digest, entry).0)
  {
    ReservedRoomOk(RoomOf(index, room), digest, entry);
  }

  lemma ReserveOk(index: Index, room: RoomId, digest: Digest, bytes: nat, now: Instant)
    requires IndexOk(index)
    ensures IndexOk(Reserve(index, room, digest, bytes, now).0)
  {
    if bytes <= MAX_PAYLOAD_BYTES {
      AdmitOk(index, room, digest, Reservation(bytes, ChargeFor(bytes), now + RESERVATION_TIME_TO_LIVE));
    }
  }

  /** What a new reservation of the same address gives back. */
  function Released(state: Room, digest: Digest): nat {
    if digest in state.reserved then state.reserved[digest].charged else 0
  }

  /** The arithmetic of a reservation: add the new charge, take back the one it replaces. */
  lemma ReservationReplaced(index: Index, room: RoomId, digest: Digest, entry: Reservation)
    ensures var state := RoomOf(index, room);
            var after := state.(reserved := state.reserved[digest := entry]);
            && RoomCharge(after) == RoomCharge(state) + entry.charged - Released(state, digest)
            && IndexCharge(index[room := after]) == IndexCharge(index) + entry.charged - Released(state, digest)
  {
    var state := RoomOf(index, room);
    TotalUpdate(state.reserved, ReservationCharge, digest, entry);
    IndexChargeUpdate(index, room, state.(reserved := state.reserved[digest := entry]));
  }

  /** Exactly when a reservation is refused, and by which bound; and what a grant promises and leaves behind. */
  lemma ReserveExactly(index: Index, room: RoomId, digest: Digest, bytes: nat, now: Instant)
    ensures var state := RoomOf(index, room);
            var (after, result) := Reserve(index, room, digest, bytes, now);
            var anew := bytes <= MAX_PAYLOAD_BYTES && !Held(state, digest, now);
            var added := ChargeFor(bytes) - Released(state, digest);
            var roomFits := RoomCharge(state) + added <= MAX_ROOM_BYTES;
            var storeFits := IndexCharge(index) + added <= MAX_STORE_BYTES;
            && (result == Refused(PayloadTooLarge) <==> bytes > MAX_PAYLOAD_BYTES)
            && (result == Refused(RoomFull) <==> anew && !roomFits)
            && (result == Refused(StoreFull) <==> anew && roomFits && !storeFits)
            && (anew && result.Granted? ==>
                  && result.timeToLive == PAYLOAD_TIME_TO_LIVE
                  && after == index[room := state.(reserved := state.reserved[digest :=
                       Reservation(bytes, ChargeFor(bytes), now + RESERVATION_TIME_TO_LIVE)])])
            && (!anew || result.Refused? ==> after == index)
  {
    hide RoomCharge, IndexCharge, ChargeFor;
    ReservationReplaced(index, room, digest, Reservation(bytes, ChargeFor(bytes), now + RESERVATION_TIME_TO_LIVE));
  }

  lemma TakenRoomOk(state: Room, digest: Digest)
    requires RoomOk(state) && digest in state.reserved
    ensures var taken := state.(reserved := state.reserved - {digest});
            && EntriesOk(taken) && RoomCharge(taken) + state.reserved[digest].charged == RoomCharge(state)
            && (digest in state.uploading ==> RoomOk(taken))
  {
    TotalSplit(state.reserved, ReservationCharge, digest);
  }

  lemma BegunRoomOk(state: Room, digest: Digest, flight: InFlight)
    requires EntriesOk(state) && digest !in state.uploading
    requires MIN_CHARGE_BYTES <= flight.charged <= MAX_PAYLOAD_BYTES
    requires RoomCharge(state) + flight.charged <= MAX_ROOM_BYTES
    ensures var begun := state.(uploading := state.uploading[digest := flight]);
            RoomOk(begun) && RoomCharge(begun) == RoomCharge(state) + flight.charged
  {
    TotalUpdate(state.uploading, FlightCharge, digest, flight);
    assert digest in state.uploading[digest := flight];
  }

  /** What starting an upload does to the charge: it moves to the upload, or is given back, or stays. */
  ghost predicate BeginMoves(index: Index, room: RoomId, digest: Digest, serial: nat,
                             after: Index, result: BeginResult)
  {
    if result.Accepted? then
      && room in index && digest in index[room].reserved && room in after && digest in after[room].uploading
      && after[room].uploading[digest] == InFlight(serial, index[room].reserved[digest].charged)
      && IndexCharge(after) == IndexCharge(index)
    else if after != index then
      && room in index && digest in index[room].reserved && digest in index[room].uploading
      && IndexCharge(after) + index[room].reserved[digest].charged == IndexCharge(index)
    else true
  }

  lemma TakeOk(index: Index, room: RoomId, digest: Digest, serial: nat)
    requires IndexOk(index) && room in index && digest in index[room].reserved
    ensures var (after, result) := TakeAllowance(index, room, digest, serial);
            IndexOk(after) && BeginMoves(index, room, digest, serial, after, result)
  {
    hide RoomCharge, EntriesOk;
    var state := index[room];
    var taken := state.(reserved := state.reserved - {digest});
    TakenRoomOk(state, digest);
    if digest in state.uploading {
      ShrinkOk(index, room, taken);
      IndexChargeUpdate(index, room, taken);
    } else {
      var flight := InFlight(serial, state.reserved[digest].charged);
      ReservationUnits(state, digest);
      BegunRoomOk(taken, digest, flight);
      var begun := taken.(uploading := taken.uploading[digest := flight]);
      ShrinkOk(index, room, begun);
      IndexChargeUpdate(index, room, begun);
    }
  }

  lemma ReservationUnits(state: Room, digest: Digest)
    requires EntriesOk(state) && digest in state.reserved
    ensures MIN_CHARGE_BYTES <= state.reserved[digest].charged <= MAX_PAYLOAD_BYTES
  {
    ChargeMonotone(state.reserved[digest].declared, MAX_PAYLOAD_BYTES);
  }

  /** Starting an upload keeps the index sound, and the charge moves to the upload or is given back. */
  lemma BeginOk(index: Index, room: RoomId, digest: Digest, declared: nat, now: Instant, serial: nat)
    requires IndexOk(index)
    ensures var (after, result) := BeginUpload(index, room, digest, declared, now, serial);
            IndexOk(after) && IndexCharge(after) <= IndexCharge(index)
            && BeginMoves(index, room, digest, serial, after, result)
  {
    hide IndexOk, RoomCharge, TakeAllowance;
    if digest in RoomOf(index, room).reserved {
      TakeOk(index, room, digest, serial);
    }
  }

  /** Exactly when an upload is accepted, held already, over what was reserved, or without a reservation to use. */
  lemma BeginExactly(index: Index, room: RoomId, digest: Digest, declared: nat, now: Instant, serial: nat)
    ensures var state := RoomOf(index, room);
            var (after, result) := BeginUpload(index, room, digest, declared, now, serial);
            var live := digest in state.reserved && now < state.reserved[digest].expiresAt;
            var held := digest in state.stored && now < state.stored[digest].expiresAt;
            && (result == AlreadyHeld <==> held)
            && (result.Accepted? <==>
                  !held && live && declared <= state.reserved[digest].declared && digest !in state.uploading)
            && (result.OverReservation? <==> !held && live && declared > state.reserved[digest].declared)
            && (result.OverReservation? ==> result == OverReservation(declared, state.reserved[digest].declared))
            && (result == Unreserved <==>
                  !held && (live ==> declared <= state.reserved[digest].declared && digest in state.uploading))
            && (result.Accepted? ==> OwnsFlight(after, room, digest, serial))
  {
  }

  /** What was granted can be taken up: any upload of up to what was reserved, until the reservation's minute is over.
      Only an instant read before the reservation's own may still find the payload it replaces. */
  lemma ReserveThenBegin(index: Index, room: RoomId, digest: Digest, bytes: nat, at: Instant,
                         declared: nat, now: Instant, serial: nat)
    requires !Held(RoomOf(index, room), digest, at) && Reserve(index, room, digest, bytes, at).1.Granted?
    requires digest !in RoomOf(index, room).uploading && declared <= bytes && now < at + RESERVATION_TIME_TO_LIVE
    ensures BeginUpload(Reserve(index, room, digest, bytes, at).0, room, digest, declared, now, serial).1
         == if Held(RoomOf(index, room), digest, now) then AlreadyHeld else Accepted
    ensures at <= now ==> !Held(RoomOf(index, room), digest, now)
  {
    hide Reserve;
    ReserveExactly(index, room, digest, bytes, at);
  }

  lemma AbandonCharge(index: Index, room: RoomId, digest: Digest, serial: nat)
    requires OwnsFlight(index, room, digest, serial)
    ensures var rest := index[room].(uploading := index[room].uploading - {digest});
            RoomCharge(rest) + index[room].uploading[digest].charged == RoomCharge(index[room])
  {
    TotalSplit(index[room].uploading, FlightCharge, digest);
  }

  lemma AbandonOk(index: Index, room: RoomId, digest: Digest, serial: nat)
    requires IndexOk(index)
    ensures IndexOk(AbandonUpload(index, room, digest, serial))
  {
    if OwnsFlight(index, room, digest, serial) {
      var rest := index[room].(uploading := index[room].uploading - {digest});
      if rest == EMPTY_ROOM {
        assert index[room := rest] - {room} == index - {room};
        DropOk(index, room);
      } else {
        AbandonCharge(index, room, digest, serial);
        assert EntriesOk(rest);
        ShrinkOk(index, room, rest);
      }
    }
  }

  /** The charge a commit leaves: the payload's own, instead of the upload's and of what it displaced. */
  lemma CommittedCharge(state: Room, digest: Digest, bytes: nat, now: Instant)
    requires digest in state.uploading
    ensures RoomCharge(CommittedContents(state, digest, bytes, now)) + state.uploading[digest].charged
              + (if digest in state.stored then state.stored[digest].charged else 0)
            == RoomCharge(state) + ChargeFor(bytes)
  {
    TotalSplit(state.uploading, FlightCharge, digest);
    TotalUpdate(state.stored, PayloadCharge, digest, CommittedContents(state, digest, bytes, now).stored[digest]);
  }

  lemma CommitOk(index: Index, room: RoomId, digest: Digest, serial: nat, bytes: nat, now: Instant)
    requires IndexOk(index)
    requires OwnsFlight(index, room, digest, serial) ==>
               ChargeFor(bytes) <= index[room].uploading[digest].charged
    ensures IndexOk(CommitUpload(index, room, digest, serial, bytes, now).0)
    ensures IndexCharge(CommitUpload(index, room, digest, serial, bytes, now).0) <= IndexCharge(index)
  {
    if OwnsFlight(index, room, digest, serial) {
      var after := CommitUpload(index, room, digest, serial, bytes, now).0;
      CommittedCharge(index[room], digest, bytes, now);
      assert EntriesOk(after[room]);
      assert digest in after[room].stored;
      ShrinkOk(index, room, after[room]);
    }
  }

  lemma ForgetOk(index: Index, room: RoomId)
    requires IndexOk(index)
    ensures IndexOk(ForgetRoom(index, room))
  {
    if room in index {
      DropOk(index, room);
    } else {
      assert index - {room} == index;
    }
  }

  /** What the expired entries of one room were charged. */
  ghost function ExpiredCharge(state: Room, now: Instant): nat {
    Total(state.reserved - SweptRoom(state, now).reserved.Keys, ReservationCharge)
    + Total(state.stored - SweptRoom(state, now).stored.Keys, PayloadCharge)
  }

  lemma SweptRoomCharge(state: Room, now: Instant)
    ensures RoomCharge(SweptRoom(state, now)) + ExpiredCharge(state, now) == RoomCharge(state)
  {
    var swept := SweptRoom(state, now);
    TotalPartition(state.reserved, ReservationCharge, swept.reserved.Keys);
    TotalPartition(state.stored, PayloadCharge, swept.stored.Keys);
    assert state.reserved - (state.reserved.Keys - swept.reserved.Keys) == swept.reserved;
    assert state.stored - (state.stored.Keys - swept.stored.Keys) == swept.stored;
  }

  lemma SweptRoomOk(state: Room, now: Instant)
    requires RoomOk(state)
    ensures SweptRoom(state, now) != EMPTY_ROOM ==> RoomOk(SweptRoom(state, now))
    ensures RoomCharge(SweptRoom(state, now)) <= RoomCharge(state)
  {
    SweptRoomCharge(state, now);
    assert EntriesOk(SweptRoom(state, now));
  }

  lemma SweepWithout(index: Index, now: Instant, r: RoomId)
    ensures Sweep(index - {r}, now) == Sweep(index, now) - {r}
    ensures r !in Sweep(index, now) ==> Sweep(index - {r}, now) == Sweep(index, now)
  {
  }

  /** A map whose every surviving value weighs no more sums to no more. */
  lemma {:induction false} SweepShrinks(index: Index, now: Instant)
    ensures IndexCharge(Sweep(index, now)) <= IndexCharge(index)
    decreases |index|
  {
    if index == map[] {
      assert Sweep(index, now) == map[];
    } else {
      var r :| r in index;
      RoomWithinIndex(index, r);
      SweepShrinks(index - {r}, now);
      SweptRoomCharge(index[r], now);
      SweepWithout(index, now, r);
      if r in Sweep(index, now) {
        RoomWithinIndex(Sweep(index, now), r);
      }
    }
  }

  lemma SweepOk(index: Index, now: Instant)
    requires IndexOk(index)
    ensures IndexOk(Sweep(index, now))
  {
    SweepShrinks(index, now);
    forall r | r in Sweep(index, now) ensures RoomOk(Sweep(index, now)[r]) {
      SweptRoomOk(index[r], now);
    }
  }

  // ---------------------------------------------------------------------------
  // What the ceilings mean
  // ---------------------------------------------------------------------------

  /** 32 MiB and 512 entries: charging in whole units is what bounds the second. */
  lemma RoomCeilings(state: Room)
    requires RoomOk(state)
    ensures 1 <= EntryCount(state) <= 512
    ensures MIN_CHARGE_BYTES * EntryCount(state) <= RoomCharge(state)
  {
    TotalBounds(state.reserved, ReservationCharge, MIN_CHARGE_BYTES, MAX_PAYLOAD_BYTES) by {
      forall d | d in state.reserved
        ensures MIN_CHARGE_BYTES <= ReservationCharge(state.reserved[d]) <= MAX_PAYLOAD_BYTES
      {
        ChargeMonotone(state.reserved[d].declared, MAX_PAYLOAD_BYTES);
      }
    }
    TotalBounds(state.uploading, FlightCharge, MIN_CHARGE_BYTES, MAX_PAYLOAD_BYTES);
    TotalBounds(state.stored, PayloadCharge, MIN_CHARGE_BYTES, MAX_PAYLOAD_BYTES) by {
      forall d | d in state.stored
        ensures MIN_CHARGE_BYTES <= PayloadCharge(state.stored[d]) <= MAX_PAYLOAD_BYTES
      {
        ChargeMonotone(state.stored[d].bytes, MAX_PAYLOAD_BYTES);
      }
    }
    assert |state.reserved| == 0 ==> state.reserved == map[];
    assert |state.uploading| == 0 ==> state.uploading == map[];
    assert |state.stored| == 0 ==> state.stored == map[];
  }

  lemma {:induction false} EntriesWithinCharge(index: Index)
    requires forall r :: r in index ==> RoomOk(index[r])
    ensures MIN_CHARGE_BYTES * Total(index, EntryCount) <= IndexCharge(index)
    decreases |index|
  {
    if index != map[] {
      var r :| r in index;
      TotalSplit(index, EntryCount, r);
      RoomWithinIndex(index, r);
      RoomCeilings(index[r]);
      EntriesWithinCharge(index - {r});
    }
  }

  /** A sound index holds at most 4096 entries in all, and at most 4096 rooms. */
  lemma StoreCeilings(index: Index)
    requires IndexOk(index)
    ensures IndexCharge(index) <= MAX_STORE_BYTES
    ensures Total(index, EntryCount) <= 4096
    ensures |index| <= 4096
  {
    EntriesWithinCharge(index);
    TotalBounds(index, EntryCount, 1, 512) by {
      forall r | r in index ensures 1 <= EntryCount(index[r]) <= 512 {
        RoomCeilings(index[r]);
      }
    }
  }

  lemma ManyRooms(index: Index)
    requires forall r :: r in index ==> RoomOk(index[r])
    requires IndexCharge(index) > 7 * MAX_ROOM_BYTES
    ensures |index| >= 8
    ensures forall r :: r in index ==> RoomCharge(index[r]) >= MIN_CHARGE_BYTES
  {
    var ceiling := 33_554_432;
    assert MAX_ROOM_BYTES == ceiling;
    TotalBounds(index, RoomCharge, 0, ceiling);
    forall r | r in index ensures RoomCharge(index[r]) >= MIN_CHARGE_BYTES {
      RoomCeilings(index[r]);
    }
  }

  lemma StoreFullCharge(index: Index, room: RoomId, digest: Digest, bytes: nat, now: Instant)
    requires Reserve(index, room, digest, bytes, now).1 == Refused(StoreFull)
    ensures IndexCharge(index - {room}) > MAX_STORE_BYTES - MAX_ROOM_BYTES
  {
    var state := RoomOf(index, room);
    var entry := Reservation(bytes, ChargeFor(bytes), now + RESERVATION_TIME_TO_LIVE);
    TotalUpdate(index, RoomCharge, room, state.(reserved := state.reserved[digest := entry]));
  }

  /** A refusal for the whole store is never one room's doing: eight others hold charge. */
  lemma StoreFullMeansOtherRooms(index: Index, room: RoomId, digest: Digest, bytes: nat, now: Instant)
    requires IndexOk(index)
    requires Reserve(index, room, digest, bytes, now).1 == Refused(StoreFull)
    ensures var others := index - {room};
            |others| >= 8 && forall r :: r in others ==> RoomCharge(others[r]) >= MIN_CHARGE_BYTES
  {
    StoreFullCharge(index, room, digest, bytes, now);
    ManyRooms(index - {room});
  }
}
