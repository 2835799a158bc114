/**
 Every step of `StoreRuns` keeps its invariants, and what follows for whole runs.
 */
module StoreSafety {
  import opened Basics
  import opened Totals
  import opened StoreModel
  import opened StoreRuns

  ghost predicate Sub<K, V>(part: map<K, V>, whole: map<K, V>) {
    forall k :: k in part ==> k in whole && part[k] == whole[k]
  }

  // ---------------------------------------------------------------------------
  // Steps that only take entries out of the index
  // ---------------------------------------------------------------------------

  /** No flight and no payload that was not there before. */
  ghost predicate Fewer(index: Index, after: Index) {
    forall r :: Sub(RoomOf(after, r).uploading, RoomOf(index, r).uploading)
             && Sub(RoomOf(after, r).stored, RoomOf(index, r).stored)
  }

  ghost predicate SameStored(index: Index, after: Index) {
    forall r :: RoomOf(after, r).stored == RoomOf(index, r).stored
  }

  ghost predicate FewerReserved(index: Index, after: Index) {
    forall r :: RoomOf(after, r).reserved.Keys <= RoomOf(index, r).reserved.Keys
  }

  lemma FewerKeeps(s: System, after: Index)
    requires FlightsOk(s) && StoredOk(s) && LandingsOk(s) && NoOverlap(s) && Fewer(s.index, after)
    ensures var t := s.(index := after); FlightsOk(t) && StoredOk(t) && LandingsOk(t) && NoOverlap(t)
  {
    var t := s.(index := after);
    forall r, d | d in RoomOf(after, r).uploading ensures FlightOk(t.guards, r, d, RoomOf(after, r).uploading[d]) {
      assert FlightOk(s.guards, r, d, RoomOf(s.index, r).uploading[d]);
    }
    forall r, d | d in RoomOf(after, r).stored ensures HasFile(t.files, r, d, RoomOf(after, r).stored[d].bytes) {
      assert HasFile(s.files, r, d, RoomOf(s.index, r).stored[d].bytes);
    }
    forall g | g in t.guards && HasLanded(t.guards[g], t.ops)
               && OwnsFlight(after, t.guards[g].room, t.guards[g].digest, g)
      ensures FinalPath(t.guards[g].room, t.guards[g].digest) in t.files
    {
      var r := t.guards[g].room;
      assert Sub(RoomOf(after, r).uploading, RoomOf(s.index, r).uploading);
      assert HasLanded(s.guards[g], s.ops) && OwnsFlight(s.index, r, s.guards[g].digest, g);
    }
    forall r, d ensures ExpiredIfUploading(RoomOf(after, r), t.clock, d) {
      assert ExpiredIfUploading(RoomOf(s.index, r), s.clock, d);
    }
  }

  lemma ReserveShape(index: Index, room: RoomId, digest: Digest, bytes: nat, now: Instant)
    ensures var (after, result) := Reserve(index, room, digest, bytes, now);
            && Fewer(index, after) && SameStored(index, after)
            && (after != index ==> result.Granted? && !Held(RoomOf(index, room), digest, now))
            && forall r :: RoomOf(after, r).reserved.Keys
                           <= RoomOf(index, r).reserved.Keys + (if r == room then {digest} else {})
  {
  }

  lemma ReserveGrants(h: Bytes -> Digest, s: System, room: RoomId, digest: Digest, bytes: nat, now: Instant)
    requires GrantsOk(s) && now <= s.clock
    ensures GrantsOk(Apply(h, s, ReserveRoom(room, digest, bytes, now)))
  {
    var t := Apply(h, s, ReserveRoom(room, digest, bytes, now));
    ReserveShape(s.index, room, digest, bytes, now);
    forall r, d ensures GrantOk(RoomOf(t.index, r), t.accepted[(r, d)], t.grants[(r, d)], d) {
      assert GrantOk(RoomOf(s.index, r), s.accepted[(r, d)], s.grants[(r, d)], d);
      assert RoomOf(t.index, r).reserved.Keys
          <= RoomOf(s.index, r).reserved.Keys + (if r == room then {digest} else {});
    }
  }

  lemma AbandonShape(index: Index, room: RoomId, digest: Digest, serial: nat)
    ensures var after := AbandonUpload(index, room, digest, serial);
            && Fewer(index, after) && SameStored(index, after) && FewerReserved(index, after)
            && !OwnsFlight(after, room, digest, serial)
  {
  }

  lemma SweepShape(index: Index, now: Instant)
    ensures Fewer(index, Sweep(index, now)) && FewerReserved(index, Sweep(index, now))
    ensures forall r, d :: d in RoomOf(index, r).stored && RoomOf(index, r).stored[d].expiresAt > now ==>
              d in RoomOf(Sweep(index, now), r).stored
  {
    hide Sweep, RoomOf;
    forall r ensures RoomOf(Sweep(index, now), r) == SweptRoom(RoomOf(index, r), now) {
      SweptRoomOf(index, now, r);
    }
  }

  lemma SweptRoomOf(index: Index, now: Instant, r: RoomId)
    ensures RoomOf(Sweep(index, now), r) == SweptRoom(RoomOf(index, r), now)
  {
    assert SweptRoom(EMPTY_ROOM, now) == EMPTY_ROOM;
  }

  lemma ForgetShape(index: Index, room: RoomId)
    ensures Fewer(index, ForgetRoom(index, room)) && FewerReserved(index, ForgetRoom(index, room))
    ensures forall r :: RoomOf(ForgetRoom(index, room), r) == if r == room then EMPTY_ROOM else RoomOf(index, r)
  {
  }

  lemma TickKeeps(h: Bytes -> Digest, s: System, now: Instant)
    requires Inv(h, s) && s.clock <= now
    ensures Inv(h, s.(clock := now))
  {
    hide RoomOf, IndexOk;
    forall r, d ensures LifetimeOk(RoomOf(s.index, r), s.commits, now, r, d) {
      assert LifetimeOk(RoomOf(s.index, r), s.commits, s.clock, r, d);
    }
    forall r, d ensures ExpiredIfUploading(RoomOf(s.index, r), now, d) {
      assert ExpiredIfUploading(RoomOf(s.index, r), s.clock, d);
    }
  }

  lemma SameStoredKeeps(s: System, after: Index)
    requires LifetimesOk(s) && SameStored(s.index, after)
    ensures LifetimesOk(s.(index := after))
  {
    var t := s.(index := after);
    forall r, d ensures LifetimeOk(RoomOf(t.index, r), t.commits, t.clock, r, d) {
      assert LifetimeOk(RoomOf(s.index, r), s.commits, s.clock, r, d);
    }
  }

  lemma FewerReservedKeeps(s: System, after: Index)
    requires GrantsOk(s) && FewerReserved(s.index, after)
    ensures GrantsOk(s.(index := after))
  {
    var t := s.(index := after);
    forall r, d ensures GrantOk(RoomOf(t.index, r), t.accepted[(r, d)], t.grants[(r, d)], d) {
      assert RoomOf(after, r).reserved.Keys <= RoomOf(s.index, r).reserved.Keys;
      assert GrantOk(RoomOf(s.index, r), s.accepted[(r, d)], s.grants[(r, d)], d);
    }
  }

  lemma ReserveKeeps(h: Bytes -> Digest, s: System, room: RoomId, digest: Digest, bytes: nat, now: Instant)
    requires Inv(h, s) && now <= s.clock
    ensures Inv(h, Apply(h, s, ReserveRoom(room, digest, bytes, now)))
  {
    hide StoreModel.Reserve, RoomOf, Fewer, SameStored, IndexOk, GrantsOk, FlightsOk, StoredOk, LandingsOk;
    hide LifetimesOk, NoOverlap, SerialsOk, GuardsOk, RenamesOk, AddressesOk;
    var t := Apply(h, s, ReserveRoom(room, digest, bytes, now));
    var after := Reserve(s.index, room, digest, bytes, now).0;
    ReserveShape(s.index, room, digest, bytes, now);
    ReserveOk(s.index, room, digest, bytes, now);
    FewerKeeps(s, after);
    SameStoredKeeps(s, after);
    FrameIndex(h, s, t);
    ReserveGrants(h, s, room, digest, bytes, now);
  }

  /** What does not read the index, its history or the clock is unaffected by them. */
  lemma FrameIndex(h: Bytes -> Digest, s: System, t: System)
    requires SerialsOk(s) && GuardsOk(h, s) && RenamesOk(h, s) && AddressesOk(h, s)
    requires t.nextSerial == s.nextSerial && t.guards == s.guards && t.files == s.files && t.ops == s.ops
    ensures SerialsOk(t) && GuardsOk(h, t) && RenamesOk(h, t) && AddressesOk(h, t)
    ensures FlightsOk(s.(index := t.index)) ==> FlightsOk(t)
    ensures StoredOk(s.(index := t.index)) ==> StoredOk(t)
    ensures LandingsOk(s.(index := t.index)) ==> LandingsOk(t)
    ensures t.clock == s.clock && NoOverlap(s.(index := t.index)) ==> NoOverlap(t)
    ensures t.grants == s.grants && t.accepted == s.accepted && GrantsOk(s.(index := t.index)) ==> GrantsOk(t)
    ensures t.clock == s.clock && t.commits == s.commits && LifetimesOk(s.(index := t.index)) ==> LifetimesOk(t)
  {
    var m := s.(index := t.index);
    if FlightsOk(m) {
      forall r, d | d in RoomOf(t.index, r).uploading
        ensures FlightOk(t.guards, r, d, RoomOf(t.index, r).uploading[d])
      {
        assert FlightOk(m.guards, r, d, RoomOf(m.index, r).uploading[d]);
      }
    }
    if LandingsOk(m) {
      forall g | g in t.guards && HasLanded(t.guards[g], t.ops)
                 && OwnsFlight(t.index, t.guards[g].room, t.guards[g].digest, g)
        ensures FinalPath(t.guards[g].room, t.guards[g].digest) in t.files
      {
        assert HasLanded(m.guards[g], m.ops);
      }
    }
  }

  lemma EndedLifetimes(s: System, room: RoomId)
    requires LifetimesOk(s)
    ensures LifetimesOk(s.(index := ForgetRoom(s.index, room),
                           commits := map a | a in s.commits && a.0 != room :: s.commits[a]))
  {
    var t := s.(index := ForgetRoom(s.index, room), commits := map a | a in s.commits && a.0 != room :: s.commits[a]);
    ForgetShape(s.index, room);
    forall r, d ensures LifetimeOk(RoomOf(t.index, r), t.commits, t.clock, r, d) {
      assert LifetimeOk(RoomOf(s.index, r), s.commits, s.clock, r, d);
    }
  }

  lemma EndRoomKeeps(h: Bytes -> Digest, s: System, room: RoomId)
    requires Inv(h, s)
    ensures Inv(h, Apply(h, s, EndRoom(room)))
  {
    hide StoreModel.ForgetRoom, RoomOf, Fewer, FewerReserved, IndexOk;
    var t := Apply(h, s, EndRoom(room));
    ForgetShape(s.index, room);
    ForgetOk(s.index, room);
    FewerKeeps(s, t.index);
    FewerReservedKeeps(s, t.index);
    FrameIndex(h, s, t);
    EndedLifetimes(s, room);
  }

  lemma SweepKeeps(h: Bytes -> Digest, s: System, now: Instant)
    requires Inv(h, s) && now <= s.clock
    ensures Inv(h, Apply(h, s, SweepExpired(now)))
  {
    hide StoreModel.Sweep, RoomOf, Fewer, FewerReserved, IndexOk, GrantsOk, FlightsOk, StoredOk, LandingsOk;
    hide LifetimesOk, NoOverlap, SerialsOk, GuardsOk, RenamesOk, AddressesOk, ExpiredFiles;
    var t := Apply(h, s, SweepExpired(now));
    SweepShape(s.index, now);
    SweepOk(s.index, now);
    FewerKeeps(s, t.index);
    FewerReservedKeeps(s, t.index);
    FrameIndex(h, s, t);
    SweptLifetimes(s, now);
  }

  lemma SweptLifetimes(s: System, now: Instant)
    requires LifetimesOk(s) && now <= s.clock
    ensures LifetimesOk(s.(index := Sweep(s.index, now)))
  {
    var t := s.(index := Sweep(s.index, now));
    SweepShape(s.index, now);
    forall r, d ensures LifetimeOk(RoomOf(t.index, r), t.commits, t.clock, r, d) {
      assert LifetimeOk(RoomOf(s.index, r), s.commits, s.clock, r, d);
    }
  }

  // ---------------------------------------------------------------------------
  // Accepting an upload
  // ---------------------------------------------------------------------------

  /** The index after one reservation of `room` has become the upload numbered `serial`. */
  ghost predicate Joined(index: Index, after: Index, room: RoomId, digest: Digest, declared: nat, serial: nat) {
    && SameStored(index, after) && FewerReserved(index, after)
    && digest in RoomOf(index, room).reserved && digest !in RoomOf(after, room).reserved
    && declared <= RoomOf(index, room).reserved[digest].declared
    && (forall r :: RoomOf(after, r).uploading == if r != room then RoomOf(index, r).uploading
          else RoomOf(index, r).uploading[digest := InFlight(serial, RoomOf(index, r).reserved[digest].charged)])
  }

  lemma BeginShape(index: Index, room: RoomId, digest: Digest, declared: nat, now: Instant, serial: nat)
    ensures var (after, result) := BeginUpload(index, room, digest, declared, now, serial);
            if result.Accepted?
            then Joined(index, after, room, digest, declared, serial) && !Held(RoomOf(index, room), digest, now)
            else Fewer(index, after) && SameStored(index, after) && FewerReserved(index, after)
  {
  }

  ghost predicate Began(s: System, t: System, room: RoomId, digest: Digest, declared: nat) {
    && Joined(s.index, t.index, room, digest, declared, s.nextSerial)
    && t == s.(index := t.index, nextSerial := s.nextSerial + 1,
               guards := s.guards[s.nextSerial := Guard(room, digest, declared, [], None, Ready)],
               accepted := s.accepted + multiset{(room, digest)})
  }

  lemma BeganFlights(s: System, t: System, room: RoomId, digest: Digest, declared: nat)
    requires FlightsOk(s) && SerialsOk(s) && Began(s, t, room, digest, declared) && EntriesOk(RoomOf(s.index, room))
    ensures FlightsOk(t)
  {
    forall r, d | d in RoomOf(t.index, r).uploading ensures FlightOk(t.guards, r, d, RoomOf(t.index, r).uploading[d]) {
      if r == room && d == digest {
        ChargeMonotone(declared, RoomOf(s.index, room).reserved[digest].declared);
      } else {
        assert FlightOk(s.guards, r, d, RoomOf(s.index, r).uploading[d]);
      }
    }
  }

  lemma BeganFiles(h: Bytes -> Digest, s: System, t: System, room: RoomId, digest: Digest, declared: nat)
    requires GuardsOk(h, s) && RenamesOk(h, s) && AddressesOk(h, s) && SerialsOk(s)
    requires Began(s, t, room, digest, declared)
    ensures SerialsOk(t) && GuardsOk(h, t) && RenamesOk(h, t) && AddressesOk(h, t)
  {
    hide Joined;
  }

  lemma BeganStored(s: System, t: System, room: RoomId, digest: Digest, declared: nat)
    requires StoredOk(s) && LifetimesOk(s) && Began(s, t, room, digest, declared)
    ensures StoredOk(t) && LifetimesOk(t)
  {
    SameStoredKeeps(s, t.index);
    forall r, d | d in RoomOf(t.index, r).stored ensures HasFile(t.files, r, d, RoomOf(t.index, r).stored[d].bytes) {
      assert HasFile(s.files, r, d, RoomOf(s.index, r).stored[d].bytes);
    }
  }

  lemma BeganLandings(s: System, t: System, room: RoomId, digest: Digest, declared: nat)
    requires LandingsOk(s) && SerialsOk(s) && Began(s, t, room, digest, declared)
    ensures LandingsOk(t)
  {
    forall g | g in t.guards && HasLanded(t.guards[g], t.ops)
               && OwnsFlight(t.index, t.guards[g].room, t.guards[g].digest, g)
      ensures FinalPath(t.guards[g].room, t.guards[g].digest) in t.files
    {
      assert g in s.guards && HasLanded(s.guards[g], s.ops);
      assert RoomOf(t.index, s.guards[g].room).uploading[s.guards[g].digest].serial == g;
      assert OwnsFlight(s.index, s.guards[g].room, s.guards[g].digest, g);
    }
  }

  lemma BeganOverlap(s: System, t: System, room: RoomId, digest: Digest, declared: nat, now: Instant)
    requires NoOverlap(s) && Began(s, t, room, digest, declared)
    requires now <= s.clock && !Held(RoomOf(s.index, room), digest, now)
    ensures NoOverlap(t)
  {
    forall r, d ensures ExpiredIfUploading(RoomOf(t.index, r), t.clock, d) {
      assert ExpiredIfUploading(RoomOf(s.index, r), s.clock, d);
    }
  }

  lemma BeganGrants(s: System, t: System, room: RoomId, digest: Digest, declared: nat)
    requires GrantsOk(s) && Began(s, t, room, digest, declared)
    ensures GrantsOk(t)
  {
    forall r, d ensures GrantOk(RoomOf(t.index, r), t.accepted[(r, d)], t.grants[(r, d)], d) {
      assert RoomOf(t.index, r).reserved.Keys <= RoomOf(s.index, r).reserved.Keys;
      assert GrantOk(RoomOf(s.index, r), s.accepted[(r, d)], s.grants[(r, d)], d);
    }
  }

  lemma RefusedBeginKeeps(h: Bytes -> Digest, s: System, t: System)
    requires Inv(h, s) && Fewer(s.index, t.index) && SameStored(s.index, t.index) && FewerReserved(s.index, t.index)
    requires IndexOk(t.index) && t == s.(index := t.index, nextSerial := t.nextSerial) && s.nextSerial <= t.nextSerial
    ensures Inv(h, t)
  {
    hide RoomOf, Fewer, SameStored, IndexOk, GrantsOk, FlightsOk, StoredOk, LandingsOk, LifetimesOk, NoOverlap;
    FewerKeeps(s, t.index);
    FewerReservedKeeps(s, t.index);
    SameStoredKeeps(s, t.index);
    SerialsGrow(s, t.nextSerial);
    FrameSerial(s.(index := t.index), t);
    FrameIndex(h, s.(nextSerial := t.nextSerial), t);
  }

  lemma SerialsGrow(s: System, next: nat)
    requires SerialsOk(s) && s.nextSerial <= next
    ensures SerialsOk(s.(nextSerial := next))
  {
  }

  lemma FrameSerial(s: System, t: System)
    requires t == s.(nextSerial := t.nextSerial)
    ensures FlightsOk(s) ==> FlightsOk(t)
    ensures StoredOk(s) ==> StoredOk(t)
    ensures LandingsOk(s) ==> LandingsOk(t)
    ensures NoOverlap(s) ==> NoOverlap(t)
    ensures LifetimesOk(s) ==> LifetimesOk(t)
    ensures GrantsOk(s) ==> GrantsOk(t)
  {
    if FlightsOk(s) {
      forall r, d | d in RoomOf(t.index, r).uploading
        ensures FlightOk(t.guards, r, d, RoomOf(t.index, r).uploading[d])
      {
        assert FlightOk(s.guards, r, d, RoomOf(s.index, r).uploading[d]);
      }
    }
    if LandingsOk(s) {
      forall g | g in t.guards && HasLanded(t.guards[g], t.ops)
                 && OwnsFlight(t.index, t.guards[g].room, t.guards[g].digest, g)
        ensures FinalPath(t.guards[g].room, t.guards[g].digest) in t.files
      {
        assert HasLanded(s.guards[g], s.ops);
      }
    }
  }

  lemma BeganKeeps(h: Bytes -> Digest, s: System, t: System, room: RoomId, digest: Digest, declared: nat, now: Instant)
    requires Inv(h, s) && Began(s, t, room, digest, declared) && IndexOk(t.index)
    requires now <= s.clock && !Held(RoomOf(s.index, room), digest, now)
    ensures Inv(h, t)
  {
    hide Began, GrantsOk, FlightsOk, StoredOk, LandingsOk, LifetimesOk, NoOverlap, SerialsOk, GuardsOk, RenamesOk;
    hide AddressesOk, Held;
    assert EntriesOk(RoomOf(s.index, room));
    BeganFlights(s, t, room, digest, declared);
    BeganFiles(h, s, t, room, digest, declared);
    BeganStored(s, t, room, digest, declared);
    BeganLandings(s, t, room, digest, declared);
    BeganOverlap(s, t, room, digest, declared, now);
    BeganGrants(s, t, room, digest, declared);
  }

  lemma BeginKeeps(h: Bytes -> Digest, s: System, room: RoomId, digest: Digest, declared: nat, now: Instant)
    requires Inv(h, s) && now <= s.clock
    ensures Inv(h, Apply(h, s, BeginTransfer(room, digest, declared, now)))
  {
    hide Inv, IndexOk, StoreModel.BeginUpload, Joined, Fewer, SameStored, FewerReserved, Held;
    var t := Apply(h, s, BeginTransfer(room, digest, declared, now));
    BeginShape(s.index, room, digest, declared, now, s.nextSerial);
    IndexPart(h, s);
    BeginOk(s.index, room, digest, declared, now, s.nextSerial);
    if !BeginUpload(s.index, room, digest, declared, now, s.nextSerial).1.Accepted? {
      RefusedBeginKeeps(h, s, t);
    } else {
      BeganKeeps(h, s, t, room, digest, declared, now);
    }
  }

  lemma IndexPart(h: Bytes -> Digest, s: System)
    requires Inv(h, s)
    ensures IndexOk(s.index)
  {
  }

  // ---------------------------------------------------------------------------
  // Unlinking
  // ---------------------------------------------------------------------------

  /** Files only go away, and none that the index answers for. */
  ghost predicate KeepsOwned(s: System, files: map<Path, Bytes>) {
    && Sub(files, s.files)
    && forall r, d :: Owned(s.index, r, d) && FinalPath(r, d) in s.files ==> FinalPath(r, d) in files
  }

  lemma GuardFrame(h: Bytes -> Digest, guard: Guard, ops: map<nat, Operation>, files: map<Path, Bytes>,
                   ops': map<nat, Operation>, files': map<Path, Bytes>)
    requires GuardOk(h, guard, ops, files)
    requires Claim(guard).Some? ==>
               var n := Claim(guard).value;
               var temp := TempPath(guard.room, guard.digest, n);
               && (n in ops ==> n in ops' && ops'[n] == ops[n])
               && (temp in files' ==> temp in files && files'[temp] == files[temp])
    ensures GuardOk(h, guard, ops', files')
  {
  }

  lemma UnlinkKeeps(h: Bytes -> Digest, s: System, files: map<Path, Bytes>)
    requires Inv(h, s) && KeepsOwned(s, files)
    ensures Inv(h, s.(files := files))
  {
    var t := s.(files := files);
    forall r, d | d in RoomOf(t.index, r).stored ensures HasFile(t.files, r, d, RoomOf(t.index, r).stored[d].bytes) {
      assert HasFile(s.files, r, d, RoomOf(s.index, r).stored[d].bytes);
      assert Owned(s.index, r, d);
    }
    forall r, d | d in RoomOf(t.index, r).uploading ensures FlightOk(t.guards, r, d, RoomOf(t.index, r).uploading[d]) {
      assert FlightOk(s.guards, r, d, RoomOf(s.index, r).uploading[d]);
    }
    forall g | g in t.guards && HasLanded(t.guards[g], t.ops)
               && OwnsFlight(t.index, t.guards[g].room, t.guards[g].digest, g)
      ensures FinalPath(t.guards[g].room, t.guards[g].digest) in t.files
    {
      assert HasLanded(s.guards[g], s.ops) && Owned(s.index, s.guards[g].room, s.guards[g].digest);
    }
    forall g | g in t.guards ensures GuardOk(h, t.guards[g], t.ops, t.files) {
      GuardFrame(h, s.guards[g], s.ops, s.files, t.ops, t.files);
    }
    forall n | n in t.ops && t.ops[n].Pending? && t.ops[n].op.RenameFile? ensures RenameOk(h, n, t.ops[n], t.files) {
      assert RenameOk(h, n, s.ops[n], s.files);
    }
  }

  lemma CarryOutKeeps(h: Bytes -> Digest, s: System, removal: Removal)
    requires Inv(h, s) && removal in s.removals
    ensures Inv(h, Apply(h, s, CarryOut(removal)))
  {
    hide Inv;
    var t := Apply(h, s, CarryOut(removal));
    assert KeepsOwned(s, t.files);
    UnlinkKeeps(h, s, t.files);
    RemovalsAside(h, s.(files := t.files), t);
  }

  /** The queue orders work; no invariant rests on what is in it. */
  lemma RemovalsAside(h: Bytes -> Digest, s: System, t: System)
    requires Inv(h, s) && t == s.(removals := t.removals)
    ensures Inv(h, t)
  {
    hide RoomOf, IndexOk, GuardOk, RenameOk;
  }

  // ---------------------------------------------------------------------------
  // One upload changes phase
  // ---------------------------------------------------------------------------

  /** Only the upload `g` moves, and only the operation on its own temporary file with it. */
  ghost predicate Moves(s: System, t: System, g: nat) {
    && g in s.guards && g in t.guards
    && t == s.(guards := s.guards[g := t.guards[g]], ops := t.ops, nextSerial := t.nextSerial)
    && s.nextSerial <= t.nextSerial
    && t.guards[g].room == s.guards[g].room && t.guards[g].digest == s.guards[g].digest
    && t.guards[g].declared == s.guards[g].declared
    && var claim := Claim(t.guards[g]);
       && (claim.None? || claim == Claim(s.guards[g]) || (claim == Some(s.nextSerial) && s.nextSerial < t.nextSerial))
       && (forall n :: n in s.ops && claim != Some(n) ==> n in t.ops && t.ops[n] == s.ops[n])
       && (forall n :: n in t.ops && n !in s.ops ==> claim == Some(n))
  }

  lemma MovesSerials(s: System, t: System, g: nat)
    requires SerialsOk(s) && Moves(s, t, g)
    ensures SerialsOk(t)
  {
  }

  lemma MovesGuards(h: Bytes -> Digest, s: System, t: System, g: nat)
    requires SerialsOk(s) && GuardsOk(h, s) && Moves(s, t, g) && GuardOk(h, t.guards[g], t.ops, t.files)
    ensures GuardsOk(h, t)
  {
    forall k | k in t.guards ensures GuardOk(h, t.guards[k], t.ops, t.files) {
      if k != g {
        GuardFrame(h, s.guards[k], s.ops, s.files, t.ops, t.files);
      }
    }
  }

  lemma MovesRenames(h: Bytes -> Digest, s: System, t: System, g: nat)
    requires RenamesOk(h, s) && Moves(s, t, g)
    requires forall n :: Claim(t.guards[g]) == Some(n) && n in t.ops && t.ops[n].Pending? && t.ops[n].op.RenameFile? ==>
               RenameOk(h, n, t.ops[n], t.files)
    ensures RenamesOk(h, t)
  {
  }

  lemma MovesLandings(s: System, t: System, g: nat)
    requires SerialsOk(s) && LandingsOk(s) && Moves(s, t, g) && !HasLanded(t.guards[g], t.ops)
    ensures LandingsOk(t)
  {
    forall k | k in t.guards && HasLanded(t.guards[k], t.ops)
               && OwnsFlight(t.index, t.guards[k].room, t.guards[k].digest, k)
      ensures FinalPath(t.guards[k].room, t.guards[k].digest) in t.files
    {
      assert k != g && Claim(s.guards[k]) == s.guards[k].temp;
      assert HasLanded(s.guards[k], s.ops);
    }
  }

  lemma MovesFlights(s: System, t: System, g: nat)
    requires FlightsOk(s) && Moves(s, t, g)
    ensures FlightsOk(t)
  {
    forall r, d | d in RoomOf(t.index, r).uploading ensures FlightOk(t.guards, r, d, RoomOf(t.index, r).uploading[d]) {
      assert FlightOk(s.guards, r, d, RoomOf(s.index, r).uploading[d]);
    }
  }

  lemma MovesKeeps(h: Bytes -> Digest, s: System, t: System, g: nat)
    requires Inv(h, s) && Moves(s, t, g) && GuardOk(h, t.guards[g], t.ops, t.files) && !HasLanded(t.guards[g], t.ops)
    requires forall n :: Claim(t.guards[g]) == Some(n) && n in t.ops && t.ops[n].Pending? && t.ops[n].op.RenameFile? ==>
               RenameOk(h, n, t.ops[n], t.files)
    ensures Inv(h, t)
  {
    MovesSerials(s, t, g);
    MovesGuards(h, s, t, g);
    MovesRenames(h, s, t, g);
    MovesLandings(s, t, g);
    MovesFlights(s, t, g);
    MovesRest(h, s, t);
  }

  lemma MovesRest(h: Bytes -> Digest, s: System, t: System)
    requires t == s.(guards := t.guards, ops := t.ops, nextSerial := t.nextSerial)
    requires AddressesOk(h, s) && StoredOk(s) && LifetimesOk(s) && NoOverlap(s) && GrantsOk(s)
    ensures AddressesOk(h, t) && StoredOk(t) && LifetimesOk(t) && NoOverlap(t) && GrantsOk(t)
  {
    hide RoomOf;
  }

  /** What one upload's own invariant needs of the whole. */
  lemma OwnPart(h: Bytes -> Digest, s: System, g: nat)
    requires Inv(h, s) && g in s.guards
    ensures GuardOk(h, s.guards[g], s.ops, s.files)
    ensures forall n :: n in s.ops ==> n < s.nextSerial
  {
    hide GuardOk, RoomOf, IndexOk;
  }

  /** An upload that stops waiting keeps, or gives up, the temporary file it had. */
  lemma SettleKeeps(h: Bytes -> Digest, s: System, g: nat, guard: Guard)
    requires Inv(h, s) && g in s.guards && guard.room == s.guards[g].room && guard.digest == s.guards[g].digest
    requires guard.declared == s.guards[g].declared && !guard.phase.Renaming? && !guard.phase.Opening?
    requires guard.temp.None? || guard.temp == Claim(s.guards[g])
    requires GuardOk(h, guard, s.ops, s.files)
    requires guard.temp.Some? ==> Settled(guard.temp.value, s.ops)
    ensures Inv(h, s.(guards := s.guards[g := guard]))
  {
    hide Inv, GuardOk;
    MovesKeeps(h, s, s.(guards := s.guards[g := guard]), g);
  }

  /** An upload that starts a file operation does so on its own temporary file, old or brand new. */
  lemma StartKeeps(h: Bytes -> Digest, s: System, g: nat, n: nat, guard: Guard, op: FileOp)
    requires Inv(h, s) && g in s.guards && guard.room == s.guards[g].room && guard.digest == s.guards[g].digest
    requires guard.declared == s.guards[g].declared && Claim(guard) == Some(n)
    requires Claim(s.guards[g]) == Some(n) || n == s.nextSerial
    requires GuardOk(h, guard, s.ops[n := Pending(guard.room, guard.digest, op)], s.files)
    requires op.RenameFile? ==> RenameOk(h, n, Pending(guard.room, guard.digest, op), s.files)
    ensures Inv(h, s.(guards := s.guards[g := guard], ops := s.ops[n := Pending(guard.room, guard.digest, op)],
                      nextSerial := if n == s.nextSerial then n + 1 else s.nextSerial))
  {
    hide Inv, GuardOk;
    var t := s.(guards := s.guards[g := guard], ops := s.ops[n := Pending(guard.room, guard.digest, op)],
                nextSerial := if n == s.nextSerial then n + 1 else s.nextSerial);
    MovesKeeps(h, s, t, g);
  }

  lemma WriteKeeps(h: Bytes -> Digest, s: System, g: nat, chunk: Bytes)
    requires Inv(h, s) && Enabled(s, WriteChunk(g, chunk))
    ensures Inv(h, Apply(h, s, WriteChunk(g, chunk)))
  {
    hide Inv;
    OwnPart(h, s, g);
    var guard := s.guards[g];
    if |guard.written| + |chunk| > guard.declared {
      SettleKeeps(h, s, g, guard.(phase := Failed));
    } else if guard.temp.None? {
      StartKeeps(h, s, g, s.nextSerial, guard.(phase := Opening(s.nextSerial, ThenWrite(chunk))), CreateFile);
    } else {
      StartKeeps(h, s, g, guard.temp.value, guard.(phase := Writing(chunk)), WriteFile(guard.written + chunk));
    }
  }

  lemma BreakOffKeeps(h: Bytes -> Digest, s: System, g: nat)
    requires Inv(h, s) && Enabled(s, BreakOff(g))
    ensures Inv(h, Apply(h, s, BreakOff(g)))
  {
    hide Inv;
    OwnPart(h, s, g);
    SettleKeeps(h, s, g, s.guards[g].(phase := Failed));
  }

  lemma FinishKeeps(h: Bytes -> Digest, s: System, g: nat)
    requires Inv(h, s) && Enabled(s, Finish(g))
    ensures Inv(h, Apply(h, s, Finish(g)))
  {
    hide Inv;
    OwnPart(h, s, g);
    var guard := s.guards[g];
    if |guard.written| != guard.declared || h(guard.written) != guard.digest {
      SettleKeeps(h, s, g, Refuse(guard));
    } else if guard.temp.None? {
      StartKeeps(h, s, g, s.nextSerial, guard.(phase := Opening(s.nextSerial, ThenRename)), CreateFile);
    } else {
      StartKeeps(h, s, g, guard.temp.value, guard.(phase := Renaming), RenameFile);
    }
  }

  lemma OpenedKeeps(h: Bytes -> Digest, s: System, g: nat)
    requires Inv(h, s) && Enabled(s, Resume(g)) && s.guards[g].phase.Opening?
    ensures Inv(h, Apply(h, s, Resume(g)))
  {
    hide Inv;
    OwnPart(h, s, g);
    var guard := s.guards[g];
    var n := guard.phase.serial;
    if !s.ops[n].ok {
      SettleKeeps(h, s, g, guard.(phase := Failed));
    } else if guard.phase.next.ThenWrite? {
      var chunk := guard.phase.next.chunk;
      StartKeeps(h, s, g, n, guard.(temp := Some(n), phase := Writing(chunk)), WriteFile(guard.written + chunk));
      assert Apply(h, s, Resume(g)) ==
             s.(guards := s.guards[g := guard.(temp := Some(n), phase := Writing(chunk))],
                ops := s.ops[n := Pending(guard.room, guard.digest, WriteFile(guard.written + chunk))]);
    } else {
      StartKeeps(h, s, g, n, guard.(temp := Some(n), phase := Renaming), RenameFile);
      assert Apply(h, s, Resume(g)) ==
             s.(guards := s.guards[g := guard.(temp := Some(n), phase := Renaming)],
                ops := s.ops[n := Pending(guard.room, guard.digest, RenameFile)]);
    }
  }

  lemma WroteKeeps(h: Bytes -> Digest, s: System, g: nat)
    requires Inv(h, s) && Enabled(s, Resume(g)) && s.guards[g].phase.Writing?
    ensures Inv(h, Apply(h, s, Resume(g)))
  {
    hide Inv;
    OwnPart(h, s, g);
    var guard := s.guards[g];
    if s.ops[guard.temp.value].ok {
      SettleKeeps(h, s, g, guard.(written := guard.written + guard.phase.chunk, phase := Ready));
    } else {
      SettleKeeps(h, s, g, guard.(phase := Failed));
    }
  }

  lemma RenameFailedKeeps(h: Bytes -> Digest, s: System, g: nat)
    requires Inv(h, s) && Enabled(s, Resume(g)) && s.guards[g].phase.Renaming?
    requires !s.ops[s.guards[g].temp.value].ok
    ensures Inv(h, Apply(h, s, Resume(g)))
  {
    hide Inv;
    OwnPart(h, s, g);
    SettleKeeps(h, s, g, Refuse(s.guards[g]));
  }

  lemma CleanUpKeeps(h: Bytes -> Digest, s: System, g: nat)
    requires Inv(h, s) && Enabled(s, CleanUp(g))
    ensures Inv(h, Apply(h, s, CleanUp(g)))
  {
    hide Inv;
    OwnPart(h, s, g);
    var t := Apply(h, s, CleanUp(g));
    assert KeepsOwned(s, t.files);
    UnlinkKeeps(h, s, t.files);
    MovesKeeps(h, s.(files := t.files), t, g);
  }

  // ---------------------------------------------------------------------------
  // An upload leaves: dropped, or committed
  // ---------------------------------------------------------------------------

  lemma LeavesKeeps(h: Bytes -> Digest, s: System, g: nat)
    requires SerialsOk(s) && GuardsOk(h, s) && LandingsOk(s) && g in s.guards
    ensures var t := s.(guards := s.guards - {g}); SerialsOk(t) && GuardsOk(h, t) && LandingsOk(t)
  {
    var t := s.(guards := s.guards - {g});
    forall k | k in t.guards && HasLanded(t.guards[k], t.ops)
               && OwnsFlight(t.index, t.guards[k].room, t.guards[k].digest, k)
      ensures FinalPath(t.guards[k].room, t.guards[k].digest) in t.files
    {
      assert HasLanded(s.guards[k], s.ops);
    }
  }

  lemma LeavesFlights(s: System, g: nat)
    requires FlightsOk(s) && g in s.guards && !OwnsFlight(s.index, s.guards[g].room, s.guards[g].digest, g)
    ensures FlightsOk(s.(guards := s.guards - {g}))
  {
    var t := s.(guards := s.guards - {g});
    forall r, d | d in RoomOf(t.index, r).uploading ensures FlightOk(t.guards, r, d, RoomOf(t.index, r).uploading[d]) {
      assert FlightOk(s.guards, r, d, RoomOf(s.index, r).uploading[d]);
    }
  }

  lemma LeavesInv(h: Bytes -> Digest, s: System, g: nat)
    requires Inv(h, s) && g in s.guards && !OwnsFlight(s.index, s.guards[g].room, s.guards[g].digest, g)
    ensures Inv(h, s.(guards := s.guards - {g}))
  {
    var t := s.(guards := s.guards - {g});
    LeavesKeeps(h, s, g);
    LeavesFlights(s, g);
    MovesRest(h, s, t);
    assert RenamesOk(h, t) by {
      forall n | n in t.ops && t.ops[n].Pending? && t.ops[n].op.RenameFile? ensures RenameOk(h, n, t.ops[n], t.files) {
        assert RenameOk(h, n, s.ops[n], s.files);
      }
    }
  }

  lemma AbandonKeeps(h: Bytes -> Digest, s: System, g: nat)
    requires Inv(h, s) && g in s.guards
    ensures Inv(h, s.(index := AbandonUpload(s.index, s.guards[g].room, s.guards[g].digest, g)))
  {
    hide StoreModel.AbandonUpload, RoomOf, Fewer, SameStored, FewerReserved, IndexOk, GrantsOk, FlightsOk, StoredOk;
    hide LandingsOk, LifetimesOk, NoOverlap, SerialsOk, GuardsOk, RenamesOk, AddressesOk;
    var guard := s.guards[g];
    var after := AbandonUpload(s.index, guard.room, guard.digest, g);
    AbandonShape(s.index, guard.room, guard.digest, g);
    AbandonOk(s.index, guard.room, guard.digest, g);
    FewerKeeps(s, after);
    SameStoredKeeps(s, after);
    FewerReservedKeeps(s, after);
    FrameIndex(h, s, s.(index := after));
  }

  lemma DropKeeps(h: Bytes -> Digest, s: System, g: nat)
    requires Inv(h, s) && Enabled(s, DropGuard(g))
    ensures Inv(h, Apply(h, s, DropGuard(g)))
  {
    hide Inv, StoreModel.AbandonUpload;
    var guard := s.guards[g];
    var m := s.(index := AbandonUpload(s.index, guard.room, guard.digest, g));
    AbandonShape(s.index, guard.room, guard.digest, g);
    AbandonKeeps(h, s, g);
    LeavesInv(h, m, g);
    RemovalsAside(h, m.(guards := m.guards - {g}), Apply(h, s, DropGuard(g)));
  }

  // ---------------------------------------------------------------------------
  // A file operation lands, whether or not anyone still waits for it
  // ---------------------------------------------------------------------------

  ghost predicate Lands(s: System, t: System, n: nat, ok: bool, garbage: Bytes) {
    && n in s.ops && s.ops[n].Pending? && (ok ==> CanLand(s, n))
    && t == s.(ops := s.ops[n := Landed(ok)], files := LandedFiles(s.files, n, s.ops[n], ok, garbage))
  }

  lemma LandGuards(h: Bytes -> Digest, s: System, t: System, n: nat, ok: bool, garbage: Bytes)
    requires GuardsOk(h, s) && Lands(s, t, n, ok, garbage)
    ensures GuardsOk(h, t)
  {
    forall g | g in t.guards ensures GuardOk(h, t.guards[g], t.ops, t.files) {
      assert GuardOk(h, s.guards[g], s.ops, s.files);
      if Claim(s.guards[g]) != Some(n) {
        GuardFrame(h, s.guards[g], s.ops, s.files, t.ops, t.files);
      }
    }
  }

  lemma LandFiles(h: Bytes -> Digest, s: System, t: System, n: nat, ok: bool, garbage: Bytes)
    requires RenamesOk(h, s) && AddressesOk(h, s) && Lands(s, t, n, ok, garbage)
    ensures RenamesOk(h, t) && AddressesOk(h, t)
  {
    forall k | k in t.ops && t.ops[k].Pending? && t.ops[k].op.RenameFile? ensures RenameOk(h, k, t.ops[k], t.files) {
      assert RenameOk(h, k, s.ops[k], s.files);
    }
    if s.ops[n].op.RenameFile? {
      assert RenameOk(h, n, s.ops[n], s.files);
    }
  }

  /** Renaming onto an address that is stored puts the same bytes back. */
  lemma LandStored(h: Bytes -> Digest, s: System, t: System, n: nat, ok: bool, garbage: Bytes)
    requires Injective(h) && RenamesOk(h, s) && AddressesOk(h, s) && StoredOk(s) && Lands(s, t, n, ok, garbage)
    ensures StoredOk(t)
  {
    forall r, d | d in RoomOf(t.index, r).stored ensures HasFile(t.files, r, d, RoomOf(t.index, r).stored[d].bytes) {
      assert HasFile(s.files, r, d, RoomOf(s.index, r).stored[d].bytes);
      if ok && s.ops[n].op.RenameFile? && s.ops[n].room == r && s.ops[n].digest == d {
        assert RenameOk(h, n, s.ops[n], s.files);
        assert h(t.files[FinalPath(r, d)]) == h(s.files[FinalPath(r, d)]);
      }
    }
  }

  lemma LandLandings(h: Bytes -> Digest, s: System, t: System, n: nat, ok: bool, garbage: Bytes)
    requires GuardsOk(h, s) && LandingsOk(s) && Lands(s, t, n, ok, garbage)
    ensures LandingsOk(t)
  {
    forall g | g in t.guards && HasLanded(t.guards[g], t.ops)
               && OwnsFlight(t.index, t.guards[g].room, t.guards[g].digest, g)
      ensures FinalPath(t.guards[g].room, t.guards[g].digest) in t.files
    {
      assert GuardOk(h, s.guards[g], s.ops, s.files);
      if s.guards[g].temp != Some(n) {
        assert HasLanded(s.guards[g], s.ops);
      }
    }
  }

  lemma LandRest(s: System, t: System)
    requires t == s.(ops := t.ops, files := t.files)
    requires SerialsOk(s) && t.ops.Keys == s.ops.Keys && FlightsOk(s) && LifetimesOk(s) && NoOverlap(s) && GrantsOk(s)
    ensures SerialsOk(t) && FlightsOk(t) && LifetimesOk(t) && NoOverlap(t) && GrantsOk(t)
  {
    hide RoomOf;
    forall r, d | d in RoomOf(t.index, r).uploading ensures FlightOk(t.guards, r, d, RoomOf(t.index, r).uploading[d]) {
      assert FlightOk(s.guards, r, d, RoomOf(s.index, r).uploading[d]);
    }
  }

  lemma LandKeeps(h: Bytes -> Digest, s: System, n: nat, ok: bool, garbage: Bytes)
    requires Injective(h) && Inv(h, s) && Enabled(s, Land(n, ok, garbage))
    ensures Inv(h, Apply(h, s, Land(n, ok, garbage)))
  {
    hide LandedFiles, IndexOk, GrantsOk, FlightsOk, StoredOk, LandingsOk, LifetimesOk, NoOverlap, SerialsOk;
    hide GuardsOk, RenamesOk, AddressesOk;
    var t := Apply(h, s, Land(n, ok, garbage));
    assert Lands(s, t, n, ok, garbage);
    LandGuards(h, s, t, n, ok, garbage);
    LandFiles(h, s, t, n, ok, garbage);
    LandStored(h, s, t, n, ok, garbage);
    LandLandings(h, s, t, n, ok, garbage);
    LandRest(s, t);
  }

  // ---------------------------------------------------------------------------
  // The commit
  // ---------------------------------------------------------------------------

  /** The index after the upload numbered `g` has become a stored payload. */
  ghost predicate Committed(index: Index, after: Index, r: RoomId, d: Digest, payload: Payload) {
    && (forall q :: RoomOf(after, q).reserved == RoomOf(index, q).reserved)
    && (forall q :: RoomOf(after, q).uploading ==
          if q == r then RoomOf(index, q).uploading - {d} else RoomOf(index, q).uploading)
    && (forall q :: RoomOf(after, q).stored ==
          if q == r then RoomOf(index, q).stored[d := payload] else RoomOf(index, q).stored)
  }

  lemma CommitShape(index: Index, room: RoomId, digest: Digest, serial: nat, bytes: nat, now: Instant)
    ensures var (after, ok) := CommitUpload(index, room, digest, serial, bytes, now);
            && ok == OwnsFlight(index, room, digest, serial)
            && (!ok ==> after == index)
            && (ok ==> !OwnsFlight(after, room, digest, serial)
                       && Committed(index, after, room, digest,
                                    Payload(bytes, ChargeFor(bytes), now + PAYLOAD_TIME_TO_LIVE)))
  {
  }

  /** The file found at a committed address is the upload's own bytes. */
  lemma CommittedFile(h: Bytes -> Digest, s: System, g: nat)
    requires Injective(h) && Inv(h, s) && g in s.guards && HasLanded(s.guards[g], s.ops)
    requires OwnsFlight(s.index, s.guards[g].room, s.guards[g].digest, g)
    ensures var path := FinalPath(s.guards[g].room, s.guards[g].digest);
            path in s.files && s.files[path] == s.guards[g].written
    ensures |s.guards[g].written| == s.guards[g].declared
    ensures ChargeFor(|s.guards[g].written|) <= s.index[s.guards[g].room].uploading[s.guards[g].digest].charged
  {
    hide IndexOk;
    var guard := s.guards[g];
    var path := FinalPath(guard.room, guard.digest);
    assert GuardOk(h, guard, s.ops, s.files);
    assert h(s.files[path]) == h(guard.written);
    assert FlightOk(s.guards, guard.room, guard.digest, RoomOf(s.index, guard.room).uploading[guard.digest]);
  }

  lemma CommittedIndexed(s: System, t: System, r: RoomId, d: Digest, payload: Payload)
    requires FlightsOk(s) && StoredOk(s) && LandingsOk(s) && NoOverlap(s) && GrantsOk(s)
    requires Committed(s.index, t.index, r, d, payload) && HasFile(s.files, r, d, payload.bytes)
    requires t == s.(index := t.index)
    ensures FlightsOk(t) && StoredOk(t) && LandingsOk(t) && NoOverlap(t) && GrantsOk(t)
  {
    forall q, e | e in RoomOf(t.index, q).uploading ensures FlightOk(t.guards, q, e, RoomOf(t.index, q).uploading[e]) {
      assert FlightOk(s.guards, q, e, RoomOf(s.index, q).uploading[e]);
    }
    forall q, e | e in RoomOf(t.index, q).stored ensures HasFile(t.files, q, e, RoomOf(t.index, q).stored[e].bytes) {
      if q != r || e != d {
        assert HasFile(s.files, q, e, RoomOf(s.index, q).stored[e].bytes);
      }
    }
    forall k | k in t.guards && HasLanded(t.guards[k], t.ops)
               && OwnsFlight(t.index, t.guards[k].room, t.guards[k].digest, k)
      ensures FinalPath(t.guards[k].room, t.guards[k].digest) in t.files
    {
      assert RoomOf(t.index, t.guards[k].room).uploading[t.guards[k].digest].serial == k;
      assert HasLanded(s.guards[k], s.ops) && OwnsFlight(s.index, s.guards[k].room, s.guards[k].digest, k);
    }
    forall q, e ensures ExpiredIfUploading(RoomOf(t.index, q), t.clock, e) {
      assert ExpiredIfUploading(RoomOf(s.index, q), s.clock, e);
    }
    forall q, e ensures GrantOk(RoomOf(t.index, q), t.accepted[(q, e)], t.grants[(q, e)], e) {
      assert GrantOk(RoomOf(s.index, q), s.accepted[(q, e)], s.grants[(q, e)], e);
    }
  }

  lemma CommittedLifetimes(s: System, t: System, r: RoomId, d: Digest, payload: Payload)
    requires LifetimesOk(s) && Committed(s.index, t.index, r, d, payload)
    requires payload.expiresAt == s.clock + PAYLOAD_TIME_TO_LIVE
    requires t.clock == s.clock && t.commits == s.commits[(r, d) := (s.clock, payload.bytes)]
    ensures LifetimesOk(t)
  {
    hide RoomOf;
    forall q, e ensures LifetimeOk(RoomOf(t.index, q), t.commits, t.clock, q, e) {
      assert LifetimeOk(RoomOf(s.index, q), s.commits, s.clock, q, e);
    }
  }

  lemma CommitKeeps(h: Bytes -> Digest, s: System, g: nat)
    requires Injective(h) && Inv(h, s) && g in s.guards && HasLanded(s.guards[g], s.ops)
    requires OwnsFlight(s.index, s.guards[g].room, s.guards[g].digest, g)
    ensures Inv(h, ApplyCommit(s, g))
  {
    hide StoreModel.CommitUpload, RoomOf, Committed, IndexOk, GrantsOk, FlightsOk, StoredOk, LandingsOk, LifetimesOk;
    hide NoOverlap, SerialsOk, GuardsOk, RenamesOk, AddressesOk;
    var guard := s.guards[g];
    var bytes := |guard.written|;
    var after := CommitUpload(s.index, guard.room, guard.digest, g, bytes, s.clock).0;
    var payload := Payload(bytes, ChargeFor(bytes), s.clock + PAYLOAD_TIME_TO_LIVE);
    CommitShape(s.index, guard.room, guard.digest, g, bytes, s.clock);
    CommittedFile(h, s, g);
    CommitOk(s.index, guard.room, guard.digest, g, bytes, s.clock);
    var m := s.(index := after);
    CommittedIndexed(s, m, guard.room, guard.digest, payload);
    var k := m.(commits := s.commits[(guard.room, guard.digest) := (s.clock, bytes)]);
    CommittedLifetimes(s, k, guard.room, guard.digest, payload);
    FrameIndex(h, s, k);
    LeavesInv(h, k, g);
  }

  lemma ResumeKeeps(h: Bytes -> Digest, s: System, g: nat)
    requires Injective(h) && Inv(h, s) && Enabled(s, Resume(g))
    ensures Inv(h, Apply(h, s, Resume(g)))
  {
    hide Inv, StoreModel.CommitUpload;
    OwnPart(h, s, g);
    var guard := s.guards[g];
    if guard.phase.Opening? {
      OpenedKeeps(h, s, g);
    } else if guard.phase.Writing? {
      WroteKeeps(h, s, g);
    } else if !s.ops[guard.temp.value].ok {
      RenameFailedKeeps(h, s, g);
    } else {
      CommitShape(s.index, guard.room, guard.digest, g, |guard.written|, s.clock);
      if OwnsFlight(s.index, guard.room, guard.digest, g) {
        CommitKeeps(h, s, g);
      } else {
        SettleKeeps(h, s, g, guard.(temp := None, phase := Cleaning(FinalPath(guard.room, guard.digest))));
      }
    }
  }

  // ---------------------------------------------------------------------------
  // Whole runs
  // ---------------------------------------------------------------------------

  lemma StepKeeps(h: Bytes -> Digest, s: System, step: Step)
    requires Injective(h) && Inv(h, s) && Enabled(s, step)
    ensures Inv(h, Apply(h, s, step))
  {
    hide Inv, ApplyBegin, ApplyWrite, ApplyFinish, ApplyResume, ApplyDrop, LandedFiles, Unlinked, ExpiredFiles;
    hide StoreModel.Reserve, StoreModel.Sweep;
    match step
    case Tick(now) => TickKeeps(h, s, now);
    case ReserveRoom(room, digest, bytes, now) => ReserveKeeps(h, s, room, digest, bytes, now);
    case BeginTransfer(room, digest, declared, now) => BeginKeeps(h, s, room, digest, declared, now);
    case EndRoom(room) => EndRoomKeeps(h, s, room);
    case SweepExpired(now) => SweepKeeps(h, s, now);
    case CarryOut(removal) => CarryOutKeeps(h, s, removal);
    case WriteChunk(g, chunk) => WriteKeeps(h, s, g, chunk);
    case BreakOff(g) => BreakOffKeeps(h, s, g);
    case Finish(g) => FinishKeeps(h, s, g);
    case Land(n, ok, garbage) => LandKeeps(h, s, n, ok, garbage);
    case Resume(g) => ResumeKeeps(h, s, g);
    case CleanUp(g) => CleanUpKeeps(h, s, g);
    case DropGuard(g) => DropKeeps(h, s, g);
  }

  /** `states` is what the store went through while taking `steps`, from an empty start. */
  ghost predicate Run(h: Bytes -> Digest, states: seq<System>, steps: seq<Step>) {
    && |states| == |steps| + 1 && states[0] == INITIAL
    && forall i :: 0 <= i < |steps| ==> Enabled(states[i], steps[i]) && states[i + 1] == Apply(h, states[i], steps[i])
  }

  lemma {:induction false} RunKeeps(h: Bytes -> Digest, states: seq<System>, steps: seq<Step>, i: nat)
    requires Injective(h) && Run(h, states, steps) && i < |states|
    ensures Inv(h, states[i])
  {
    if i == 0 {
      InitialOk(h);
    } else {
      hide Inv, Apply;
      RunKeeps(h, states, steps, i - 1);
      StepKeeps(h, states[i - 1], steps[i - 1]);
    }
  }

  lemma InitialOk(h: Bytes -> Digest)
    ensures Inv(h, INITIAL)
  {
  }

  /** Index and files agree, at every moment of every interleaving. */
  lemma IndexAndFilesAgree(h: Bytes -> Digest, states: seq<System>, steps: seq<Step>, i: nat)
    requires Injective(h) && Run(h, states, steps) && i < |states|
    ensures forall p :: p in states[i].files && p.FinalPath? ==> h(states[i].files[p]) == p.digest
    ensures forall r, d :: r in states[i].index && d in states[i].index[r].stored ==>
              FinalPath(r, d) in states[i].files
              && |states[i].files[FinalPath(r, d)]| == states[i].index[r].stored[d].bytes
  {
    RunKeeps(h, states, steps, i);
    hide IndexOk, GuardsOk;
    forall r, d | r in states[i].index && d in states[i].index[r].stored
      ensures FinalPath(r, d) in states[i].files
              && |states[i].files[FinalPath(r, d)]| == states[i].index[r].stored[d].bytes
    {
      assert HasFile(states[i].files, r, d, RoomOf(states[i].index, r).stored[d].bytes);
    }
  }

  /** A lookup that answers names the only bytes that hash to the address, and states their length. */
  lemma FetchFindsTheUpload(h: Bytes -> Digest, states: seq<System>, steps: seq<Step>, i: nat,
                            room: RoomId, content: Bytes, now: Instant)
    requires Injective(h) && Run(h, states, steps) && i < |states|
    requires PayloadLen(states[i].index, room, h(content), now).Some?
    ensures FinalPath(room, h(content)) in states[i].files
    ensures states[i].files[FinalPath(room, h(content))] == content
    ensures PayloadLen(states[i].index, room, h(content), now) == Some(|content|)
  {
    IndexAndFilesAgree(h, states, steps, i);
  }

  /** Every ceiling, and no idle room, in every reachable state. */
  lemma CeilingsHold(h: Bytes -> Digest, states: seq<System>, steps: seq<Step>, i: nat)
    requires Injective(h) && Run(h, states, steps) && i < |states|
    ensures forall r :: r in states[i].index ==>
              RoomCharge(states[i].index[r]) <= MAX_ROOM_BYTES && 1 <= EntryCount(states[i].index[r]) <= 512
    ensures IndexCharge(states[i].index) <= MAX_STORE_BYTES
    ensures Total(states[i].index, EntryCount) <= 4096
  {
    hide GuardsOk, LandingsOk, LifetimesOk, RoomCharge;
    RunKeeps(h, states, steps, i);
    StoreCeilings(states[i].index);
    forall r | r in states[i].index
      ensures RoomCharge(states[i].index[r]) <= MAX_ROOM_BYTES && 1 <= EntryCount(states[i].index[r]) <= 512
    {
      RoomCeilings(states[i].index[r]);
    }
  }

  lemma RefusedCommit(index: Index, room: RoomId, digest: Digest, serial: nat, bytes: nat, now: Instant)
    ensures var (after, ok) := StoreModel.CommitUpload(index, room, digest, serial, bytes, now); !ok ==> after == index
  {
  }

  lemma CommitIndex(s: System, g: nat)
    requires g in s.guards
    ensures var guard := s.guards[g];
            ApplyCommit(s, g).index
            == StoreModel.CommitUpload(s.index, guard.room, guard.digest, g, |guard.written|, s.clock).0
  {
    hide StoreModel.CommitUpload;
    RefusedCommit(s.index, s.guards[g].room, s.guards[g].digest, g, |s.guards[g].written|, s.clock);
  }

  /** Resuming touches the index only to commit. */
  lemma ResumeIndex(s: System, g: nat)
    requires Enabled(s, Resume(g))
    ensures var guard := s.guards[g];
            ApplyResume(s, g).index
            == if HasLanded(guard, s.ops)
               then StoreModel.CommitUpload(s.index, guard.room, guard.digest, g, |guard.written|, s.clock).0
               else s.index
  {
    hide StoreModel.CommitUpload, ApplyCommit;
    CommitIndex(s, g);
  }

  lemma ResumeCharge(h: Bytes -> Digest, s: System, g: nat)
    requires Injective(h) && Inv(h, s) && Enabled(s, Resume(g))
    ensures IndexCharge(ApplyResume(s, g).index) <= IndexCharge(s.index)
  {
    IndexPart(h, s);
    ResumeIndex(s, g);
    hide Inv, StoreModel.CommitUpload, IndexCharge, IndexOk, ApplyResume;
    var guard := s.guards[g];
    if HasLanded(guard, s.ops) && OwnsFlight(s.index, guard.room, guard.digest, g) {
      CommittedFile(h, s, g);
      CommitOk(s.index, guard.room, guard.digest, g, |guard.written|, s.clock);
    } else {
      CommitShape(s.index, guard.room, guard.digest, g, |guard.written|, s.clock);
    }
  }

  /** Finishing an upload never raises what the store is charged. */
  lemma CommitNeverRaisesCharge(h: Bytes -> Digest, states: seq<System>, steps: seq<Step>, i: nat, g: nat)
    requires Injective(h) && Run(h, states, steps) && i < |steps| && steps[i] == Resume(g)
    ensures IndexCharge(states[i + 1].index) <= IndexCharge(states[i].index)
  {
    hide Inv, ApplyResume, IndexCharge;
    RunKeeps(h, states, steps, i);
    ResumeCharge(h, states[i], g);
  }

  /** Every upload in the index is the business of exactly one live guard. */
  lemma FlightsHaveOneOwner(h: Bytes -> Digest, states: seq<System>, steps: seq<Step>, i: nat, r: RoomId, d: Digest)
    requires Injective(h) && Run(h, states, steps) && i < |states|
    requires r in states[i].index && d in states[i].index[r].uploading
    ensures exists g :: g in states[i].guards && OwnsFlight(states[i].index, r, d, g)
              && states[i].guards[g].room == r && states[i].guards[g].digest == d
              && forall k :: OwnsFlight(states[i].index, r, d, k) ==> k == g
  {
    hide IndexOk, GuardsOk, LandingsOk, LifetimesOk;
    RunKeeps(h, states, steps, i);
    assert FlightOk(states[i].guards, r, d, RoomOf(states[i].index, r).uploading[d]);
  }

  lemma LateDrop(index: Index, room: RoomId, digest: Digest, serial: nat)
    requires IndexOk(index) && !OwnsFlight(index, room, digest, serial)
    ensures AbandonUpload(index, room, digest, serial) == index
  {
  }

  lemma LateResume(s: System, g: nat)
    requires Enabled(s, Resume(g)) && !OwnsFlight(s.index, s.guards[g].room, s.guards[g].digest, g)
    ensures ApplyResume(s, g).index == s.index
  {
    hide ApplyResume;
    ResumeIndex(s, g);
  }

  /** An upload that no longer owns its entry changes nothing in the index, committed late or dropped. */
  lemma LateUploadsChangeNothing(h: Bytes -> Digest, states: seq<System>, steps: seq<Step>, i: nat, g: nat)
    requires Injective(h) && Run(h, states, steps) && i < |steps|
    requires steps[i] == Resume(g) || steps[i] == DropGuard(g)
    requires !OwnsFlight(states[i].index, states[i].guards[g].room, states[i].guards[g].digest, g)
    ensures states[i + 1].index == states[i].index
  {
    hide Inv, IndexOk, ApplyResume, StoreModel.AbandonUpload;
    var s := states[i];
    RunKeeps(h, states, steps, i);
    IndexPart(h, s);
    if steps[i] == Resume(g) {
      LateResume(s, g);
    } else {
      LateDrop(s.index, s.guards[g].room, s.guards[g].digest, g);
    }
  }

  /** Every accepted upload spends a charged grant of its address, and an unspent reservation is one grant more. */
  lemma UploadsNeverOutnumberGrants(h: Bytes -> Digest, states: seq<System>, steps: seq<Step>, i: nat)
    requires Injective(h) && Run(h, states, steps) && i < |states|
    ensures states[i].accepted <= states[i].grants
    ensures forall r, d :: r in states[i].index && d in states[i].index[r].reserved ==>
              states[i].accepted[(r, d)] < states[i].grants[(r, d)]
  {
    hide IndexOk, GuardsOk, LandingsOk, LifetimesOk, FlightsOk;
    RunKeeps(h, states, steps, i);
    var s := states[i];
    forall a: Address ensures s.accepted[a] <= s.grants[a] {
      assert GrantOk(RoomOf(s.index, a.0), s.accepted[(a.0, a.1)], s.grants[(a.0, a.1)], a.1);
    }
    forall r, d | r in s.index && d in s.index[r].reserved ensures s.accepted[(r, d)] < s.grants[(r, d)] {
      assert GrantOk(RoomOf(s.index, r), s.accepted[(r, d)], s.grants[(r, d)], d);
    }
  }

  /** The step that accepted an upload: on a live reservation that covers what it declares, which it spends. */
  ghost predicate Accepts(s: System, step: Step, t: System, g: nat, room: RoomId, digest: Digest, declared: nat) {
    && step.BeginTransfer? && step.room == room && step.digest == digest && step.declared == declared
    && g == s.nextSerial && room in s.index && digest in s.index[room].reserved
    && step.now < s.index[room].reserved[digest].expiresAt
    && declared <= s.index[room].reserved[digest].declared
    && OwnsFlight(t.index, room, digest, g) && digest !in t.index[room].reserved
  }

  /** An upload stays the one it began as. */
  ghost predicate SameUpload(guards: map<nat, Guard>, after: map<nat, Guard>, g: nat) {
    g in guards && g in after && guards[g].room == after[g].room && guards[g].digest == after[g].digest
    && guards[g].declared == after[g].declared
  }

  lemma BeginOrigin(s: System, step: Step, g: nat)
    requires step.BeginTransfer? && g in ApplyBegin(s, step.room, step.digest, step.declared, step.now).guards
    ensures var t := ApplyBegin(s, step.room, step.digest, step.declared, step.now);
            || SameUpload(s.guards, t.guards, g)
            || Accepts(s, step, t, g, t.guards[g].room, t.guards[g].digest, t.guards[g].declared)
  {
  }

  lemma CommitOrigin(s: System, g: nat, k: nat)
    requires g in s.guards && k in ApplyCommit(s, g).guards
    ensures SameUpload(s.guards, ApplyCommit(s, g).guards, k)
  {
    hide StoreModel.CommitUpload;
  }

  lemma StartOrigin(s: System, g: nat, n: nat, phase: Phase, op: FileOp, k: nat)
    requires g in s.guards && k in Start(s, g, n, phase, op).guards
    ensures SameUpload(s.guards, Start(s, g, n, phase, op).guards, k)
  {
  }

  lemma OpeningOrigin(s: System, g: nat, k: nat)
    requires Enabled(s, Resume(g)) && s.guards[g].phase.Opening? && k in ApplyResume(s, g).guards
    ensures SameUpload(s.guards, ApplyResume(s, g).guards, k)
  {
    hide Start, ApplyCommit;
    var guard := s.guards[g];
    var n := guard.phase.serial;
    if s.ops[n].ok {
      var tracked := s.(guards := s.guards[g := guard.(temp := Some(n))]);
      match guard.phase.next {
        case ThenWrite(chunk) => StartOrigin(tracked, g, n, Writing(chunk), WriteFile(guard.written + chunk), k);
        case ThenRename => StartOrigin(tracked, g, n, Renaming, RenameFile, k);
      }
    }
  }

  lemma WritingOrigin(s: System, g: nat, k: nat)
    requires Enabled(s, Resume(g)) && s.guards[g].phase.Writing? && k in ApplyResume(s, g).guards
    ensures SameUpload(s.guards, ApplyResume(s, g).guards, k)
  {
    hide ApplyCommit, Start;
  }

  lemma RenamingOrigin(s: System, g: nat, k: nat)
    requires Enabled(s, Resume(g)) && s.guards[g].phase.Renaming? && k in ApplyResume(s, g).guards
    ensures SameUpload(s.guards, ApplyResume(s, g).guards, k)
  {
    hide ApplyCommit, Start;
    if s.ops[Awaited(s.guards[g]).value].ok {
      CommitOrigin(s, g, k);
    }
  }

  lemma ResumeOrigin(s: System, g: nat, k: nat)
    requires Enabled(s, Resume(g)) && k in ApplyResume(s, g).guards
    ensures SameUpload(s.guards, ApplyResume(s, g).guards, k)
  {
    hide ApplyResume, SameUpload;
    if s.guards[g].phase.Opening? {
      OpeningOrigin(s, g, k);
    } else if s.guards[g].phase.Writing? {
      WritingOrigin(s, g, k);
    } else {
      RenamingOrigin(s, g, k);
    }
  }

  lemma OpenOrigin(s: System, g: nat, next: Resumption, k: nat)
    requires g in s.guards && k in Open(s, g, next).guards
    ensures SameUpload(s.guards, Open(s, g, next).guards, k)
  {
    hide Start;
    var n := s.nextSerial;
    StartOrigin(s.(nextSerial := n + 1), g, n, Opening(n, next), CreateFile, k);
  }

  lemma WriteOrigin(s: System, g: nat, chunk: Bytes, k: nat)
    requires g in s.guards && k in ApplyWrite(s, g, chunk).guards
    ensures SameUpload(s.guards, ApplyWrite(s, g, chunk).guards, k)
  {
    hide Start, Open;
    var guard := s.guards[g];
    if |guard.written| + |chunk| <= guard.declared {
      if guard.temp.None? {
        OpenOrigin(s, g, ThenWrite(chunk), k);
      } else {
        StartOrigin(s, g, guard.temp.value, Writing(chunk), WriteFile(guard.written + chunk), k);
      }
    }
  }

  lemma FinishOrigin(h: Bytes -> Digest, s: System, g: nat, k: nat)
    requires g in s.guards && k in ApplyFinish(h, s, g).guards
    ensures SameUpload(s.guards, ApplyFinish(h, s, g).guards, k)
  {
    hide Start, Open;
    var guard := s.guards[g];
    if |guard.written| == guard.declared && h(guard.written) == guard.digest {
      if guard.temp.None? {
        OpenOrigin(s, g, ThenRename, k);
      } else {
        StartOrigin(s, g, guard.temp.value, Renaming, RenameFile, k);
      }
    }
  }

  lemma OtherOrigin(h: Bytes -> Digest, s: System, step: Step, g: nat)
    requires Enabled(s, step) && g in Apply(h, s, step).guards
    requires !step.BeginTransfer? && !step.WriteChunk? && !step.Finish? && !step.Resume?
    ensures SameUpload(s.guards, Apply(h, s, step).guards, g)
  {
    hide StoreModel.Reserve, StoreModel.Sweep, StoreModel.AbandonUpload, StoreModel.ForgetRoom, LandedFiles, Unlinked;
    hide ExpiredFiles;
  }

  lemma StepOrigin(h: Bytes -> Digest, s: System, step: Step, g: nat)
    requires Enabled(s, step) && g in Apply(h, s, step).guards
    ensures var t := Apply(h, s, step);
            || SameUpload(s.guards, t.guards, g)
            || Accepts(s, step, t, g, t.guards[g].room, t.guards[g].digest, t.guards[g].declared)
  {
    if !step.BeginTransfer? && !step.WriteChunk? && !step.Finish? && !step.Resume? {
      hide Apply, Accepts, SameUpload;
      OtherOrigin(h, s, step, g);
    } else {
      hide ApplyBegin, ApplyWrite, ApplyFinish, ApplyResume, Accepts, SameUpload;
      match step
      case BeginTransfer(_, _, _, _) => BeginOrigin(s, step, g);
      case WriteChunk(k, chunk) => WriteOrigin(s, k, chunk, g);
      case Finish(k) => FinishOrigin(h, s, k, g);
      case Resume(k) => ResumeOrigin(s, k, g);
    }
  }

  /** Every live upload goes back to a reservation that covers it: accepted on one that was live, and spent by it. */
  lemma {:induction false} UploadsComeFromReservations(h: Bytes -> Digest, states: seq<System>, steps: seq<Step>,
                                                       i: nat, g: nat)
    requires Run(h, states, steps) && i < |states| && g in states[i].guards
    ensures var guard := states[i].guards[g];
            exists j :: 0 <= j < i
              && Accepts(states[j], steps[j], states[j + 1], g, guard.room, guard.digest, guard.declared)
  {
    hide Apply, Enabled, Accepts;
    StepOrigin(h, states[i - 1], steps[i - 1], g);
    if SameUpload(states[i - 1].guards, states[i].guards, g) {
      UploadsComeFromReservations(h, states, steps, i - 1, g);
    }
  }

  lemma FlightsNeedGuards(s: System, r: RoomId, d: Digest)
    requires FlightsOk(s) && d in RoomOf(s.index, r).uploading
    ensures s.guards != map[]
  {
    assert FlightOk(s.guards, r, d, RoomOf(s.index, r).uploading[d]);
  }

  /** Once every upload is settled and every deadline has passed, one sweep leaves an empty index. */
  lemma NothingLeaks(h: Bytes -> Digest, states: seq<System>, steps: seq<Step>, i: nat, now: Instant)
    requires Injective(h) && Run(h, states, steps) && i < |states|
    requires states[i].guards == map[]
    requires forall r, d :: r in states[i].index && d in states[i].index[r].reserved ==>
               states[i].index[r].reserved[d].expiresAt <= now
    requires forall r, d :: r in states[i].index && d in states[i].index[r].stored ==>
               states[i].index[r].stored[d].expiresAt <= now
    ensures Sweep(states[i].index, now) == map[]
    ensures IndexCharge(Sweep(states[i].index, now)) == 0
  {
    hide IndexOk, GuardsOk, LandingsOk, LifetimesOk;
    RunKeeps(h, states, steps, i);
    var s := states[i];
    forall r | r in s.index ensures SweptRoom(s.index[r], now) == EMPTY_ROOM {
      forall d ensures d !in s.index[r].uploading {
        if d in s.index[r].uploading {
          FlightsNeedGuards(s, r, d);
        }
      }
      assert SweptRoom(s.index[r], now).reserved == map[];
      assert SweptRoom(s.index[r], now).stored == map[];
    }
  }

  // ---------------------------------------------------------------------------
  // Lifetimes
  // ---------------------------------------------------------------------------

  /** A payload can be looked up exactly while its last commit is under two hours old and its room has not ended. */
  lemma VisibleExactlyWhileLive(h: Bytes -> Digest, states: seq<System>, steps: seq<Step>, i: nat, r: RoomId, d: Digest)
    requires Injective(h) && Run(h, states, steps) && i < |states|
    ensures var s := states[i];
            PayloadLen(s.index, r, d, s.clock) ==
            if (r, d) in s.commits && s.clock < s.commits[(r, d)].0 + PAYLOAD_TIME_TO_LIVE
            then Some(s.commits[(r, d)].1) else None
  {
    hide IndexOk, GuardsOk, LandingsOk, FlightsOk;
    RunKeeps(h, states, steps, i);
    var s := states[i];
    assert LifetimeOk(RoomOf(s.index, r), s.commits, s.clock, r, d);
  }

  /** Reserving a payload that is held grants exactly the life it has left, counted from an instant that may have been
      read before the lock was taken; and before its two hours are over it is held. */
  lemma HeldGrantIsTheRemainder(h: Bytes -> Digest, states: seq<System>, steps: seq<Step>, i: nat,
                                r: RoomId, d: Digest, bytes: nat, now: Instant)
    requires Injective(h) && Run(h, states, steps) && i < |states| && bytes <= MAX_PAYLOAD_BYTES
    requires now <= states[i].clock
    ensures var s := states[i];
            Held(RoomOf(s.index, r), d, now) ==>
              && (r, d) in s.commits && now < s.commits[(r, d)].0 + PAYLOAD_TIME_TO_LIVE
              && Reserve(s.index, r, d, bytes, now)
                 == (s.index, Granted(s.commits[(r, d)].0 + PAYLOAD_TIME_TO_LIVE - now))
    ensures var s := states[i];
            (r, d) in s.commits && s.clock < s.commits[(r, d)].0 + PAYLOAD_TIME_TO_LIVE ==>
              Held(RoomOf(s.index, r), d, now)
  {
    hide IndexOk, GuardsOk, LandingsOk, FlightsOk, Admit;
    RunKeeps(h, states, steps, i);
    var s := states[i];
    assert LifetimeOk(RoomOf(s.index, r), s.commits, s.clock, r, d);
  }

  /** The commit history changes only when a room ends or an upload that owns its entry commits. */
  lemma CommitsChange(h: Bytes -> Digest, s: System, step: Step, a: Address)
    requires Enabled(s, step) && a in s.commits && step != EndRoom(a.0)
    ensures var t := Apply(h, s, step);
            || (a in t.commits && t.commits[a] == s.commits[a])
            || a.1 in RoomOf(s.index, a.0).uploading
  {
    hide StoreModel.Reserve, StoreModel.Sweep, StoreModel.BeginUpload, StoreModel.AbandonUpload, LandedFiles, Unlinked;
    hide ExpiredFiles, ApplyWrite, ApplyFinish;
    if step.WriteChunk? {
      WriteAside(s, step.guard, step.chunk);
    } else if step.Finish? {
      FinishAside(h, s, step.guard);
    }
  }

  lemma WriteAside(s: System, g: nat, chunk: Bytes)
    requires g in s.guards
    ensures ApplyWrite(s, g, chunk).commits == s.commits && ApplyWrite(s, g, chunk).clock == s.clock
  {
  }

  lemma FinishAside(h: Bytes -> Digest, s: System, g: nat)
    requires g in s.guards
    ensures ApplyFinish(h, s, g).commits == s.commits && ApplyFinish(h, s, g).clock == s.clock
  {
  }

  /** Nothing but the end of its room touches a live payload's commit: no lifetime is ever extended. */
  lemma LiveCommitStays(h: Bytes -> Digest, s: System, step: Step, r: RoomId, d: Digest)
    requires LifetimesOk(s) && NoOverlap(s) && Enabled(s, step) && step != EndRoom(r)
    requires (r, d) in s.commits && s.clock < s.commits[(r, d)].0 + PAYLOAD_TIME_TO_LIVE
    ensures var t := Apply(h, s, step); (r, d) in t.commits && t.commits[(r, d)] == s.commits[(r, d)]
  {
    hide Apply;
    CommitsChange(h, s, step, (r, d));
    assert LifetimeOk(RoomOf(s.index, r), s.commits, s.clock, r, d);
    assert ExpiredIfUploading(RoomOf(s.index, r), s.clock, d);
  }

  /** From its commit until two hours later, whatever else happens, a payload stays as it was stored. */
  lemma {:induction false} FixedLifetime(h: Bytes -> Digest, states: seq<System>, steps: seq<Step>,
                                         i: nat, j: nat, r: RoomId, d: Digest)
    requires Injective(h) && Run(h, states, steps) && i <= j < |states|
    requires (r, d) in states[i].commits
    requires states[j].clock < states[i].commits[(r, d)].0 + PAYLOAD_TIME_TO_LIVE
    requires forall k :: i <= k < j ==> steps[k] != EndRoom(r)
    ensures (r, d) in states[j].commits && states[j].commits[(r, d)] == states[i].commits[(r, d)]
    ensures PayloadLen(states[j].index, r, d, states[j].clock) == Some(states[i].commits[(r, d)].1)
    decreases j
  {
    hide Inv, Apply;
    if i < j {
      ClockAdvances(h, states[j - 1], steps[j - 1]);
      FixedLifetime(h, states, steps, i, j - 1, r, d);
      RunKeeps(h, states, steps, j - 1);
      LifetimePart(h, states[j - 1]);
      LiveCommitStays(h, states[j - 1], steps[j - 1], r, d);
    }
    VisibleExactlyWhileLive(h, states, steps, j, r, d);
  }

  lemma LifetimePart(h: Bytes -> Digest, s: System)
    requires Inv(h, s)
    ensures LifetimesOk(s) && NoOverlap(s)
  {
    hide LifetimesOk, NoOverlap, IndexOk;
  }

  lemma ResumeAside(s: System, g: nat)
    requires Enabled(s, Resume(g))
    ensures ApplyResume(s, g).clock == s.clock
  {
    hide StoreModel.CommitUpload;
  }

  lemma ClockAdvances(h: Bytes -> Digest, s: System, step: Step)
    requires Enabled(s, step)
    ensures s.clock <= Apply(h, s, step).clock
  {
    hide StoreModel.Reserve, StoreModel.Sweep, StoreModel.BeginUpload, StoreModel.AbandonUpload, StoreModel.ForgetRoom;
    hide LandedFiles, Unlinked, ExpiredFiles, ApplyWrite, ApplyFinish, ApplyResume;
    if step.WriteChunk? {
      WriteAside(s, step.guard, step.chunk);
    } else if step.Finish? {
      FinishAside(h, s, step.guard);
    } else if step.Resume? {
      ResumeAside(s, step.guard);
    }
  }
}
