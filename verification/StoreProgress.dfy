/**
 What the store delivers: a granted reservation is honoured, and an upload that
 sends what it declared is stored, whatever else the store does in between.
 */
module StoreProgress {
  import opened Basics
  import opened StoreModel
  import opened StoreRuns
  import opened StoreSafety

  // ---------------------------------------------------------------------------
  // A granted reservation is honoured
  // ---------------------------------------------------------------------------

  /** The steps that end or replace a reservation. */
  predicate TouchesReservation(step: Step, room: RoomId, digest: Digest) {
    || step == EndRoom(room)
    || (step.BeginTransfer? && step.room == room && step.digest == digest)
    || (step.ReserveRoom? && step.room == room && step.digest == digest)
  }

  ghost predicate Reserves(index: Index, room: RoomId, digest: Digest, entry: Reservation) {
    digest in RoomOf(index, room).reserved && RoomOf(index, room).reserved[digest] == entry
  }

  lemma ReserveAside(index: Index, r: RoomId, d: Digest, bytes: nat, now: Instant, room: RoomId, digest: Digest)
    requires r != room || d != digest
    ensures var after := RoomOf(Reserve(index, r, d, bytes, now).0, room).reserved;
            var before := RoomOf(index, room).reserved;
            digest in before ==> digest in after && after[digest] == before[digest]
  {
  }

  lemma BeginAside(index: Index, r: RoomId, d: Digest, declared: nat, now: Instant, serial: nat,
                   room: RoomId, digest: Digest)
    requires r != room || d != digest
    ensures var after := RoomOf(BeginUpload(index, r, d, declared, now, serial).0, room).reserved;
            var before := RoomOf(index, room).reserved;
            digest in before ==> digest in after && after[digest] == before[digest]
  {
  }

  lemma AbandonAside(index: Index, r: RoomId, d: Digest, serial: nat, room: RoomId)
    ensures RoomOf(AbandonUpload(index, r, d, serial), room).reserved == RoomOf(index, room).reserved
  {
  }

  lemma ReservationStays(h: Bytes -> Digest, s: System, step: Step, room: RoomId, digest: Digest, entry: Reservation)
    requires Enabled(s, step) && Reserves(s.index, room, digest, entry) && s.clock < entry.expiresAt
    requires !TouchesReservation(step, room, digest)
    ensures Reserves(Apply(h, s, step).index, room, digest, entry)
  {
    hide StoreModel.Reserve, StoreModel.BeginUpload, StoreModel.AbandonUpload, StoreModel.Sweep, ExpiredFiles;
    hide LandedFiles, Unlinked, ApplyWrite, ApplyFinish, ApplyResume, RoomOf;
    match step
    case ReserveRoom(r, d, bytes, now) => ReserveAside(s.index, r, d, bytes, now, room, digest);
    case BeginTransfer(r, d, declared, now) =>
      BeginAside(s.index, r, d, declared, now, s.nextSerial, room, digest);
    case EndRoom(r) => ForgetShape(s.index, r);
    case SweepExpired(now) => SweptRoomOf(s.index, now, room);
    case WriteChunk(g, chunk) => WriteIndex(s, g, chunk);
    case Finish(g) => FinishIndex(h, s, g);
    case Resume(g) =>
      ResumeIndex(s, g);
      CommitShape(s.index, s.guards[g].room, s.guards[g].digest, g, |s.guards[g].written|, s.clock);
    case DropGuard(g) => AbandonAside(s.index, s.guards[g].room, s.guards[g].digest, g, room);
    case _ =>
  }

  lemma WriteIndex(s: System, g: nat, chunk: Bytes)
    requires g in s.guards
    ensures ApplyWrite(s, g, chunk).index == s.index
  {
  }

  lemma FinishIndex(h: Bytes -> Digest, s: System, g: nat)
    requires g in s.guards
    ensures ApplyFinish(h, s, g).index == s.index
  {
  }

  lemma {:induction false} ClockOrder(h: Bytes -> Digest, states: seq<System>, steps: seq<Step>, i: nat, j: nat)
    requires Run(h, states, steps) && i <= j < |states|
    ensures states[i].clock <= states[j].clock
    decreases j
  {
    hide Apply, Enabled;
    if i < j {
      ClockOrder(h, states, steps, i, j - 1);
      ClockAdvances(h, states[j - 1], steps[j - 1]);
    }
  }

  lemma {:induction false} ReservationHolds(h: Bytes -> Digest, states: seq<System>, steps: seq<Step>, i: nat, j: nat,
                                            room: RoomId, digest: Digest, entry: Reservation)
    requires Run(h, states, steps) && i <= j < |states| && Reserves(states[i].index, room, digest, entry)
    requires states[j].clock < entry.expiresAt
    requires forall k :: i <= k < j ==> !TouchesReservation(steps[k], room, digest)
    ensures Reserves(states[j].index, room, digest, entry)
    decreases j
  {
    hide Apply, Enabled, Reserves;
    if i < j {
      ClockOrder(h, states, steps, j - 1, j);
      ReservationHolds(h, states, steps, i, j - 1, room, digest, entry);
      ReservationStays(h, states[j - 1], steps[j - 1], room, digest, entry);
    }
  }

  /** Over any stretch of a run inside its minute, a reservation that was granted afresh admits an upload of anything
      up to what it reserved, unless the payload is held by then or another upload of it is in flight. */
  lemma GrantIsHonoured(h: Bytes -> Digest, states: seq<System>, steps: seq<Step>, i: nat, j: nat,
                        room: RoomId, digest: Digest, bytes: nat, at: Instant, declared: nat, now: Instant)
    requires Run(h, states, steps) && i < j < |states| && steps[i] == ReserveRoom(room, digest, bytes, at)
    requires Reserve(states[i].index, room, digest, bytes, at).1.Granted?
    requires !Held(RoomOf(states[i].index, room), digest, at)
    requires forall k :: i < k < j ==> !TouchesReservation(steps[k], room, digest)
    requires states[j].clock < at + RESERVATION_TIME_TO_LIVE && now <= states[j].clock && declared <= bytes
    ensures BeginUpload(states[j].index, room, digest, declared, now, states[j].nextSerial).1
         == if Held(RoomOf(states[j].index, room), digest, now) then AlreadyHeld
            else if digest in RoomOf(states[j].index, room).uploading then Unreserved
            else Accepted
  {
    hide Apply, Enabled, StoreModel.Reserve, Reserves;
    var entry := Reservation(bytes, ChargeFor(bytes), at + RESERVATION_TIME_TO_LIVE);
    GrantReserves(h, states[i], room, digest, bytes, at);
    ReservationHolds(h, states, steps, i + 1, j, room, digest, entry);
    ReservedBegins(states[j].index, room, digest, entry, declared, now, states[j].nextSerial);
  }

  lemma GrantReserves(h: Bytes -> Digest, s: System, room: RoomId, digest: Digest, bytes: nat, at: Instant)
    requires Enabled(s, ReserveRoom(room, digest, bytes, at)) && !Held(RoomOf(s.index, room), digest, at)
    requires Reserve(s.index, room, digest, bytes, at).1.Granted?
    ensures Reserves(Apply(h, s, ReserveRoom(room, digest, bytes, at)).index, room, digest,
                     Reservation(bytes, ChargeFor(bytes), at + RESERVATION_TIME_TO_LIVE))
  {
    hide StoreModel.Reserve;
    ReserveExactly(s.index, room, digest, bytes, at);
  }

  lemma ReservedBegins(index: Index, room: RoomId, digest: Digest, entry: Reservation, declared: nat, now: Instant,
                       serial: nat)
    requires Reserves(index, room, digest, entry) && now < entry.expiresAt && declared <= entry.declared
    ensures BeginUpload(index, room, digest, declared, now, serial).1
         == if Held(RoomOf(index, room), digest, now) then AlreadyHeld
            else if digest in RoomOf(index, room).uploading then Unreserved
            else Accepted
  {
    BeginExactly(index, room, digest, declared, now, serial);
  }

  // ---------------------------------------------------------------------------
  // One upload among the others
  // ---------------------------------------------------------------------------

  /** The steps an upload takes itself. */
  predicate Acts(step: Step, g: nat) {
    || (step.WriteChunk? && step.guard == g)
    || step == BreakOff(g) || step == Finish(g) || step == Resume(g) || step == CleanUp(g) || step == DropGuard(g)
  }

  /** An upload, and the operation on its temporary file, as they were. */
  ghost predicate Untouched(s: System, t: System, g: nat) {
    && g in s.guards && g in t.guards && t.guards[g] == s.guards[g]
    && forall n :: Claim(s.guards[g]) == Some(n) && n in s.ops ==> n in t.ops && t.ops[n] == s.ops[n]
  }

  lemma MovesAside(s: System, t: System, k: nat, g: nat)
    requires SerialsOk(s) && Moves(s, t, k) && k != g && g in s.guards
    ensures Untouched(s, t, g)
  {
  }

  lemma WriteMoves(s: System, k: nat, chunk: Bytes)
    requires SerialsOk(s) && Enabled(s, WriteChunk(k, chunk))
    ensures Moves(s, ApplyWrite(s, k, chunk), k)
  {
  }

  /** The three ways a finish goes on. */
  lemma FinishForms(h: Bytes -> Digest, s: System, g: nat)
    requires g in s.guards
    ensures var guard, n := s.guards[g], s.nextSerial;
            ApplyFinish(h, s, g)
            == if |guard.written| != guard.declared || h(guard.written) != guard.digest
               then s.(guards := s.guards[g := Refuse(guard)])
               else if guard.temp.None?
               then s.(guards := s.guards[g := guard.(phase := Opening(n, ThenRename))], nextSerial := n + 1,
                       ops := s.ops[n := Pending(guard.room, guard.digest, CreateFile)])
               else s.(guards := s.guards[g := guard.(phase := Renaming)],
                       ops := s.ops[guard.temp.value := Pending(guard.room, guard.digest, RenameFile)])
  {
  }

  lemma FinishMoves(h: Bytes -> Digest, s: System, k: nat)
    requires SerialsOk(s) && Enabled(s, Finish(k))
    ensures Moves(s, ApplyFinish(h, s, k), k)
  {
    hide ApplyFinish;
    FinishForms(h, s, k);
  }

  /** What was received, the chunk being written included. */
  function Taken(guard: Guard): Bytes {
    match guard.phase
    case Opening(_, ThenWrite(chunk)) => guard.written + chunk
    case Writing(chunk) => guard.written + chunk
    case _ => guard.written
  }

  /** The upload goes on to its next file operation. */
  ghost predicate GoesOn(s: System, t: System, g: nat, guard: Guard, op: FileOp)
    requires g in s.guards
  {
    && guard.temp.Some?
    && t == s.(guards := s.guards[g := guard], ops := s.ops[guard.temp.value := Pending(guard.room, guard.digest, op)])
  }

  lemma OpenedGoesOn(s: System, g: nat)
    requires Enabled(s, Resume(g)) && s.guards[g].phase.Opening? && s.ops[s.guards[g].phase.serial].ok
    ensures var guard := s.guards[g].(temp := Some(s.guards[g].phase.serial));
            match guard.phase.next
            case ThenWrite(chunk) =>
              GoesOn(s, ApplyResume(s, g), g, guard.(phase := Writing(chunk)), WriteFile(guard.written + chunk))
            case ThenRename => GoesOn(s, ApplyResume(s, g), g, guard.(phase := Renaming), RenameFile)
  {
    hide ApplyCommit;
  }

  lemma WroteGoesOn(s: System, g: nat)
    requires Enabled(s, Resume(g)) && s.guards[g].phase.Writing? && s.ops[s.guards[g].temp.value].ok
    ensures ApplyResume(s, g)
         == s.(guards := s.guards[g := s.guards[g].(written := Taken(s.guards[g]), phase := Ready)])
  {
    hide ApplyCommit;
  }

  lemma FailedStops(s: System, g: nat)
    requires Enabled(s, Resume(g)) && !s.ops[Awaited(s.guards[g]).value].ok
    ensures ApplyResume(s, g)
         == s.(guards := s.guards[g := if s.guards[g].phase.Renaming? then Refuse(s.guards[g])
                                       else s.guards[g].(phase := Failed)])
  {
    hide ApplyCommit, Start;
  }

  lemma ResumeMoves(s: System, k: nat)
    requires SerialsOk(s) && Enabled(s, Resume(k)) && !HasLanded(s.guards[k], s.ops)
    requires s.guards[k].phase.Opening? ==> s.guards[k].temp.None?
    ensures Moves(s, ApplyResume(s, k), k)
  {
    hide ApplyResume;
    if !s.ops[Awaited(s.guards[k]).value].ok {
      FailedStops(s, k);
    } else if s.guards[k].phase.Opening? {
      OpenedGoesOn(s, k);
    } else {
      WroteGoesOn(s, k);
    }
  }

  lemma CommitLeaves(s: System, k: nat, g: nat)
    requires k in s.guards && k != g && g in s.guards
    ensures Untouched(s, ApplyCommit(s, k), g)
  {
    hide StoreModel.CommitUpload;
  }

  lemma ResumeAsideOf(s: System, k: nat, g: nat)
    requires SerialsOk(s) && Enabled(s, Resume(k)) && k != g && g in s.guards
    requires s.guards[k].phase.Opening? ==> s.guards[k].temp.None?
    ensures Untouched(s, ApplyResume(s, k), g)
  {
    if HasLanded(s.guards[k], s.ops) {
      hide ApplyCommit;
      CommitLeaves(s, k, g);
    } else {
      hide ApplyResume;
      ResumeMoves(s, k);
      MovesAside(s, ApplyResume(s, k), k, g);
    }
  }

  lemma OthersAside(h: Bytes -> Digest, s: System, step: Step, g: nat)
    requires Inv(h, s) && Enabled(s, step) && g in s.guards && !Acts(step, g)
    requires step.Land? ==> Claim(s.guards[g]) != Some(step.serial)
    ensures Untouched(s, Apply(h, s, step), g)
  {
    hide StoreModel.Reserve, StoreModel.BeginUpload, StoreModel.AbandonUpload, StoreModel.Sweep, ExpiredFiles;
    hide LandedFiles, Unlinked, ApplyBegin, ApplyWrite, ApplyFinish, ApplyResume, ApplyDrop;
    hide Inv, SerialsOk, Untouched, Moves;
    SerialsPart(h, s);
    match step
    case WriteChunk(k, chunk) =>
      WriteMoves(s, k, chunk);
      MovesAside(s, ApplyWrite(s, k, chunk), k, g);
    case Finish(k) =>
      FinishMoves(h, s, k);
      MovesAside(s, ApplyFinish(h, s, k), k, g);
    case Resume(k) =>
      assert s.guards[k].phase.Opening? ==> s.guards[k].temp.None? by { OwnPart(h, s, k); }
      ResumeAsideOf(s, k, g);
    case _ => QuietAside(h, s, step, g);
  }

  lemma QuietAside(h: Bytes -> Digest, s: System, step: Step, g: nat)
    requires SerialsOk(s) && Enabled(s, step) && g in s.guards && !Acts(step, g)
    requires !step.WriteChunk? && !step.Finish? && !step.Resume?
    requires step.Land? ==> Claim(s.guards[g]) != Some(step.serial)
    ensures Untouched(s, Apply(h, s, step), g)
  {
    hide StoreModel.Reserve, StoreModel.BeginUpload, StoreModel.AbandonUpload, StoreModel.Sweep, ExpiredFiles;
    hide LandedFiles, Unlinked, ApplyBegin, ApplyDrop, Untouched;
    if step.BeginTransfer? {
      BeginAsideOf(s, step.room, step.digest, step.declared, step.now, g);
    } else if step.DropGuard? {
      DropAsideOf(s, step.guard, g);
    } else {
      SameAside(s, Apply(h, s, step), g);
    }
  }

  lemma BeginAsideOf(s: System, room: RoomId, digest: Digest, declared: nat, now: Instant, g: nat)
    requires SerialsOk(s) && g in s.guards
    ensures Untouched(s, ApplyBegin(s, room, digest, declared, now), g)
  {
    hide StoreModel.BeginUpload;
  }

  lemma DropAsideOf(s: System, k: nat, g: nat)
    requires k in s.guards && g in s.guards && k != g
    ensures Untouched(s, ApplyDrop(s, k), g)
  {
    hide StoreModel.AbandonUpload;
  }

  lemma SameAside(s: System, t: System, g: nat)
    requires g in s.guards && g in t.guards && t.guards[g] == s.guards[g]
    requires forall n :: n in s.ops && Claim(s.guards[g]) == Some(n) ==> n in t.ops && t.ops[n] == s.ops[n]
    ensures Untouched(s, t, g)
  {
  }

  lemma SerialsPart(h: Bytes -> Digest, s: System)
    requires Inv(h, s)
    ensures SerialsOk(s)
  {
    hide SerialsOk, IndexOk;
  }

  // Its claim on the address

  lemma BeginFlight(index: Index, r: RoomId, d: Digest, declared: nat, now: Instant, serial: nat,
                    room: RoomId, digest: Digest, g: nat)
    requires OwnsFlight(index, room, digest, g)
    ensures OwnsFlight(BeginUpload(index, r, d, declared, now, serial).0, room, digest, g)
  {
  }

  lemma ReserveFlight(index: Index, r: RoomId, d: Digest, bytes: nat, now: Instant,
                      room: RoomId, digest: Digest, g: nat)
    requires OwnsFlight(index, room, digest, g)
    ensures OwnsFlight(Reserve(index, r, d, bytes, now).0, room, digest, g)
  {
    hide RoomCharge, IndexCharge;
  }

  lemma AbandonFlight(index: Index, r: RoomId, d: Digest, serial: nat, room: RoomId, digest: Digest, g: nat)
    requires OwnsFlight(index, room, digest, g) && serial != g
    ensures OwnsFlight(AbandonUpload(index, r, d, serial), room, digest, g)
  {
    if OwnsFlight(index, r, d, serial) && r == room {
      assert digest in (index[r].uploading - {d});
    }
  }

  lemma CommitFlight(index: Index, r: RoomId, d: Digest, serial: nat, bytes: nat, now: Instant,
                     room: RoomId, digest: Digest, g: nat)
    requires OwnsFlight(index, room, digest, g) && serial != g
    ensures OwnsFlight(CommitUpload(index, r, d, serial, bytes, now).0, room, digest, g)
  {
  }

  lemma SweepFlight(index: Index, now: Instant, room: RoomId, digest: Digest, g: nat)
    requires OwnsFlight(index, room, digest, g)
    ensures OwnsFlight(Sweep(index, now), room, digest, g)
  {
  }

  /** Only the end of its room, or its own end, takes an address from the upload that has it. */
  lemma FlightStays(h: Bytes -> Digest, s: System, step: Step, g: nat, room: RoomId, digest: Digest)
    requires Enabled(s, step) && OwnsFlight(s.index, room, digest, g) && step != EndRoom(room) && step != DropGuard(g)
    requires step == Resume(g) ==> !HasLanded(s.guards[g], s.ops)
    ensures OwnsFlight(Apply(h, s, step).index, room, digest, g)
  {
    hide StoreModel.Reserve, StoreModel.BeginUpload, StoreModel.AbandonUpload, StoreModel.Sweep, ExpiredFiles;
    hide StoreModel.CommitUpload, LandedFiles, Unlinked, ApplyWrite, ApplyFinish, ApplyResume, HasLanded;
    match step
    case ReserveRoom(r, d, bytes, now) => ReserveFlight(s.index, r, d, bytes, now, room, digest, g);
    case BeginTransfer(r, d, declared, now) =>
      BeginFlight(s.index, r, d, declared, now, s.nextSerial, room, digest, g);
    case SweepExpired(now) => SweepFlight(s.index, now, room, digest, g);
    case WriteChunk(k, chunk) => WriteIndex(s, k, chunk);
    case Finish(k) => FinishIndex(h, s, k);
    case Resume(k) =>
      ResumeIndex(s, k);
      if k != g {
        CommitFlight(s.index, s.guards[k].room, s.guards[k].digest, k, |s.guards[k].written|, s.clock, room, digest, g);
      }
    case DropGuard(k) => AbandonFlight(s.index, s.guards[k].room, s.guards[k].digest, k, room, digest, g);
    case _ =>
  }

  // ---------------------------------------------------------------------------
  // An upload on course
  // ---------------------------------------------------------------------------

  /** The upload still has its address, and no file operation of its own has failed it. */
  ghost predicate OnCourse(s: System, g: nat) {
    && g in s.guards && OwnsFlight(s.index, s.guards[g].room, s.guards[g].digest, g)
    && (Awaited(s.guards[g]).Some? ==>
          var n := Awaited(s.guards[g]).value;
          n in s.ops && (s.ops[n].Landed? ==> s.ops[n].ok))
  }

  /** A step that does not cut an upload off: it is not dropped, its body does not break off, its room does not end,
      and if it is the landing of what it waits for, that succeeds. */
  predicate Smooth(s: System, step: Step, g: nat) {
    && step != DropGuard(g) && step != BreakOff(g)
    && (g in s.guards ==>
          && step != EndRoom(s.guards[g].room)
          && (step.Land? && Awaited(s.guards[g]) == Some(step.serial) ==> step.ok))
  }

  /** Still taking its body in. */
  predicate Receiving(guard: Guard) {
    guard.phase.Ready? || guard.phase.Writing? || (guard.phase.Opening? && guard.phase.next.ThenWrite?)
  }

  /** Past every check, on the way to its address. */
  predicate Finishing(guard: Guard) {
    guard.phase.Renaming? || (guard.phase.Opening? && guard.phase.next.ThenRename?)
  }

  function ChunkOf(step: Step, g: nat): Bytes {
    if step.WriteChunk? && step.guard == g then step.chunk else []
  }

  /** How often the upload still has to be resumed. */
  function Left(guard: Guard): nat {
    if guard.phase.Renaming? then 1 else 2
  }

  ghost predicate SameTarget(s: System, t: System, g: nat) {
    && g in s.guards && g in t.guards && t.guards[g].room == s.guards[g].room
    && t.guards[g].digest == s.guards[g].digest && t.guards[g].declared == s.guards[g].declared
  }

  /** A chunk that fits is taken in; one that does not ends the upload. */
  lemma WriteTaken(s: System, g: nat, chunk: Bytes)
    requires SerialsOk(s) && Enabled(s, WriteChunk(g, chunk))
    ensures var t := ApplyWrite(s, g, chunk);
            && SameTarget(s, t, g)
            && (t.guards[g].phase.Failed? <==> |s.guards[g].written| + |chunk| > s.guards[g].declared)
            && (!t.guards[g].phase.Failed? ==>
                  && Receiving(t.guards[g]) && Taken(t.guards[g]) == s.guards[g].written + chunk
                  && var n := Awaited(t.guards[g]).value; n in t.ops && t.ops[n].Pending?)
  {
  }

  lemma ResumeTaken(s: System, g: nat)
    requires OnCourse(s, g) && Receiving(s.guards[g]) && Enabled(s, Resume(g))
    ensures var t := ApplyResume(s, g);
            && SameTarget(s, t, g) && Receiving(t.guards[g]) && Taken(t.guards[g]) == Taken(s.guards[g])
            && (Awaited(t.guards[g]).Some? ==>
                  var n := Awaited(t.guards[g]).value; n in t.ops && t.ops[n].Pending?)
  {
    hide ApplyResume, OwnsFlight;
    if s.guards[g].phase.Opening? {
      OpenedGoesOn(s, g);
    } else {
      WroteGoesOn(s, g);
    }
  }

  lemma LandOnCourse(s: System, t: System, g: nat, n: nat, ok: bool)
    requires OnCourse(s, g)
    requires t.guards == s.guards && t.index == s.index && t.ops == s.ops[n := Landed(ok)]
    requires Awaited(s.guards[g]) == Some(n) ==> ok
    ensures OnCourse(t, g)
  {
  }

  lemma UntouchedOnCourse(s: System, t: System, g: nat)
    requires OnCourse(s, g) && Untouched(s, t, g)
    requires OwnsFlight(t.index, s.guards[g].room, s.guards[g].digest, g)
    ensures OnCourse(t, g)
  {
    assert Awaited(s.guards[g]).Some? ==> Claim(s.guards[g]) == Awaited(s.guards[g]);
  }

  /** What the rest of the store does, and landings, leave an upload as it is. */
  lemma StaysOnCourse(h: Bytes -> Digest, s: System, step: Step, g: nat)
    requires Inv(h, s) && Enabled(s, step) && OnCourse(s, g) && Smooth(s, step, g) && !Acts(step, g)
    ensures var t := Apply(h, s, step); OnCourse(t, g) && t.guards[g] == s.guards[g]
  {
    hide Inv, Apply, Enabled, OnCourse, Untouched, OwnsFlight;
    CourseFlight(s, g);
    if step.Land? {
      assert step == Land(step.serial, step.ok, step.garbage);
      LandApplies(h, s, step.serial, step.ok, step.garbage);
      LandOnCourse(s, Apply(h, s, step), g, step.serial, step.ok);
    } else {
      FlightStays(h, s, step, g, s.guards[g].room, s.guards[g].digest);
      OthersAside(h, s, step, g);
      UntouchedOnCourse(s, Apply(h, s, step), g);
      UntouchedSame(s, Apply(h, s, step), g);
    }
  }

  lemma CourseFlight(s: System, g: nat)
    requires OnCourse(s, g)
    ensures g in s.guards && OwnsFlight(s.index, s.guards[g].room, s.guards[g].digest, g)
  {
  }

  lemma UntouchedSame(s: System, t: System, g: nat)
    requires Untouched(s, t, g)
    ensures g in t.guards && t.guards[g] == s.guards[g]
  {
  }

  lemma LandApplies(h: Bytes -> Digest, s: System, n: nat, ok: bool, garbage: Bytes)
    requires Enabled(s, Land(n, ok, garbage))
    ensures var t := Apply(h, s, Land(n, ok, garbage));
            t.guards == s.guards && t.index == s.index && t.ops == s.ops[n := Landed(ok)]
  {
    hide LandedFiles;
  }

  lemma ReceivingStep(h: Bytes -> Digest, s: System, step: Step, g: nat)
    requires Inv(h, s) && Enabled(s, step) && OnCourse(s, g) && Smooth(s, step, g)
    requires Receiving(s.guards[g]) && step != Finish(g)
    requires |Taken(s.guards[g])| + |ChunkOf(step, g)| <= s.guards[g].declared
    ensures var t := Apply(h, s, step);
            && OnCourse(t, g) && Receiving(t.guards[g]) && SameTarget(s, t, g)
            && Taken(t.guards[g]) == Taken(s.guards[g]) + ChunkOf(step, g)
  {
    if !Acts(step, g) {
      hide Apply, Inv, OnCourse;
      StaysOnCourse(h, s, step, g);
    } else {
      hide Inv, ApplyWrite, ApplyResume;
      SerialsPart(h, s);
      FlightStays(h, s, step, g, s.guards[g].room, s.guards[g].digest);
      if step.WriteChunk? {
        WriteTaken(s, g, step.chunk);
      } else {
        ResumeTaken(s, g);
      }
    }
  }

  /** A finish is refused exactly if the length or the hash is not what was declared. */
  lemma FinishExactly(h: Bytes -> Digest, s: System, g: nat)
    requires SerialsOk(s) && Enabled(s, Finish(g))
    ensures var t := ApplyFinish(h, s, g);
            && SameTarget(s, t, g) && t.guards[g].written == s.guards[g].written
            && (Finishing(t.guards[g]) <==>
                  |s.guards[g].written| == s.guards[g].declared && h(s.guards[g].written) == s.guards[g].digest)
            && (!Finishing(t.guards[g]) ==> t.guards[g].phase.Failed? || t.guards[g].phase.Cleaning?)
            && (Finishing(t.guards[g]) ==>
                  && Left(t.guards[g]) == (if s.guards[g].temp.Some? then 1 else 2)
                  && var n := Awaited(t.guards[g]).value; n in t.ops && t.ops[n].Pending?)
  {
    hide ApplyFinish;
    FinishForms(h, s, g);
  }

  lemma FinishingStep(h: Bytes -> Digest, s: System, step: Step, g: nat)
    requires Inv(h, s) && Enabled(s, step) && OnCourse(s, g) && Smooth(s, step, g) && Finishing(s.guards[g])
    requires step != Resume(g) || Left(s.guards[g]) == 2
    ensures var t := Apply(h, s, step);
            && OnCourse(t, g) && Finishing(t.guards[g]) && SameTarget(s, t, g)
            && t.guards[g].written == s.guards[g].written
            && Left(t.guards[g]) == Left(s.guards[g]) - if step == Resume(g) then 1 else 0
  {
    if !Acts(step, g) {
      hide Apply, Inv, OnCourse;
      StaysOnCourse(h, s, step, g);
    } else {
      hide Inv, ApplyResume, OwnsFlight;
      OpenedGoesOn(s, g);
      FlightStays(h, s, step, g, s.guards[g].room, s.guards[g].digest);
    }
  }

  /** The last resumption commits: the payload is stored as of now, and the file at its address is what was sent. */
  lemma CommitStep(h: Bytes -> Digest, s: System, g: nat)
    requires Injective(h) && Inv(h, s) && Enabled(s, Resume(g)) && OnCourse(s, g) && s.guards[g].phase.Renaming?
    ensures Stored(Apply(h, s, Resume(g)), s.guards[g].room, s.guards[g].digest, s.guards[g].written)
    ensures g !in Apply(h, s, Resume(g)).guards
  {
    hide Inv, Apply, ApplyResume;
    CommittedFile(h, s, g);
    ResumeApplies(h, s, g);
    CommitGoesOn(s, g);
  }

  lemma ResumeApplies(h: Bytes -> Digest, s: System, g: nat)
    requires Enabled(s, Resume(g))
    ensures Apply(h, s, Resume(g)) == ApplyResume(s, g)
  {
  }

  lemma CommitGoesOn(s: System, g: nat)
    requires Enabled(s, Resume(g)) && HasLanded(s.guards[g], s.ops)
    requires OwnsFlight(s.index, s.guards[g].room, s.guards[g].digest, g)
    ensures var guard := s.guards[g];
            var t := ApplyResume(s, g);
            && t.guards == s.guards - {g} && t.files == s.files && t.clock == s.clock
            && t.commits == s.commits[(guard.room, guard.digest) := (s.clock, |guard.written|)]
            && PayloadLen(t.index, guard.room, guard.digest, s.clock) == Some(|guard.written|)
  {
  }

  ghost predicate Stored(s: System, room: RoomId, digest: Digest, content: Bytes) {
    && PayloadLen(s.index, room, digest, s.clock) == Some(|content|)
    && (room, digest) in s.commits && s.commits[(room, digest)] == (s.clock, |content|)
    && FinalPath(room, digest) in s.files && s.files[FinalPath(room, digest)] == content
  }

  // ---------------------------------------------------------------------------
  // Whole uploads
  // ---------------------------------------------------------------------------

  /** Everything a stretch of steps sends to an upload. */
  ghost function Sent(steps: seq<Step>, g: nat, i: nat, j: nat): Bytes
    requires i <= j <= |steps|
    decreases j
  {
    if i == j then [] else Sent(steps, g, i, j - 1) + ChunkOf(steps[j - 1], g)
  }

  /** How often a stretch of steps resumes an upload. */
  ghost function Resumed(steps: seq<Step>, g: nat, i: nat, j: nat): nat
    requires i <= j <= |steps|
    decreases j
  {
    if i == j then 0 else Resumed(steps, g, i, j - 1) + if steps[j - 1] == Resume(g) then 1 else 0
  }

  /** While it receives, an upload holds exactly what was sent to it. */
  lemma {:induction false} RunReceives(h: Bytes -> Digest, states: seq<System>, steps: seq<Step>,
                                       i: nat, j: nat, g: nat)
    requires Injective(h) && Run(h, states, steps) && i <= j < |states|
    requires OnCourse(states[i], g) && Receiving(states[i].guards[g]) && Taken(states[i].guards[g]) == []
    requires forall k :: i <= k < j ==> Smooth(states[k], steps[k], g) && steps[k] != Finish(g)
    requires |Sent(steps, g, i, j)| <= states[i].guards[g].declared
    ensures OnCourse(states[j], g) && Receiving(states[j].guards[g]) && SameTarget(states[i], states[j], g)
    ensures Taken(states[j].guards[g]) == Sent(steps, g, i, j)
    decreases j
  {
    hide Apply, Inv, Enabled, OnCourse, Receiving, Smooth, Taken;
    assert g in states[i].guards by { CourseGuard(states[i], g); }
    if i < j {
      RunReceives(h, states, steps, i, j - 1, g);
      RunKeeps(h, states, steps, j - 1);
      ReceivingStep(h, states[j - 1], steps[j - 1], g);
    }
  }

  lemma CourseGuard(s: System, g: nat)
    requires OnCourse(s, g)
    ensures g in s.guards
  {
  }

  /** Past its checks, only being resumed brings an upload nearer to its address. */
  lemma {:induction false} RunFinishes(h: Bytes -> Digest, states: seq<System>, steps: seq<Step>,
                                       i: nat, j: nat, g: nat)
    requires Injective(h) && Run(h, states, steps) && i <= j < |states|
    requires OnCourse(states[i], g) && Finishing(states[i].guards[g])
    requires forall k :: i <= k < j ==> Smooth(states[k], steps[k], g)
    requires Resumed(steps, g, i, j) < Left(states[i].guards[g])
    ensures OnCourse(states[j], g) && Finishing(states[j].guards[g]) && SameTarget(states[i], states[j], g)
    ensures states[j].guards[g].written == states[i].guards[g].written
    ensures Left(states[j].guards[g]) == Left(states[i].guards[g]) - Resumed(steps, g, i, j)
    decreases j
  {
    hide Apply, Inv, Enabled, OnCourse, Finishing, Smooth;
    assert g in states[i].guards by { CourseGuard(states[i], g); }
    if i < j {
      RunFinishes(h, states, steps, i, j - 1, g);
      RunKeeps(h, states, steps, j - 1);
      FinishingStep(h, states[j - 1], steps[j - 1], g);
    }
  }

  lemma AcceptedStarts(h: Bytes -> Digest, s: System, room: RoomId, digest: Digest, declared: nat, now: Instant)
    requires Enabled(s, BeginTransfer(room, digest, declared, now))
    requires BeginUpload(s.index, room, digest, declared, now, s.nextSerial).1.Accepted?
    ensures var t := Apply(h, s, BeginTransfer(room, digest, declared, now));
            OnCourse(t, s.nextSerial) && t.guards[s.nextSerial] == Guard(room, digest, declared, [], None, Ready)
  {
    hide StoreModel.BeginUpload;
    BeginExactly(s.index, room, digest, declared, now, s.nextSerial);
  }

  lemma FinishStarts(h: Bytes -> Digest, s: System, g: nat)
    requires Inv(h, s) && Enabled(s, Finish(g)) && OnCourse(s, g)
    requires |s.guards[g].written| == s.guards[g].declared && h(s.guards[g].written) == s.guards[g].digest
    ensures var t := Apply(h, s, Finish(g));
            && OnCourse(t, g) && Finishing(t.guards[g]) && SameTarget(s, t, g)
            && t.guards[g].written == s.guards[g].written
            && Left(t.guards[g]) == if s.guards[g].temp.Some? then 1 else 2
  {
    hide Inv, ApplyFinish, SerialsOk, OwnsFlight;
    SerialsPart(h, s);
    FinishExactly(h, s, g);
    FinishIndex(h, s, g);
  }

  /** What an upload that was accepted is about, and what a run sends to it until its finish. */
  ghost predicate Uploads(states: seq<System>, steps: seq<Step>, i: nat, f: nat, g: nat, content: Bytes)
    requires |states| == |steps| + 1 && i < f < |steps|
  {
    && steps[i].BeginTransfer? && g == states[i].nextSerial
    && BeginUpload(states[i].index, steps[i].room, steps[i].digest, steps[i].declared, steps[i].now, g).1.Accepted?
    && steps[f] == Finish(g) && (forall k :: i < k < f ==> steps[k] != Finish(g))
    && content == Sent(steps, g, i + 1, f)
  }

  lemma UploadFinishes(h: Bytes -> Digest, states: seq<System>, steps: seq<Step>,
                       i: nat, f: nat, g: nat, content: Bytes)
    requires Injective(h) && Run(h, states, steps) && i < f < |steps| && Uploads(states, steps, i, f, g, content)
    requires |content| == steps[i].declared && h(content) == steps[i].digest
    requires forall k :: i < k < f ==> Smooth(states[k], steps[k], g)
    ensures OnCourse(states[f + 1], g) && Finishing(states[f + 1].guards[g]) && g in states[f].guards
    ensures states[f + 1].guards[g].room == steps[i].room && states[f + 1].guards[g].digest == steps[i].digest
    ensures states[f + 1].guards[g].written == content
    ensures Left(states[f + 1].guards[g]) == if states[f].guards[g].temp.Some? then 1 else 2
  {
    hide Apply, Inv, OnCourse, Smooth, Sent;
    AcceptedStarts(h, states[i], steps[i].room, steps[i].digest, steps[i].declared, steps[i].now);
    RunReceives(h, states, steps, i + 1, f, g);
    RunKeeps(h, states, steps, f);
    FinishStarts(h, states[f], g);
  }

  /** An upload that was accepted and is sent exactly what it declared is stored by the last resumption after its
      finish, whatever the rest of the store does meanwhile, as long as nothing cuts it off. */
  lemma IntactUploadIsStored(h: Bytes -> Digest, states: seq<System>, steps: seq<Step>,
                             i: nat, f: nat, e: nat, g: nat, content: Bytes)
    requires Injective(h) && Run(h, states, steps) && i < f < e < |steps|
    requires Uploads(states, steps, i, f, g, content)
    requires |content| == steps[i].declared && h(content) == steps[i].digest
    requires forall k :: i < k < e ==> Smooth(states[k], steps[k], g)
    requires g in states[f].guards && steps[e] == Resume(g)
    requires Resumed(steps, g, f + 1, e) == if states[f].guards[g].temp.Some? then 0 else 1
    ensures Stored(states[e + 1], steps[i].room, steps[i].digest, content)
    ensures g !in states[e + 1].guards
  {
    hide Apply, Inv, OnCourse, Smooth, Sent, Uploads, Resumed, Stored;
    UploadFinishes(h, states, steps, i, f, g, content);
    RunFinishes(h, states, steps, f + 1, e, g);
    RunKeeps(h, states, steps, e);
    CommitStep(h, states[e], g);
  }
}
