/**
 The payload store at work: the index, the files, the upload guards and the
 maintenance task, interleaved one critical section or one file operation at a
 time.

 A file operation an upload awaits is in flight on another thread. It lands when
 it lands, possibly after the upload that asked for it has been dropped. Instants
 are sampled before the index lock is taken, so every step that samples one may
 carry a reading older than the clock. Looking at the index before unlinking a
 file and then unlinking it are taken as one step.
 */
module StoreRuns {
  import opened Basics
  import opened StoreModel

  type Address = (RoomId, Digest)

  /** Rooms have distinct directories, and a temporary name carries its own serial. */
  datatype Path =
    | FinalPath(room: RoomId, digest: Digest)
    | TempPath(room: RoomId, digest: Digest, serial: nat)

  datatype FileOp = CreateFile | WriteFile(content: Bytes) | RenameFile

  /** One file operation on the temporary file of the same serial. */
  datatype Operation =
    | Pending(room: RoomId, digest: Digest, op: FileOp)
    | Landed(ok: bool)

  datatype Resumption = ThenWrite(chunk: Bytes) | ThenRename

  datatype Phase =
    | Ready                                        // between two body frames
    | Opening(serial: nat, next: Resumption)       // the temporary file is being created
    | Writing(chunk: Bytes)                        // a chunk is being written
    | Renaming                                     // every check passed, the rename is in flight
    | Cleaning(path: Path)                         // refused, about to remove what it left
    | Failed                                       // nothing left to do but be dropped

  /** One upload; its serial is the key it is kept under. */
  datatype Guard = Guard(
    room: RoomId,
    digest: Digest,
    declared: nat,
    written: Bytes,
    temp: Option<nat>,
    phase: Phase)

  datatype System = System(
    index: Index,
    nextSerial: nat,
    guards: map<nat, Guard>,
    files: map<Path, Bytes>,
    ops: map<nat, Operation>,
    removals: multiset<Removal>,
    clock: Instant,
    // What has happened so far, kept only to state properties of whole runs.
    grants: multiset<Address>,
    accepted: multiset<Address>,
    commits: map<Address, (Instant, nat)>)

  datatype Step =
    | Tick(now: Instant)
    | ReserveRoom(room: RoomId, digest: Digest, bytes: nat, now: Instant)
    | BeginTransfer(room: RoomId, digest: Digest, declared: nat, now: Instant)
    | EndRoom(room: RoomId)
    | SweepExpired(now: Instant)
    | CarryOut(removal: Removal)
    | WriteChunk(guard: nat, chunk: Bytes)
    | BreakOff(guard: nat)
    | Finish(guard: nat)
    | Land(serial: nat, ok: bool, garbage: Bytes)
    | Resume(guard: nat)
    | CleanUp(guard: nat)
    | DropGuard(guard: nat)

  const INITIAL := System(map[], 0, map[], map[], map[], multiset{}, 0, multiset{}, multiset{}, map[])

  // ---------------------------------------------------------------------------
  // Steps
  // ---------------------------------------------------------------------------

  ghost predicate Enabled(s: System, step: Step) {
    match step
    case Tick(now) => s.clock <= now
    case ReserveRoom(_, _, _, now) => now <= s.clock
    case BeginTransfer(_, _, _, now) => now <= s.clock
    case EndRoom(_) => true
    case SweepExpired(now) => now <= s.clock
    case CarryOut(removal) => removal in s.removals
    case WriteChunk(g, _) => g in s.guards && s.guards[g].phase.Ready?
    case BreakOff(g) => g in s.guards && s.guards[g].phase.Ready?
    case Finish(g) => g in s.guards && s.guards[g].phase.Ready?
    case Land(n, ok, _) => n in s.ops && s.ops[n].Pending? && (ok ==> CanLand(s, n))
    case Resume(g) => g in s.guards && Awaited(s.guards[g]).Some?
                      && Awaited(s.guards[g]).value in s.ops && s.ops[Awaited(s.guards[g]).value].Landed?
    case CleanUp(g) => g in s.guards && s.guards[g].phase.Cleaning?
    case DropGuard(g) => g in s.guards && !s.guards[g].phase.Cleaning?
  }

  /** A rename needs its source; the others can succeed whatever has been unlinked. */
  predicate CanLand(s: System, n: nat)
    requires n in s.ops && s.ops[n].Pending?
  {
    s.ops[n].op.RenameFile? ==> TempPath(s.ops[n].room, s.ops[n].digest, n) in s.files
  }

  /** The temporary file whose operation a guard is waiting for. */
  function Awaited(g: Guard): Option<nat> {
    match g.phase
    case Opening(n, _) => Some(n)
    case Writing(_) => g.temp
    case Renaming => g.temp
    case _ => None
  }

  /** The temporary file a guard has to itself. */
  function Claim(g: Guard): Option<nat> {
    if g.phase.Opening? then Some(g.phase.serial) else g.temp
  }

  ghost function Apply(h: Bytes -> Digest, s: System, step: Step): System
    requires Enabled(s, step)
  {
    match step
    case Tick(now) => s.(clock := now)
    case ReserveRoom(room, digest, bytes, now) =>
      var (index, result) := Reserve(s.index, room, digest, bytes, now);
      var charged := result.Granted? && !Held(RoomOf(s.index, room), digest, now);
      s.(index := index, grants := if charged then s.grants + multiset{(room, digest)} else s.grants)
    case BeginTransfer(room, digest, declared, now) => ApplyBegin(s, room, digest, declared, now)
    case EndRoom(room) =>
      s.(index := ForgetRoom(s.index, room),
         removals := if room in s.index then s.removals + multiset{RoomDirectory(room)} else s.removals,
         commits := map a | a in s.commits && a.0 != room :: s.commits[a])
    case SweepExpired(now) =>
      s.(index := Sweep(s.index, now), removals := s.removals + multiset(ExpiredFiles(s.index, now)))
    case CarryOut(removal) =>
      s.(removals := s.removals - multiset{removal}, files := Unlinked(s, removal))
    case WriteChunk(g, chunk) => ApplyWrite(s, g, chunk)
    case BreakOff(g) => s.(guards := s.guards[g := s.guards[g].(phase := Failed)])
    case Finish(g) => ApplyFinish(h, s, g)
    case Land(n, ok, garbage) =>
      s.(ops := s.ops[n := Landed(ok)], files := LandedFiles(s.files, n, s.ops[n], ok, garbage))
    case Resume(g) => ApplyResume(s, g)
    case CleanUp(g) =>
      var path := s.guards[g].phase.path;
      s.(guards := s.guards[g := s.guards[g].(phase := Failed)],
         files := if path.FinalPath? && Owned(s.index, path.room, path.digest) then s.files else s.files - {path})
    case DropGuard(g) => ApplyDrop(s, g)
  }

  /** The re-check and the unlink of one queued removal. */
  ghost function Unlinked(s: System, removal: Removal): map<Path, Bytes> {
    match removal
    case PayloadFile(room, digest) =>
      if Owned(s.index, room, digest) then s.files else s.files - {FinalPath(room, digest)}
    case RoomDirectory(room) =>
      if room in s.index then s.files else map p | p in s.files && p.room != room :: s.files[p]
    case TempFile(room, digest, n) => s.files - {TempPath(room, digest, n)}
  }

  ghost function ApplyBegin(s: System, room: RoomId, digest: Digest, declared: nat, now: Instant): System {
    var (index, result) := BeginUpload(s.index, room, digest, declared, now, s.nextSerial);
    if result.Accepted? then
      s.(index := index, nextSerial := s.nextSerial + 1,
         guards := s.guards[s.nextSerial := Guard(room, digest, declared, [], None, Ready)],
         accepted := s.accepted + multiset{(room, digest)})
    // A serial is taken once a live reservation covers the upload, even if it is then turned away.
    else s.(index := index, nextSerial := if index == s.index then s.nextSerial else s.nextSerial + 1)
  }

  function Start(s: System, g: nat, n: nat, phase: Phase, op: FileOp): System
    requires g in s.guards
  {
    s.(guards := s.guards[g := s.guards[g].(phase := phase)],
       ops := s.ops[n := Pending(s.guards[g].room, s.guards[g].digest, op)])
  }

  /** Creates the temporary file, under a serial taken now. */
  function Open(s: System, g: nat, next: Resumption): System
    requires g in s.guards
  {
    var n := s.nextSerial;
    Start(s.(nextSerial := n + 1), g, n, Opening(n, next), CreateFile)
  }

  function ApplyWrite(s: System, g: nat, chunk: Bytes): System
    requires g in s.guards
  {
    var guard := s.guards[g];
    if |guard.written| + |chunk| > guard.declared then s.(guards := s.guards[g := guard.(phase := Failed)])
    else if guard.temp.None? then Open(s, g, ThenWrite(chunk))
    else Start(s, g, guard.temp.value, Writing(chunk), WriteFile(guard.written + chunk))
  }

  function ApplyFinish(h: Bytes -> Digest, s: System, g: nat): System
    requires g in s.guards
  {
    var guard := s.guards[g];
    if |guard.written| != guard.declared || h(guard.written) != guard.digest then
      s.(guards := s.guards[g := Refuse(guard)])
    else if guard.temp.None? then Open(s, g, ThenRename)
    else Start(s, g, guard.temp.value, Renaming, RenameFile)
  }

  /** A refused upload removes the temporary file it has, if it has one. */
  function Refuse(guard: Guard): Guard {
    guard.(temp := None,
           phase := if guard.temp.Some? then Cleaning(TempPath(guard.room, guard.digest, guard.temp.value))
                    else Failed)
  }

  function LandedFiles(files: map<Path, Bytes>, n: nat, op: Operation, ok: bool, garbage: Bytes): map<Path, Bytes>
    requires op.Pending?
    requires ok && op.op.RenameFile? ==> TempPath(op.room, op.digest, n) in files
  {
    var temp := TempPath(op.room, op.digest, n);
    match op.op
    case CreateFile => if ok then files[temp := []] else files
    case WriteFile(content) =>
      // The handle outlives the name: a write to an unlinked file changes no path.
      if temp !in files then files else files[temp := if ok then content else garbage]
    case RenameFile =>
      if ok then (files - {temp})[FinalPath(op.room, op.digest) := files[temp]] else files
  }

  ghost function ApplyResume(s: System, g: nat): System
    requires g in s.guards && Awaited(s.guards[g]).Some?
    requires Awaited(s.guards[g]).value in s.ops && s.ops[Awaited(s.guards[g]).value].Landed?
  {
    var guard := s.guards[g];
    var n := Awaited(guard).value;
    var ok := s.ops[n].ok;
    match guard.phase
    case Opening(_, next) =>
      if !ok then s.(guards := s.guards[g := guard.(phase := Failed)])
      else
        var tracked := s.(guards := s.guards[g := guard.(temp := Some(n))]);
        (match next
         case ThenWrite(chunk) => Start(tracked, g, n, Writing(chunk), WriteFile(guard.written + chunk))
         case ThenRename => Start(tracked, g, n, Renaming, RenameFile))
    case Writing(chunk) =>
      s.(guards := s.guards[g := if ok then guard.(written := guard.written + chunk, phase := Ready)
                                 else guard.(phase := Failed)])
    case _ =>
      if ok then ApplyCommit(s, g) else s.(guards := s.guards[g := Refuse(guard)])
  }

  /** The index is committed only once the rename has landed. */
  ghost function ApplyCommit(s: System, g: nat): System
    requires g in s.guards
  {
    var guard := s.guards[g];
    var (index, ok) := CommitUpload(s.index, guard.room, guard.digest, g, |guard.written|, s.clock);
    if ok then
      s.(index := index, guards := s.guards - {g},
         commits := s.commits[(guard.room, guard.digest) := (s.clock, |guard.written|)])
    else
      s.(guards := s.guards[g := guard.(temp := None, phase := Cleaning(FinalPath(guard.room, guard.digest)))])
  }

  ghost function ApplyDrop(s: System, g: nat): System
    requires g in s.guards
  {
    var guard := s.guards[g];
    s.(index := AbandonUpload(s.index, guard.room, guard.digest, g),
       guards := s.guards - {g},
       removals := if guard.temp.Some?
                   then s.removals + multiset{TempFile(guard.room, guard.digest, guard.temp.value)}
                   else s.removals)
  }

  // ---------------------------------------------------------------------------
  // Invariants
  // ---------------------------------------------------------------------------

  ghost predicate Injective(h: Bytes -> Digest) {
    forall a, b :: h(a) == h(b) ==> a == b
  }

  /** Serials are fresh, and no two uploads ever share a temporary file. */
  ghost predicate SerialsOk(s: System) {
    && (forall g :: g in s.guards ==> g < s.nextSerial)
    && (forall g :: g in s.guards && Claim(s.guards[g]).Some? ==> Claim(s.guards[g]).value < s.nextSerial)
    && (forall n :: n in s.ops ==> n < s.nextSerial)
    && (forall g, k :: g in s.guards && k in s.guards && g != k && Claim(s.guards[g]).Some? ==>
          Claim(s.guards[g]) != Claim(s.guards[k]))
  }

  /** Every in-flight entry belongs to the live upload that made it, and covers what that upload may write. */
  ghost predicate FlightsOk(s: System) {
    forall r, d :: d in RoomOf(s.index, r).uploading ==> FlightOk(s.guards, r, d, RoomOf(s.index, r).uploading[d])
  }

  predicate FlightOk(guards: map<nat, Guard>, r: RoomId, d: Digest, flight: InFlight) {
    && flight.serial in guards
    && guards[flight.serial].room == r && guards[flight.serial].digest == d
    && ChargeFor(guards[flight.serial].declared) <= flight.charged
  }

  /** What an upload's temporary file holds in each phase, while it has not been unlinked. */
  predicate GuardOk(h: Bytes -> Digest, guard: Guard, ops: map<nat, Operation>, files: map<Path, Bytes>) {
    && |guard.written| <= guard.declared
    && match guard.phase
       case Ready =>
         && (guard.temp.None? ==> guard.written == [])
         && (guard.temp.Some? ==>
               Settled(guard.temp.value, ops) && HoldsIfAny(guard, guard.temp.value, files, guard.written))
       case Opening(n, next) =>
         && guard.temp.None? && guard.written == [] && n in ops
         && (ops[n] == Pending(guard.room, guard.digest, CreateFile)
             || (ops[n].Landed? && (ops[n].ok ==> HoldsIfAny(guard, n, files, []))))
         && (next.ThenWrite? ==> |next.chunk| <= guard.declared)
         && (next.ThenRename? ==> guard.declared == 0 && h([]) == guard.digest)
       case Writing(chunk) =>
         && guard.temp.Some? && guard.temp.value in ops && |guard.written| + |chunk| <= guard.declared
         && (ops[guard.temp.value] == Pending(guard.room, guard.digest, WriteFile(guard.written + chunk))
             || (ops[guard.temp.value].Landed?
                 && (ops[guard.temp.value].ok ==> HoldsIfAny(guard, guard.temp.value, files, guard.written + chunk))))
       case Renaming =>
         && guard.temp.Some? && guard.temp.value in ops
         && h(guard.written) == guard.digest && |guard.written| == guard.declared
         && (ops[guard.temp.value] == Pending(guard.room, guard.digest, RenameFile) || ops[guard.temp.value].Landed?)
       case Cleaning(path) =>
         guard.temp.None? && path.room == guard.room && path.digest == guard.digest
       case Failed => guard.temp.Some? ==> Settled(guard.temp.value, ops)
  }

  predicate Settled(n: nat, ops: map<nat, Operation>) {
    n in ops && ops[n].Landed?
  }

  predicate HoldsIfAny(guard: Guard, n: nat, files: map<Path, Bytes>, content: Bytes) {
    var path := TempPath(guard.room, guard.digest, n);
    path in files ==> files[path] == content
  }

  ghost predicate GuardsOk(h: Bytes -> Digest, s: System) {
    forall g :: g in s.guards ==> GuardOk(h, s.guards[g], s.ops, s.files)
  }

  /** A rename in flight, attached or not, can only put down bytes that hash to its address. */
  ghost predicate RenamesOk(h: Bytes -> Digest, s: System) {
    forall n :: n in s.ops && s.ops[n].Pending? && s.ops[n].op.RenameFile? ==>
      RenameOk(h, n, s.ops[n], s.files)
  }

  predicate RenameOk(h: Bytes -> Digest, n: nat, op: Operation, files: map<Path, Bytes>)
    requires op.Pending?
  {
    var temp := TempPath(op.room, op.digest, n);
    temp in files ==> h(files[temp]) == op.digest
  }

  /** Every file at a final address hashes to that address. */
  ghost predicate AddressesOk(h: Bytes -> Digest, s: System) {
    forall p :: p in s.files && p.FinalPath? ==> h(s.files[p]) == p.digest
  }

  /** Every stored entry has its file, of the length the index states. */
  ghost predicate StoredOk(s: System) {
    forall r, d :: d in RoomOf(s.index, r).stored ==>
      HasFile(s.files, r, d, RoomOf(s.index, r).stored[d].bytes)
  }

  predicate HasFile(files: map<Path, Bytes>, r: RoomId, d: Digest, bytes: nat) {
    FinalPath(r, d) in files && |files[FinalPath(r, d)]| == bytes
  }

  /** Between a landed rename and its commit, the owner of the address finds its file there. */
  ghost predicate LandingsOk(s: System) {
    forall g ::
      g in s.guards && HasLanded(s.guards[g], s.ops) && OwnsFlight(s.index, s.guards[g].room, s.guards[g].digest, g) ==>
      FinalPath(s.guards[g].room, s.guards[g].digest) in s.files
  }

  predicate HasLanded(guard: Guard, ops: map<nat, Operation>) {
    guard.phase.Renaming? && guard.temp.Some? && guard.temp.value in ops && ops[guard.temp.value] == Landed(true)
  }

  /** The index's lifetimes are exactly the last commits', until their room ends. */
  ghost predicate LifetimesOk(s: System) {
    forall r, d :: LifetimeOk(RoomOf(s.index, r), s.commits, s.clock, r, d)
  }

  predicate LifetimeOk(room: Room, commits: map<Address, (Instant, nat)>, clock: Instant, r: RoomId, d: Digest) {
    && (d in room.stored ==>
          && (r, d) in commits && room.stored[d].bytes == commits[(r, d)].1
          && room.stored[d].expiresAt == commits[(r, d)].0 + PAYLOAD_TIME_TO_LIVE)
    && ((r, d) in commits ==>
          && commits[(r, d)].0 <= clock
          && (clock < commits[(r, d)].0 + PAYLOAD_TIME_TO_LIVE ==> d in room.stored))
  }

  /** An address being uploaded has no unexpired stored entry. */
  ghost predicate NoOverlap(s: System) {
    forall r, d :: ExpiredIfUploading(RoomOf(s.index, r), s.clock, d)
  }

  predicate ExpiredIfUploading(room: Room, clock: Instant, d: Digest) {
    d in room.uploading && d in room.stored ==> room.stored[d].expiresAt <= clock
  }

  /** Uploads accepted for an address never outnumber the grants charged for it. */
  ghost predicate GrantsOk(s: System) {
    forall r, d :: GrantOk(RoomOf(s.index, r), s.accepted[(r, d)], s.grants[(r, d)], d)
  }

  predicate GrantOk(room: Room, accepted: nat, grants: nat, d: Digest) {
    accepted + (if d in room.reserved then 1 else 0) <= grants
  }

  ghost predicate Inv(h: Bytes -> Digest, s: System) {
    && IndexOk(s.index)
    && SerialsOk(s)
    && FlightsOk(s)
    && GuardsOk(h, s)
    && RenamesOk(h, s)
    && AddressesOk(h, s)
    && StoredOk(s)
    && LandingsOk(s)
    && LifetimesOk(s)
    && NoOverlap(s)
    && GrantsOk(s)
  }
}
