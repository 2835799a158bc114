/**
 The counting index beside the interleaved store: every run of the store is one the
 class `Store` goes through, and at every moment of it the running charges are the
 sums they stand for.
 */
module StoreMirror {
  import opened Basics
  import opened StoreModel
  import opened StoreIndex
  import opened StoreRuns
  import opened StoreSafety

  /** Sizes arrive as 64-bit words. */
  predicate StepFits(step: Step) {
    && (step.ReserveRoom? ==> step.bytes < 0x1_0000_0000_0000_0000)
    && (step.BeginTransfer? ==> step.declared < 0x1_0000_0000_0000_0000)
  }

  /** The class holds the index of the state, and has queued what is queued there and what was carried out since. */
  ghost predicate Mirrors(store: Store, s: System, carried: multiset<Removal>)
    reads store
  {
    && store.Valid() && store.View() == s.index && store.nextSerial == s.nextSerial
    && multiset(store.removals) == s.removals + carried
  }

  lemma AcceptedChanges(index: Index, room: RoomId, digest: Digest, declared: nat, now: Instant, serial: nat)
    ensures var (after, result) := BeginUpload(index, room, digest, declared, now, serial);
            result.Accepted? ==> after != index
  {
  }

  lemma BeginParts(h: Bytes -> Digest, s: System, step: Step)
    requires step.BeginTransfer? && Enabled(s, step)
    ensures var t := Apply(h, s, step);
            t.index == BeginUpload(s.index, step.room, step.digest, step.declared, step.now, s.nextSerial).0
            && t.removals == s.removals
            && t.nextSerial == if t.index == s.index then s.nextSerial else s.nextSerial + 1
  {
    hide StoreModel.BeginUpload;
    AcceptedChanges(s.index, step.room, step.digest, step.declared, step.now, s.nextSerial);
  }

  method MirrorBegin(store: Store, h: Bytes -> Digest, s: System, step: Step, ghost carried: multiset<Removal>)
    requires step.BeginTransfer? && StepFits(step) && Enabled(s, step) && Mirrors(store, s, carried)
    modifies store
    ensures Mirrors(store, Apply(h, s, step), carried)
  {
    hide StoreModel.BeginUpload, Apply, Balanced, IndexOk, StoreIndex.Contents;
    BeginParts(h, s, step);
    var _, _ := store.BeginUpload(step.room, step.digest, step.declared as u64, step.now);
  }

  /** An upload that goes on to write or rename takes a serial for its temporary file, once. */
  predicate TakesSerial(h: Bytes -> Digest, guard: Guard, step: Step) {
    guard.temp.None?
    && ((step.WriteChunk? && |guard.written| + |step.chunk| <= guard.declared)
        || (step.Finish? && |guard.written| == guard.declared && h(guard.written) == guard.digest))
  }

  /** The parts of a state the class holds. */
  ghost predicate SameIndex(s: System, t: System, serials: nat) {
    t.index == s.index && t.removals == s.removals && t.nextSerial == s.nextSerial + serials
  }

  lemma OpenParts(s: System, g: nat, next: Resumption)
    requires g in s.guards
    ensures SameIndex(s, Open(s, g, next), 1)
  {
  }

  lemma StartParts(s: System, g: nat, n: nat, phase: StoreRuns.Phase, op: FileOp)
    requires g in s.guards
    ensures SameIndex(s, Start(s, g, n, phase, op), 0)
  {
  }

  lemma WriteParts(h: Bytes -> Digest, s: System, g: nat, chunk: Bytes)
    requires g in s.guards
    ensures SameIndex(s, ApplyWrite(s, g, chunk), if TakesSerial(h, s.guards[g], WriteChunk(g, chunk)) then 1 else 0)
  {
    hide Open, Start;
    var guard := s.guards[g];
    OpenParts(s, g, ThenWrite(chunk));
    if guard.temp.Some? {
      StartParts(s, g, guard.temp.value, Writing(chunk), WriteFile(guard.written + chunk));
    }
  }

  lemma FinishParts(h: Bytes -> Digest, s: System, g: nat)
    requires g in s.guards
    ensures SameIndex(s, ApplyFinish(h, s, g), if TakesSerial(h, s.guards[g], Finish(g)) then 1 else 0)
  {
    hide Open, Start;
    var guard := s.guards[g];
    OpenParts(s, g, ThenRename);
    if guard.temp.Some? {
      StartParts(s, g, guard.temp.value, Renaming, RenameFile);
    }
  }

  method MirrorWrite(store: Store, h: Bytes -> Digest, s: System, step: Step, ghost carried: multiset<Removal>)
    requires (step.WriteChunk? || step.Finish?) && Enabled(s, step) && Mirrors(store, s, carried)
    modifies store
    ensures Mirrors(store, Apply(h, s, step), carried)
  {
    hide ApplyWrite, ApplyFinish, TakesSerial, Balanced, IndexOk, StoreIndex.Contents;
    if step.WriteChunk? {
      WriteParts(h, s, step.guard, step.chunk);
    } else {
      FinishParts(h, s, step.guard);
    }
    if TakesSerial(h, s.guards[step.guard], step) {
      var _ := store.TakeSerial();
    }
  }

  lemma ResumeParts(h: Bytes -> Digest, s: System, g: nat)
    requires Enabled(s, Resume(g))
    ensures var t, guard := Apply(h, s, Resume(g)), s.guards[g];
            t.nextSerial == s.nextSerial && t.removals == s.removals
            && t.index == if HasLanded(guard, s.ops)
                          then CommitUpload(s.index, guard.room, guard.digest, g, |guard.written|, s.clock).0
                          else s.index
  {
    hide StoreModel.CommitUpload;
    ResumeIndex(s, g);
  }

  /** What an upload reports to its commit is within its allowance. */
  lemma CommitFits(h: Bytes -> Digest, s: System, g: nat)
    requires Injective(h) && Inv(h, s) && g in s.guards && HasLanded(s.guards[g], s.ops)
    ensures var guard := s.guards[g];
            OwnsFlight(s.index, guard.room, guard.digest, g) ==>
              ChargeFor(|guard.written|) <= s.index[guard.room].uploading[guard.digest].charged
  {
    hide Inv;
    var guard := s.guards[g];
    if OwnsFlight(s.index, guard.room, guard.digest, g) {
      CommittedFile(h, s, g);
    }
  }

  method MirrorResume(store: Store, h: Bytes -> Digest, s: System, g: nat, ghost carried: multiset<Removal>)
    requires Injective(h) && Inv(h, s) && Enabled(s, Resume(g)) && Mirrors(store, s, carried)
    requires |s.guards[g].written| <= MAX_PAYLOAD_BYTES
    modifies store
    ensures Mirrors(store, Apply(h, s, Resume(g)), carried)
  {
    hide Apply, StoreModel.CommitUpload, Inv, Balanced, IndexOk, StoreIndex.Contents;
    ResumeParts(h, s, g);
    var guard := s.guards[g];
    if HasLanded(guard, s.ops) {
      CommitFits(h, s, g);
      var _ := store.CommitUpload(guard.room, guard.digest, g, |guard.written| as u64, s.clock);
    }
  }

  /** What a dropped upload leaves to remove. */
  lemma DropParts(h: Bytes -> Digest, s: System, g: nat)
    requires Enabled(s, DropGuard(g))
    ensures var t, guard := Apply(h, s, DropGuard(g)), s.guards[g];
            t.nextSerial == s.nextSerial && t.index == AbandonUpload(s.index, guard.room, guard.digest, g)
            && t.removals == if guard.temp.Some?
                             then s.removals + multiset{TempFile(guard.room, guard.digest, guard.temp.value)}
                             else s.removals
  {
  }

  method MirrorDrop(store: Store, h: Bytes -> Digest, s: System, g: nat, ghost carried: multiset<Removal>)
    requires Enabled(s, DropGuard(g)) && Mirrors(store, s, carried)
    modifies store
    ensures Mirrors(store, Apply(h, s, DropGuard(g)), carried)
  {
    hide Apply, StoreModel.AbandonUpload, Balanced, IndexOk, StoreIndex.Contents;
    DropParts(h, s, g);
    var guard := s.guards[g];
    store.AbandonUpload(guard.room, guard.digest, g);
    if guard.temp.Some? {
      store.QueueRemoval(TempFile(guard.room, guard.digest, guard.temp.value));
    }
  }

  method MirrorReserve(store: Store, h: Bytes -> Digest, s: System, step: Step, ghost carried: multiset<Removal>)
    requires step.ReserveRoom? && StepFits(step) && Enabled(s, step) && Mirrors(store, s, carried)
    modifies store
    ensures Mirrors(store, Apply(h, s, step), carried)
  {
    hide StoreModel.Reserve, Balanced, IndexOk, StoreIndex.Contents;
    var _ := store.Reserve(step.room, step.digest, step.bytes as u64, step.now);
  }

  lemma ForgetParts(h: Bytes -> Digest, s: System, room: RoomId)
    ensures var t := Apply(h, s, EndRoom(room));
            t.index == ForgetRoom(s.index, room) && t.nextSerial == s.nextSerial
            && t.removals == if room in s.index then s.removals + multiset{RoomDirectory(room)} else s.removals
  {
  }

  method MirrorForget(store: Store, h: Bytes -> Digest, s: System, room: RoomId, ghost carried: multiset<Removal>)
    requires Mirrors(store, s, carried)
    modifies store
    ensures Mirrors(store, Apply(h, s, EndRoom(room)), carried)
  {
    hide StoreModel.ForgetRoom, Apply, Balanced, IndexOk, StoreIndex.Contents;
    ForgetParts(h, s, room);
    store.ForgetRoom(room);
  }

  method MirrorSweep(store: Store, h: Bytes -> Digest, s: System, now: Instant, ghost carried: multiset<Removal>)
    requires Enabled(s, SweepExpired(now)) && Mirrors(store, s, carried)
    modifies store
    ensures Mirrors(store, Apply(h, s, SweepExpired(now)), carried)
  {
    hide StoreModel.Sweep, ExpiredFiles, Balanced, IndexOk, StoreIndex.Contents;
    var _ := store.Sweep(now);
  }

  /** The re-check the class makes before a removal is the one the run makes. */
  method MirrorRemoval(store: Store, h: Bytes -> Digest, s: System, removal: Removal, ghost carried: multiset<Removal>)
    requires Enabled(s, CarryOut(removal)) && Mirrors(store, s, carried)
    ensures Mirrors(store, Apply(h, s, CarryOut(removal)), carried + multiset{removal})
  {
    hide IndexOk, Balanced, StoreIndex.Contents, Apply;
    var goes := store.Removable(removal);
    assert !goes ==> Unlinked(s, removal) == s.files;
    RemovalParts(h, s, removal);
    assert s.removals + carried == s.removals - multiset{removal} + (carried + multiset{removal});
  }

  lemma RemovalParts(h: Bytes -> Digest, s: System, removal: Removal)
    requires Enabled(s, CarryOut(removal))
    ensures var t := Apply(h, s, CarryOut(removal));
            t.index == s.index && t.nextSerial == s.nextSerial && t.removals == s.removals - multiset{removal}
  {
    hide Unlinked;
  }

  /** One step of a run, and what the class does for it. */
  method MirrorStep(store: Store, h: Bytes -> Digest, s: System, step: Step, ghost carried: multiset<Removal>)
    returns (ghost now: multiset<Removal>)
    requires Injective(h) && Inv(h, s) && StepFits(step) && Enabled(s, step) && Mirrors(store, s, carried)
    requires forall g :: g in s.guards ==> |s.guards[g].written| <= MAX_PAYLOAD_BYTES
    modifies store
    ensures Mirrors(store, Apply(h, s, step), now)
  {
    now := if step.CarryOut? then carried + multiset{step.removal} else carried;
    if step.Tick? || step.BreakOff? || step.Land? || step.CleanUp? {
      AsideParts(h, s, step);
      hide Apply, Balanced, IndexOk, StoreIndex.Contents;
      return;
    }
    hide Apply, Inv, Mirrors;
    match step {
      case ReserveRoom(_, _, _, _) => MirrorReserve(store, h, s, step, carried);
      case BeginTransfer(_, _, _, _) => MirrorBegin(store, h, s, step, carried);
      case EndRoom(room) => MirrorForget(store, h, s, room, carried);
      case SweepExpired(at) => MirrorSweep(store, h, s, at, carried);
      case CarryOut(removal) => MirrorRemoval(store, h, s, removal, carried);
      case WriteChunk(_, _) => MirrorWrite(store, h, s, step, carried);
      case Finish(_) => MirrorWrite(store, h, s, step, carried);
      case Resume(g) => MirrorResume(store, h, s, g, carried);
      case DropGuard(g) => MirrorDrop(store, h, s, g, carried);
      case _ =>
    }
  }

  lemma AsideParts(h: Bytes -> Digest, s: System, step: Step)
    requires Enabled(s, step) && (step.Tick? || step.BreakOff? || step.Land? || step.CleanUp?)
    ensures SameIndex(s, Apply(h, s, step), 0)
  {
    hide LandedFiles;
  }

  /** No upload ever has more written than a payload may hold. */
  lemma WrittenFits(h: Bytes -> Digest, states: seq<System>, steps: seq<Step>, i: nat, g: nat)
    requires Injective(h) && Run(h, states, steps) && i < |states| && g in states[i].guards
    ensures |states[i].guards[g].written| <= MAX_PAYLOAD_BYTES
  {
    hide Inv, Apply, Enabled, Accepts, GuardOk;
    var guard := states[i].guards[g];
    RunKeeps(h, states, steps, i);
    OwnPart(h, states[i], g);
    WrittenWithin(h, guard, states[i].ops, states[i].files);
    UploadsComeFromReservations(h, states, steps, i, g);
    var j :| 0 <= j < i && Accepts(states[j], steps[j], states[j + 1], g, guard.room, guard.digest, guard.declared);
    RunKeeps(h, states, steps, j);
    IndexPart(h, states[j]);
    ReservedWithin(states[j], steps[j], states[j + 1], g, guard);
  }

  lemma WrittenWithin(h: Bytes -> Digest, guard: Guard, ops: map<nat, Operation>, files: map<Path, Bytes>)
    requires GuardOk(h, guard, ops, files)
    ensures |guard.written| <= guard.declared
  {
  }

  lemma ReservedWithin(s: System, step: Step, t: System, g: nat, guard: Guard)
    requires IndexOk(s.index) && Accepts(s, step, t, g, guard.room, guard.digest, guard.declared)
    ensures guard.declared <= MAX_PAYLOAD_BYTES
  {
    assert RoomOk(s.index[guard.room]);
  }

  /** Conservation over whole runs: a store taken through any run holds the index of every state in turn, and its
      running charge is the sum of that state's entries. */
  method MirrorRun(h: Bytes -> Digest, states: seq<System>, steps: seq<Step>)
    returns (store: Store, charges: seq<u64>)
    requires Injective(h) && Run(h, states, steps)
    requires forall i :: 0 <= i < |steps| ==> StepFits(steps[i])
    ensures fresh(store) && store.Valid() && store.View() == states[|steps|].index
    ensures |charges| == |states| && forall i :: 0 <= i < |states| ==> charges[i] as nat == IndexCharge(states[i].index)
    ensures forall i :: 0 <= i < |steps| && steps[i].Resume? ==> charges[i + 1] <= charges[i]
  {
    hide Inv, Apply, Enabled, IndexCharge, StepFits;
    store := new Store();
    ghost var carried: multiset<Removal> := multiset{};
    charges := [store.charged];
    for n := 0 to |steps|
      invariant fresh(store) && Mirrors(store, states[n], carried)
      invariant |charges| == n + 1 && forall i :: 0 <= i <= n ==> charges[i] as nat == IndexCharge(states[i].index)
    {
      RunKeeps(h, states, steps, n);
      forall g | g in states[n].guards ensures |states[n].guards[g].written| <= MAX_PAYLOAD_BYTES {
        WrittenFits(h, states, steps, n, g);
      }
      carried := MirrorStep(store, h, states[n], steps[n], carried);
      charges := charges + [store.charged];
    }
    forall i | 0 <= i < |steps| && steps[i].Resume? ensures charges[i + 1] <= charges[i] {
      CommitNeverRaisesCharge(h, states, steps, i, steps[i].guard);
    }
  }
}
