/**
 An upload that still has its address is never stuck: the temporary file it works
 on is there, so every file operation it waits for can succeed.
 */
module StoreLandings {
  import opened Basics
  import opened StoreModel
  import opened StoreRuns
  import opened StoreSafety
  import opened StoreProgress

  ghost predicate Unclaimed(guards: map<nat, Guard>, n: nat) {
    forall g :: g in guards ==> Claim(guards[g]) != Some(n)
  }

  /** Whatever is about to remove a temporary file removes one that no upload works on. */
  ghost predicate TempsOk(s: System) {
    && (forall r, d, n: nat :: TempFile(r, d, n) in s.removals ==> n < s.nextSerial && Unclaimed(s.guards, n))
    && (forall k :: k in s.guards && s.guards[k].phase.Cleaning? && s.guards[k].phase.path.TempPath? ==>
          s.guards[k].phase.path.serial < s.nextSerial && Unclaimed(s.guards, s.guards[k].phase.path.serial))
  }

  /** The temporary file an upload works on is there, once it has been created and until it has been renamed. */
  predicate Kept(guard: Guard, ops: map<nat, Operation>, files: map<Path, Bytes>) {
    match guard.phase
    case Ready => guard.temp.Some? ==> TempPath(guard.room, guard.digest, guard.temp.value) in files
    case Writing(_) => guard.temp.Some? ==> TempPath(guard.room, guard.digest, guard.temp.value) in files
    case Opening(n, _) => n in ops && ops[n] == Landed(true) ==> TempPath(guard.room, guard.digest, n) in files
    case Renaming =>
      guard.temp.Some? && guard.temp.value in ops && ops[guard.temp.value].Pending? ==>
        TempPath(guard.room, guard.digest, guard.temp.value) in files
    case _ => true
  }

  ghost predicate KeptOk(s: System) {
    forall g :: g in s.guards && OwnsFlight(s.index, s.guards[g].room, s.guards[g].digest, g) ==>
      Kept(s.guards[g], s.ops, s.files)
  }

  ghost predicate FilesOk(s: System) {
    TempsOk(s) && KeptOk(s)
  }

  // Steps that leave the files and the uploads alone

  /** No flight is new. */
  ghost predicate NoNewFlight(index: Index, after: Index) {
    forall r, d, g :: OwnsFlight(after, r, d, g) ==> OwnsFlight(index, r, d, g)
  }

  lemma FewerNoNew(index: Index, after: Index)
    requires Fewer(index, after)
    ensures NoNewFlight(index, after)
  {
    forall r, d, g | OwnsFlight(after, r, d, g) ensures OwnsFlight(index, r, d, g) {
      assert Sub(RoomOf(after, r).uploading, RoomOf(index, r).uploading);
    }
  }

  lemma IndexStep(s: System, t: System)
    requires FilesOk(s) && NoNewFlight(s.index, t.index)
    requires t.guards == s.guards && t.ops == s.ops && t.files == s.files && s.nextSerial <= t.nextSerial
    requires forall r, d, n: nat :: TempFile(r, d, n) in t.removals ==> TempFile(r, d, n) in s.removals
    ensures FilesOk(t)
  {
  }

  lemma BeganFilesOk(s: System, t: System, room: RoomId, digest: Digest, declared: nat)
    requires FilesOk(s) && SerialsOk(s) && Began(s, t, room, digest, declared)
    ensures FilesOk(t)
  {
    forall g | g in t.guards && g != s.nextSerial && OwnsFlight(t.index, t.guards[g].room, t.guards[g].digest, g)
      ensures Kept(t.guards[g], t.ops, t.files)
    {
      assert RoomOf(t.index, t.guards[g].room).uploading[t.guards[g].digest].serial == g;
      assert OwnsFlight(s.index, s.guards[g].room, s.guards[g].digest, g);
    }
  }

  lemma BeginFilesOk(h: Bytes -> Digest, s: System, room: RoomId, digest: Digest, declared: nat, now: Instant)
    requires FilesOk(s) && SerialsOk(s) && Enabled(s, BeginTransfer(room, digest, declared, now))
    ensures FilesOk(Apply(h, s, BeginTransfer(room, digest, declared, now)))
  {
    hide StoreModel.BeginUpload, FilesOk, SerialsOk, Joined, Fewer, NoNewFlight;
    var t := Apply(h, s, BeginTransfer(room, digest, declared, now));
    BeginShape(s.index, room, digest, declared, now, s.nextSerial);
    if BeginUpload(s.index, room, digest, declared, now, s.nextSerial).1.Accepted? {
      BeganFilesOk(s, t, room, digest, declared);
    } else {
      FewerNoNew(s.index, t.index);
      IndexStep(s, t);
    }
  }

  lemma QuietFilesOk(h: Bytes -> Digest, s: System, step: Step)
    requires FilesOk(s) && Enabled(s, step)
    requires step.Tick? || step.ReserveRoom? || step.EndRoom? || step.SweepExpired?
    ensures FilesOk(Apply(h, s, step))
  {
    hide StoreModel.Reserve, StoreModel.Sweep, StoreModel.ForgetRoom, FilesOk, Fewer, NoNewFlight;
    hide LandedFiles, Unlinked;
    var t := Apply(h, s, step);
    match step {
      case ReserveRoom(r, d, bytes, now) => ReserveShape(s.index, r, d, bytes, now);
      case EndRoom(r) => ForgetShape(s.index, r);
      case SweepExpired(now) => SweepShape(s.index, now);
      case _ => SameFewer(s.index);
    }
    FewerNoNew(s.index, t.index);
    IndexStep(s, t);
  }

  lemma SameFewer(index: Index)
    ensures Fewer(index, index)
  {
  }

  // Steps that unlink

  lemma CarryOutFilesOk(h: Bytes -> Digest, s: System, removal: Removal)
    requires FilesOk(s) && Enabled(s, CarryOut(removal))
    ensures FilesOk(Apply(h, s, CarryOut(removal)))
  {
    var t := Apply(h, s, CarryOut(removal));
    forall g | g in t.guards && OwnsFlight(t.index, t.guards[g].room, t.guards[g].digest, g)
      ensures Kept(t.guards[g], t.ops, t.files)
    {
      assert Kept(s.guards[g], s.ops, s.files);
      UnlinkKeepsClaimed(s, removal, g);
    }
  }

  lemma UnlinkKeepsClaimed(s: System, removal: Removal, g: nat)
    requires TempsOk(s) && removal in s.removals && g in s.guards
    requires OwnsFlight(s.index, s.guards[g].room, s.guards[g].digest, g)
    ensures forall n :: Claim(s.guards[g]) == Some(n) ==>
              var path := TempPath(s.guards[g].room, s.guards[g].digest, n);
              path in s.files ==> path in Unlinked(s, removal)
  {
  }

  lemma CleanUpFilesOk(h: Bytes -> Digest, s: System, k: nat)
    requires FilesOk(s) && SerialsOk(s) && Enabled(s, CleanUp(k)) && s.guards[k].temp.None?
    ensures FilesOk(Apply(h, s, CleanUp(k)))
  {
    var t := Apply(h, s, CleanUp(k));
    forall g | g in t.guards && OwnsFlight(t.index, t.guards[g].room, t.guards[g].digest, g)
      ensures Kept(t.guards[g], t.ops, t.files)
    {
      assert Kept(s.guards[g], s.ops, s.files);
    }
    forall n: nat | Unclaimed(s.guards, n) ensures Unclaimed(t.guards, n) {
    }
  }

  // Steps of one upload

  lemma MovesTemps(s: System, t: System, k: nat)
    requires TempsOk(s) && SerialsOk(s) && Moves(s, t, k)
    requires var phase := t.guards[k].phase;
             phase.Cleaning? && phase.path.TempPath? ==>
               Claim(t.guards[k]).None? && Claim(s.guards[k]) == Some(phase.path.serial)
    ensures TempsOk(t)
  {
    forall n: nat | Unclaimed(s.guards, n) && n < s.nextSerial ensures Unclaimed(t.guards, n) {
    }
  }

  lemma MovesKept(s: System, t: System, k: nat)
    requires KeptOk(s) && SerialsOk(s) && Moves(s, t, k)
    requires OwnsFlight(s.index, s.guards[k].room, s.guards[k].digest, k) && Kept(s.guards[k], s.ops, s.files) ==>
               Kept(t.guards[k], t.ops, t.files)
    ensures KeptOk(t)
  {
    forall g | g in t.guards && OwnsFlight(t.index, t.guards[g].room, t.guards[g].digest, g)
      ensures Kept(t.guards[g], t.ops, t.files)
    {
      assert Kept(s.guards[g], s.ops, s.files);
      if g != k {
        MovesAside(s, t, k, g);
        OthersKept(s, t, g);
      }
    }
  }

  lemma OthersKept(s: System, t: System, g: nat)
    requires Untouched(s, t, g) && t.files == s.files && Kept(s.guards[g], s.ops, s.files)
    requires forall n :: Claim(s.guards[g]) == Some(n) && n in t.ops ==> n in s.ops
    ensures Kept(t.guards[g], t.ops, t.files)
  {
  }

  lemma MovesFilesOk(s: System, t: System, k: nat)
    requires FilesOk(s) && SerialsOk(s) && Moves(s, t, k)
    requires var phase := t.guards[k].phase;
             phase.Cleaning? && phase.path.TempPath? ==>
               Claim(t.guards[k]).None? && Claim(s.guards[k]) == Some(phase.path.serial)
    requires Kept(s.guards[k], s.ops, s.files) ==> Kept(t.guards[k], t.ops, t.files)
    ensures FilesOk(t)
  {
    hide TempsOk, KeptOk, SerialsOk, Moves, Kept;
    MovesTemps(s, t, k);
    MovesKept(s, t, k);
  }

  lemma WriteFilesOk(s: System, k: nat, chunk: Bytes)
    requires FilesOk(s) && SerialsOk(s) && Enabled(s, WriteChunk(k, chunk))
    ensures FilesOk(ApplyWrite(s, k, chunk))
  {
    WriteMoves(s, k, chunk);
    WrittenKept(s, k, chunk);
    hide FilesOk, SerialsOk, Moves, Kept, ApplyWrite;
    MovesFilesOk(s, ApplyWrite(s, k, chunk), k);
  }

  lemma WrittenKept(s: System, k: nat, chunk: Bytes)
    requires SerialsOk(s) && Enabled(s, WriteChunk(k, chunk))
    ensures var t := ApplyWrite(s, k, chunk);
            k in t.guards && !t.guards[k].phase.Cleaning?
            && (Kept(s.guards[k], s.ops, s.files) ==> Kept(t.guards[k], t.ops, t.files))
  {
    WriteTaken(s, k, chunk);
  }

  lemma FinishFilesOk(h: Bytes -> Digest, s: System, k: nat)
    requires FilesOk(s) && SerialsOk(s) && Enabled(s, Finish(k))
    ensures FilesOk(ApplyFinish(h, s, k))
  {
    FinishMoves(h, s, k);
    FinishedKept(h, s, k);
    hide FilesOk, SerialsOk, Moves, Kept, ApplyFinish;
    MovesFilesOk(s, ApplyFinish(h, s, k), k);
  }

  lemma FinishedKept(h: Bytes -> Digest, s: System, k: nat)
    requires SerialsOk(s) && Enabled(s, Finish(k))
    ensures var t := ApplyFinish(h, s, k);
            && k in t.guards && (Kept(s.guards[k], s.ops, s.files) ==> Kept(t.guards[k], t.ops, t.files))
            && var phase := t.guards[k].phase;
               phase.Cleaning? && phase.path.TempPath? ==>
                 Claim(t.guards[k]).None? && Claim(s.guards[k]) == Some(phase.path.serial)
  {
    hide ApplyFinish;
    FinishForms(h, s, k);
  }

  /** What resuming leaves of an upload that does not commit. */
  lemma ResumedKept(s: System, k: nat)
    requires Enabled(s, Resume(k)) && !HasLanded(s.guards[k], s.ops)
    ensures var t := ApplyResume(s, k);
            && k in t.guards && (Kept(s.guards[k], s.ops, s.files) ==> Kept(t.guards[k], t.ops, t.files))
            && var phase := t.guards[k].phase;
               phase.Cleaning? && phase.path.TempPath? ==>
                 Claim(t.guards[k]).None? && Claim(s.guards[k]) == Some(phase.path.serial)
  {
    hide ApplyResume;
    if !s.ops[Awaited(s.guards[k]).value].ok {
      FailedStops(s, k);
    } else if s.guards[k].phase.Opening? {
      OpenedGoesOn(s, k);
    } else {
      WroteGoesOn(s, k);
    }
  }

  lemma CommitFilesOk(s: System, k: nat)
    requires FilesOk(s) && SerialsOk(s) && k in s.guards
    ensures FilesOk(ApplyCommit(s, k))
  {
    hide ApplyCommit, FilesOk;
    CommitParts(s, k);
    LeavesFilesOk(s, ApplyCommit(s, k), k);
  }

  /** The upload goes, or gives up its temporary file; nothing else about uploads and files changes. */
  lemma LeavesFilesOk(s: System, t: System, k: nat)
    requires FilesOk(s) && k in s.guards && NoNewFlight(s.index, t.index)
    requires t.ops == s.ops && t.files == s.files && t.removals == s.removals && t.nextSerial == s.nextSerial
    requires t.guards == s.guards - {k}
             || (exists guard :: t.guards == s.guards[k := guard] && guard.phase.Cleaning? && Claim(guard).None?
                                 && guard.phase.path.FinalPath?)
    ensures FilesOk(t)
  {
    hide NoNewFlight, Kept;
    forall n: nat | Unclaimed(s.guards, n) ensures Unclaimed(t.guards, n) {
    }
    forall g | g in t.guards && OwnsFlight(t.index, t.guards[g].room, t.guards[g].digest, g)
      ensures Kept(t.guards[g], t.ops, t.files)
    {
      if g == k {
        CleaningKept(t.guards[g], t.ops, t.files);
      } else {
        FlightWas(s.index, t.index, t.guards[g].room, t.guards[g].digest, g);
      }
    }
  }

  lemma CleaningKept(guard: Guard, ops: map<nat, Operation>, files: map<Path, Bytes>)
    requires guard.phase.Cleaning?
    ensures Kept(guard, ops, files)
  {
  }

  lemma FlightWas(index: Index, after: Index, r: RoomId, d: Digest, g: nat)
    requires NoNewFlight(index, after) && OwnsFlight(after, r, d, g)
    ensures OwnsFlight(index, r, d, g)
  {
  }

  lemma CommitParts(s: System, k: nat)
    requires k in s.guards
    ensures var t := ApplyCommit(s, k);
            && NoNewFlight(s.index, t.index)
            && t.ops == s.ops && t.files == s.files && t.removals == s.removals && t.nextSerial == s.nextSerial
            && (t.guards == s.guards - {k}
                || (exists guard :: t.guards == s.guards[k := guard] && guard.phase.Cleaning? && Claim(guard).None?
                                    && guard.phase.path.FinalPath?))
  {
    var guard := s.guards[k];
    var gone := guard.(temp := None, phase := Cleaning(FinalPath(guard.room, guard.digest)));
    assert gone.phase.Cleaning? && Claim(gone).None? && gone.phase.path.FinalPath?;
    forall r, d, g | OwnsFlight(ApplyCommit(s, k).index, r, d, g) ensures OwnsFlight(s.index, r, d, g) {
      CommitNoNew(s, k, r, d, g);
    }
  }

  lemma CommitNoNew(s: System, k: nat, room: RoomId, digest: Digest, g: nat)
    requires k in s.guards && OwnsFlight(ApplyCommit(s, k).index, room, digest, g)
    ensures OwnsFlight(s.index, room, digest, g)
  {
  }

  lemma ResumeFilesOk(s: System, k: nat)
    requires FilesOk(s) && SerialsOk(s) && Enabled(s, Resume(k))
    requires s.guards[k].phase.Opening? ==> s.guards[k].temp.None?
    ensures FilesOk(ApplyResume(s, k))
  {
    if HasLanded(s.guards[k], s.ops) {
      hide ApplyCommit, FilesOk, SerialsOk;
      CommitFilesOk(s, k);
    } else {
      hide FilesOk, SerialsOk, Moves, Kept, ApplyResume;
      ResumeMoves(s, k);
      ResumedKept(s, k);
      MovesFilesOk(s, ApplyResume(s, k), k);
    }
  }

  lemma BreakOffFilesOk(h: Bytes -> Digest, s: System, k: nat)
    requires FilesOk(s) && SerialsOk(s) && Enabled(s, BreakOff(k))
    ensures FilesOk(Apply(h, s, BreakOff(k)))
  {
    hide FilesOk, SerialsOk;
    MovesFilesOk(s, Apply(h, s, BreakOff(k)), k);
  }

  lemma DropFilesOk(h: Bytes -> Digest, s: System, k: nat)
    requires FilesOk(s) && SerialsOk(s) && Enabled(s, DropGuard(k))
    requires s.guards[k].phase.Opening? ==> s.guards[k].temp.None?
    ensures FilesOk(Apply(h, s, DropGuard(k)))
  {
    hide StoreModel.AbandonUpload, Fewer;
    var t := Apply(h, s, DropGuard(k));
    AbandonShape(s.index, s.guards[k].room, s.guards[k].digest, k);
    FewerNoNew(s.index, t.index);
    forall g | g in t.guards && OwnsFlight(t.index, t.guards[g].room, t.guards[g].digest, g)
      ensures Kept(t.guards[g], t.ops, t.files)
    {
      assert Kept(s.guards[g], s.ops, s.files);
    }
    forall n: nat | Unclaimed(s.guards, n) ensures Unclaimed(t.guards, n) {
    }
    assert s.guards[k].temp.Some? ==> Unclaimed(t.guards, s.guards[k].temp.value);
  }

  // Landings

  lemma LandFilesOk(h: Bytes -> Digest, s: System, n: nat, ok: bool, garbage: Bytes)
    requires FilesOk(s) && GuardsOk(h, s) && Enabled(s, Land(n, ok, garbage))
    ensures FilesOk(Apply(h, s, Land(n, ok, garbage)))
  {
    hide LandedFiles;
    var t := Apply(h, s, Land(n, ok, garbage));
    forall g | g in t.guards && OwnsFlight(t.index, t.guards[g].room, t.guards[g].digest, g)
      ensures Kept(t.guards[g], t.ops, t.files)
    {
      assert Kept(s.guards[g], s.ops, s.files);
      LandKept(h, s, n, ok, garbage, s.guards[g]);
    }
  }

  lemma LandKept(h: Bytes -> Digest, s: System, n: nat, ok: bool, garbage: Bytes, guard: Guard)
    requires Enabled(s, Land(n, ok, garbage)) && GuardOk(h, guard, s.ops, s.files) && Kept(guard, s.ops, s.files)
    ensures Kept(guard, s.ops[n := Landed(ok)], LandedFiles(s.files, n, s.ops[n], ok, garbage))
  {
  }

  // Runs

  lemma GuardsPart(h: Bytes -> Digest, s: System)
    requires Inv(h, s)
    ensures GuardsOk(h, s) && SerialsOk(s)
  {
    hide GuardsOk, SerialsOk, IndexOk;
  }

  lemma StepFilesOk(h: Bytes -> Digest, s: System, step: Step)
    requires Inv(h, s) && FilesOk(s) && Enabled(s, step)
    ensures FilesOk(Apply(h, s, step))
  {
    hide Inv, FilesOk, GuardsOk, SerialsOk, ApplyWrite, ApplyFinish, ApplyResume, ApplyDrop, ApplyBegin, LandedFiles;
    hide Unlinked, StoreModel.Reserve, StoreModel.Sweep, StoreModel.ForgetRoom, ExpiredFiles;
    GuardsPart(h, s);
    match step
    case BeginTransfer(room, digest, declared, now) => BeginFilesOk(h, s, room, digest, declared, now);
    case CarryOut(removal) => CarryOutFilesOk(h, s, removal);
    case WriteChunk(k, chunk) => WriteFilesOk(s, k, chunk);
    case BreakOff(k) => BreakOffFilesOk(h, s, k);
    case Finish(k) => FinishFilesOk(h, s, k);
    case Land(n, ok, garbage) => LandFilesOk(h, s, n, ok, garbage);
    case Resume(k) =>
      TempPart(h, s, k);
      ResumeFilesOk(s, k);
    case CleanUp(k) =>
      TempPart(h, s, k);
      CleanUpFilesOk(h, s, k);
    case DropGuard(k) =>
      TempPart(h, s, k);
      DropFilesOk(h, s, k);
    case _ => QuietFilesOk(h, s, step);
  }

  lemma TempPart(h: Bytes -> Digest, s: System, k: nat)
    requires Inv(h, s) && k in s.guards
    ensures s.guards[k].phase.Opening? || s.guards[k].phase.Cleaning? ==> s.guards[k].temp.None?
  {
    hide Inv;
    OwnPart(h, s, k);
  }

  lemma InitialFilesOk()
    ensures FilesOk(INITIAL)
  {
  }

  lemma {:induction false} RunFilesOk(h: Bytes -> Digest, states: seq<System>, steps: seq<Step>, i: nat)
    requires Injective(h) && Run(h, states, steps) && i < |states|
    ensures FilesOk(states[i])
  {
    hide Inv, Apply, Enabled, FilesOk;
    if i == 0 {
      InitialFilesOk();
    } else {
      RunFilesOk(h, states, steps, i - 1);
      RunKeeps(h, states, steps, i - 1);
      StepFilesOk(h, states[i - 1], steps[i - 1]);
    }
  }

  /** In every state of every run, an upload that has its address and waits for a file operation can go on: what it
      waits for has landed, or nothing but the platform can make it fail. */
  lemma UploadsAreNeverStuck(h: Bytes -> Digest, states: seq<System>, steps: seq<Step>, i: nat, g: nat)
    requires Injective(h) && Run(h, states, steps) && i < |states| && g in states[i].guards
    requires OwnsFlight(states[i].index, states[i].guards[g].room, states[i].guards[g].digest, g)
    requires Awaited(states[i].guards[g]).Some?
    ensures Enabled(states[i], Resume(g)) || Enabled(states[i], Land(Awaited(states[i].guards[g]).value, true, []))
  {
    hide Inv, TempsOk;
    RunKeeps(h, states, steps, i);
    OwnPart(h, states[i], g);
    RunFilesOk(h, states, steps, i);
    assert Kept(states[i].guards[g], states[i].ops, states[i].files);
  }
}
